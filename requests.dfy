/** The request each `get_*` operation sends: its parameter list (the
    specification) and, for the operations whose URL is one format
    expression, that expression. */
module Requests {
  import opened Wrappers
  import opened Errors
  import opened Decimal
  import opened Query
  import opened MovingAverage

  /** An optional argument: the text `format` writes for it, and its Python
      truthiness (None, 0, 0.0 and "" are false). */
  datatype Arg = Arg(text: string, truthy: bool)

  /** The default `None` of the optional arguments. */
  const NoArg: Arg := Arg("None", false)

  /** The spaces after the key in get_intraday's URL: its string literal is
      continued with a backslash-newline, and the indentation of the next line
      becomes part of the literal. */
  const IntradayPadding: string := "        "

  /** An optional argument's parameter: present only when the value is truthy. */
  function Optional(name: string, v: Arg): (ps: seq<Param>)
    ensures Names(ps) == if v.truthy then [name] else []
    ensures v.truthy ==> ps[0].value == v.text
  {
    if v.truthy then [Param(name, v.text)] else []
  }

  /** The text an optional argument adds to the URL. */
  function OptionalText(name: string, v: Arg): string {
    if v.truthy then "&" + name + "=" + v.text else ""
  }

  /** Appending an optional argument's text is appending `&name=value` when
      it is truthy and nothing otherwise. */
  lemma AppendOptional(url: string, name: string, v: Arg)
    ensures url + OptionalText(name, v) == if v.truthy then url + ("&" + name + "=") + v.text else url
  {
  }

  /** The separators of the optional parameters, as the format strings of `get_mama`, `get_macd` and `get_macdext` write them. */
  lemma OptionalLiterals()
    ensures "&" + "fastlimit" + "=" == "&fastlimit=" && "&" + "slowlimit" + "=" == "&slowlimit="
    ensures "&" + "fastperiod" + "=" == "&fastperiod=" && "&" + "slowperiod" + "=" == "&slowperiod="
    ensures "&" + "signalperiod" + "=" == "&signalperiod="
  {
  }

  /** A moving-average argument's parameter: absent when the argument is
      falsy, otherwise the resolved code in decimal, or the resolution's error. */
  function MaOptional(name: string, arg: Option<MaArg>): (r: Result<seq<Param>, Error>)
    ensures !Truthy(arg) ==> r == Success([])
    ensures Truthy(arg) && ResolveMaType(arg.value).Success? ==>
      r == Success([Param(name, IntToString(ResolveMaType(arg.value).value))])
    ensures Truthy(arg) && ResolveMaType(arg.value).Failure? ==>
      r == Failure(ResolveMaType(arg.value).error)
  {
    if !Truthy(arg) then Success([])
    else
      var code :- ResolveMaType(arg.value);
      Success([Param(name, IntToString(code))])
  }

  /** The eight indicators whose URL is one fixed format. */
  datatype Indicator = SMA | EMA | WMA | DEMA | TEMA | TRIMA | KAMA | T3

  function FunctionKey(indicator: Indicator): string {
    match indicator
    case SMA => "SMA"
    case EMA => "EMA"
    case WMA => "WMA"
    case DEMA => "DEMA"
    case TEMA => "TEMA"
    case TRIMA => "TRIMA"
    case KAMA => "KAMA"
    case T3 => "T3"
  }

  /** Name of the answer's data entry for a technical indicator. */
  function IndicatorDataKey(functionKey: string): string {
    "Technical Analysis: " + functionKey
  }

  /** Name of the answer's data entry for an intraday series. */
  function IntradayDataKey(interval: string): string {
    "Time Series (" + interval + ")"
  }

  // ---------------------------------------------------------------------------
  // Parameter lists

  function IntradayQuery(symbol: string, interval: string, outputsize: string, key: string): seq<Param> {
    Request("TIME_SERIES_INTRADAY", symbol,
            [Param("interval", interval), Param("outputsize", outputsize)], key + IntradayPadding)
  }

  function DailyQuery(symbol: string, outputsize: string, key: string): seq<Param> {
    Request("TIME_SERIES_DAILY", symbol, [Param("outputsize", outputsize)], key)
  }

  function WeeklyQuery(symbol: string, key: string): seq<Param> {
    Request("TIME_SERIES_WEEKLY", symbol, [], key)
  }

  function MonthlyQuery(symbol: string, key: string): seq<Param> {
    Request("TIME_SERIES_MONTHLY", symbol, [], key)
  }

  function IndicatorQuery(indicator: Indicator, symbol: string, interval: string, timePeriod: string,
                          seriesType: string, key: string): seq<Param> {
    Request(FunctionKey(indicator), symbol,
            [Param("interval", interval), Param("time_period", timePeriod), Param("series_type", seriesType)], key)
  }

  function MamaQuery(symbol: string, interval: string, timePeriod: string, seriesType: string,
                     fastlimit: Arg, slowlimit: Arg, key: string): seq<Param> {
    Request("MAMA", symbol,
            [Param("interval", interval), Param("time_period", timePeriod), Param("series_type", seriesType)]
            + Optional("fastlimit", fastlimit) + Optional("slowlimit", slowlimit), key)
  }

  function MacdQuery(symbol: string, interval: string, seriesType: string,
                     fastperiod: Arg, slowperiod: Arg, signalperiod: Arg, key: string): seq<Param> {
    Request("MACD", symbol,
            [Param("interval", interval), Param("series_type", seriesType)]
            + Optional("fastperiod", fastperiod) + Optional("slowperiod", slowperiod)
            + Optional("signalperiod", signalperiod), key)
  }

  /** The MACDEXT request once its moving-average parameters are resolved. */
  function MacdextRequest(symbol: string, interval: string, seriesType: string,
                          fastperiod: Arg, slowperiod: Arg, signalperiod: Arg,
                          fast: seq<Param>, slow: seq<Param>, signal: seq<Param>, key: string): seq<Param> {
    Request("MACDEXT", symbol,
            [Param("interval", interval), Param("series_type", seriesType)]
            + Optional("fastperiod", fastperiod) + Optional("slowperiod", slowperiod)
            + Optional("signalperiod", signalperiod) + fast + slow + signal, key)
  }

  /** MACDEXT resolves its moving-average arguments in the order fast, slow,
      signal; the first that does not resolve is the error. */
  function MacdextQuery(symbol: string, interval: string, seriesType: string,
                        fastperiod: Arg, slowperiod: Arg, signalperiod: Arg,
                        fastmatype: Option<MaArg>, slowmatype: Option<MaArg>, signalmatype: Option<MaArg>,
                        key: string): Result<seq<Param>, Error> {
    var fast :- MaOptional("fastmatype", fastmatype);
    var slow :- MaOptional("slowmatype", slowmatype);
    var signal :- MaOptional("signalmatype", signalmatype);
    Success(MacdextRequest(symbol, interval, seriesType, fastperiod, slowperiod, signalperiod,
                           fast, slow, signal, key))
  }

  // ---------------------------------------------------------------------------
  // The fixed-format URLs, as the format strings write them

  function IntradayUrl(symbol: string, interval: string, outputsize: string, key: string): (url: string)
    ensures url == RequestUrl(IntradayQuery(symbol, interval, outputsize, key))
  {
    UrlOfTwo("TIME_SERIES_INTRADAY", symbol, Param("interval", interval), Param("outputsize", outputsize),
             key + IntradayPadding);
    LeadLiterals();
    var before := ApiUrl + "function=" + "TIME_SERIES_INTRADAY" + "&symbol=" + symbol + "&interval=" + interval
                  + "&outputsize=" + outputsize + "&apikey=";
    assert before + (key + IntradayPadding) == before + key + IntradayPadding;
    ApiUrl + "function=" + "TIME_SERIES_INTRADAY" + "&symbol=" + symbol + "&interval=" + interval
    + "&outputsize=" + outputsize + "&apikey=" + key + IntradayPadding
  }

  function DailyUrl(symbol: string, outputsize: string, key: string): (url: string)
    ensures url == RequestUrl(DailyQuery(symbol, outputsize, key))
  {
    UrlOfOne("TIME_SERIES_DAILY", symbol, Param("outputsize", outputsize), key);
    LeadLiterals();
    ApiUrl + "function=" + "TIME_SERIES_DAILY" + "&symbol=" + symbol + "&outputsize=" + outputsize
    + "&apikey=" + key
  }

  function WeeklyUrl(symbol: string, key: string): (url: string)
    ensures url == RequestUrl(WeeklyQuery(symbol, key))
  {
    UrlOfNone("TIME_SERIES_WEEKLY", symbol, key);
    ApiUrl + "function=" + "TIME_SERIES_WEEKLY" + "&symbol=" + symbol + "&apikey=" + key
  }

  function MonthlyUrl(symbol: string, key: string): (url: string)
    ensures url == RequestUrl(MonthlyQuery(symbol, key))
  {
    UrlOfNone("TIME_SERIES_MONTHLY", symbol, key);
    ApiUrl + "function=" + "TIME_SERIES_MONTHLY" + "&symbol=" + symbol + "&apikey=" + key
  }

  function IndicatorUrl(indicator: Indicator, symbol: string, interval: string, timePeriod: string,
                        seriesType: string, key: string): (url: string)
    ensures url == RequestUrl(IndicatorQuery(indicator, symbol, interval, timePeriod, seriesType, key))
  {
    UrlOfThree(FunctionKey(indicator), symbol, Param("interval", interval), Param("time_period", timePeriod),
               Param("series_type", seriesType), key);
    LeadLiterals();
    ApiUrl + "function=" + FunctionKey(indicator) + "&symbol=" + symbol + "&interval=" + interval
    + "&time_period=" + timePeriod + "&series_type=" + seriesType + "&apikey=" + key
  }

  // ---------------------------------------------------------------------------
  // Properties of the parameter lists

  /** The separators the format strings write, as Lead spells them. */
  lemma LeadLiterals()
    ensures Lead("interval") == "&interval=" && Lead("outputsize") == "&outputsize="
    ensures Lead("time_period") == "&time_period=" && Lead("series_type") == "&series_type="
  {
  }

  lemma Flatten10(h: string, s1: string, v1: string, s2: string, v2: string,
                  a: string, b: string, c: string, k1: string, k2: string)
    ensures h + (s1 + v1 + s2 + v2 + a + b + c) + (k1 + k2) == h + s1 + v1 + s2 + v2 + a + b + c + k1 + k2
  {
  }

  lemma Flatten11(h: string, s1: string, v1: string, s2: string, v2: string, s3: string, v3: string,
                  a: string, b: string, k1: string, k2: string)
    ensures h + (s1 + v1 + s2 + v2 + s3 + v3 + a + b) + (k1 + k2)
         == h + s1 + v1 + s2 + v2 + s3 + v3 + a + b + k1 + k2
  {
  }

  lemma FragmentsOfOptional(name: string, v: Arg)
    ensures Fragments(Optional(name, v)) == OptionalText(name, v)
  {
    if v.truthy {
      assert Optional(name, v)[..0] == [];
    }
  }

  /** The MACD URL: the required parameters, then each period that is truthy
      as `&name=value`, in the order fast, slow, signal; a falsy period leaves
      no text at all; the key last. */
  lemma MacdUrlText(symbol: string, interval: string, seriesType: string,
                    fastperiod: Arg, slowperiod: Arg, signalperiod: Arg, key: string)
    ensures RequestUrl(MacdQuery(symbol, interval, seriesType, fastperiod, slowperiod, signalperiod, key))
         == ApiUrl + "function=" + "MACD" + "&symbol=" + symbol + "&interval=" + interval + "&series_type=" + seriesType
            + OptionalText("fastperiod", fastperiod) + OptionalText("slowperiod", slowperiod)
            + OptionalText("signalperiod", signalperiod) + "&apikey=" + key
  {
    var required := [Param("interval", interval), Param("series_type", seriesType)];
    var fast := Optional("fastperiod", fastperiod);
    var slow := Optional("slowperiod", slowperiod);
    var signal := Optional("signalperiod", signalperiod);
    var head := ApiUrl + "function=" + "MACD" + "&symbol=" + symbol;
    var r := "&interval=" + interval + "&series_type=" + seriesType;
    var a, b, c := OptionalText("fastperiod", fastperiod), OptionalText("slowperiod", slowperiod),
                   OptionalText("signalperiod", signalperiod);
    assert Fragments(required + fast + slow + signal) == r + a + b + c by {
      FragmentsAppend(required + fast + slow, signal);
      FragmentsAppend(required + fast, slow);
      FragmentsAppend(required, fast);
      FragmentsOfTwo(required[0], required[1]);
      LeadLiterals();
      FragmentsOfOptional("fastperiod", fastperiod);
      FragmentsOfOptional("slowperiod", slowperiod);
      FragmentsOfOptional("signalperiod", signalperiod);
    }
    UrlShape("MACD", symbol, required + fast + slow + signal, key);
    Flatten10(head, "&interval=", interval, "&series_type=", seriesType, a, b, c, "&apikey=", key);
  }

  /** The MACDEXT URL once its moving-average parameters are resolved: the
      same text as MACD up to the periods, then the resolved moving-average
      parameters in the order fast, slow, signal, then the key. */
  lemma MacdextUrlText(symbol: string, interval: string, seriesType: string,
                       fastperiod: Arg, slowperiod: Arg, signalperiod: Arg,
                       fast: seq<Param>, slow: seq<Param>, signal: seq<Param>, key: string)
    ensures RequestUrl(MacdextRequest(symbol, interval, seriesType, fastperiod, slowperiod, signalperiod,
                                      fast, slow, signal, key))
         == ApiUrl + "function=" + "MACDEXT" + "&symbol=" + symbol + "&interval=" + interval
            + "&series_type=" + seriesType
            + OptionalText("fastperiod", fastperiod) + OptionalText("slowperiod", slowperiod)
            + OptionalText("signalperiod", signalperiod)
            + Fragments(fast) + Fragments(slow) + Fragments(signal) + "&apikey=" + key
  {
    var required := [Param("interval", interval), Param("series_type", seriesType)];
    var periods := required + Optional("fastperiod", fastperiod) + Optional("slowperiod", slowperiod)
                   + Optional("signalperiod", signalperiod);
    var head := ApiUrl + "function=" + "MACDEXT" + "&symbol=" + symbol;
    var a, b, c := OptionalText("fastperiod", fastperiod), OptionalText("slowperiod", slowperiod),
                   OptionalText("signalperiod", signalperiod);
    assert Fragments(periods) == "&interval=" + interval + "&series_type=" + seriesType + a + b + c by {
      FragmentsAppend(required + Optional("fastperiod", fastperiod) + Optional("slowperiod", slowperiod),
                      Optional("signalperiod", signalperiod));
      FragmentsAppend(required + Optional("fastperiod", fastperiod), Optional("slowperiod", slowperiod));
      FragmentsAppend(required, Optional("fastperiod", fastperiod));
      FragmentsOfTwo(required[0], required[1]);
      LeadLiterals();
      FragmentsOfOptional("fastperiod", fastperiod);
      FragmentsOfOptional("slowperiod", slowperiod);
      FragmentsOfOptional("signalperiod", signalperiod);
    }
    assert Fragments(periods + fast + slow + signal)
        == Fragments(periods) + Fragments(fast) + Fragments(slow) + Fragments(signal) by {
      FragmentsAppend(periods + fast + slow, signal);
      FragmentsAppend(periods + fast, slow);
      FragmentsAppend(periods, fast);
    }
    UrlShape("MACDEXT", symbol, periods + fast + slow + signal, key);
    Flatten13(head, "&interval=", interval, "&series_type=", seriesType, a, b, c,
              Fragments(fast), Fragments(slow), Fragments(signal), "&apikey=", key);
  }

  /** When all three moving-average arguments resolve, the MACDEXT URL is the
      MACD text followed by each one's fragment and the key. */
  lemma MacdextResolvedUrl(symbol: string, interval: string, seriesType: string,
                           fastperiod: Arg, slowperiod: Arg, signalperiod: Arg,
                           fastmatype: Option<MaArg>, slowmatype: Option<MaArg>, signalmatype: Option<MaArg>,
                           key: string)
    requires MaOptional("fastmatype", fastmatype).Success?
    requires MaOptional("slowmatype", slowmatype).Success?
    requires MaOptional("signalmatype", signalmatype).Success?
    ensures var q := MacdextQuery(symbol, interval, seriesType, fastperiod, slowperiod, signalperiod,
                                  fastmatype, slowmatype, signalmatype, key);
      && q.Success?
      && RequestUrl(q.value)
         == ApiUrl + "function=" + "MACDEXT" + "&symbol=" + symbol + "&interval=" + interval
            + "&series_type=" + seriesType
            + OptionalText("fastperiod", fastperiod) + OptionalText("slowperiod", slowperiod)
            + OptionalText("signalperiod", signalperiod)
            + Fragments(MaOptional("fastmatype", fastmatype).value)
            + Fragments(MaOptional("slowmatype", slowmatype).value)
            + Fragments(MaOptional("signalmatype", signalmatype).value) + "&apikey=" + key
  {
    MacdextUrlText(symbol, interval, seriesType, fastperiod, slowperiod, signalperiod,
                   MaOptional("fastmatype", fastmatype).value, MaOptional("slowmatype", slowmatype).value,
                   MaOptional("signalmatype", signalmatype).value, key);
  }

  lemma Flatten13<T>(h: seq<T>, s1: seq<T>, v1: seq<T>, s2: seq<T>, v2: seq<T>, a: seq<T>, b: seq<T>, c: seq<T>,
                     f1: seq<T>, f2: seq<T>, f3: seq<T>, k1: seq<T>, k2: seq<T>)
    ensures h + ((s1 + v1 + s2 + v2 + a + b + c) + f1 + f2 + f3) + k1 + k2
         == h + s1 + v1 + s2 + v2 + a + b + c + f1 + f2 + f3 + k1 + k2
  {
  }

  /** The MAMA URL: the required parameters, then fastlimit and slowlimit,
      each only when truthy, then the key. */
  lemma MamaUrlText(symbol: string, interval: string, timePeriod: string, seriesType: string,
                    fastlimit: Arg, slowlimit: Arg, key: string)
    ensures RequestUrl(MamaQuery(symbol, interval, timePeriod, seriesType, fastlimit, slowlimit, key))
         == ApiUrl + "function=" + "MAMA" + "&symbol=" + symbol + "&interval=" + interval + "&time_period=" + timePeriod
            + "&series_type=" + seriesType + OptionalText("fastlimit", fastlimit)
            + OptionalText("slowlimit", slowlimit) + "&apikey=" + key
  {
    var required := [Param("interval", interval), Param("time_period", timePeriod), Param("series_type", seriesType)];
    var fast := Optional("fastlimit", fastlimit);
    var slow := Optional("slowlimit", slowlimit);
    var head := ApiUrl + "function=" + "MAMA" + "&symbol=" + symbol;
    var r := "&interval=" + interval + "&time_period=" + timePeriod + "&series_type=" + seriesType;
    var a, b := OptionalText("fastlimit", fastlimit), OptionalText("slowlimit", slowlimit);
    MamaFragments(interval, timePeriod, seriesType, fastlimit, slowlimit);
    UrlShape("MAMA", symbol, required + fast + slow, key);
    Flatten11(head, "&interval=", interval, "&time_period=", timePeriod, "&series_type=", seriesType,
              a, b, "&apikey=", key);
  }

  lemma MamaFragments(interval: string, timePeriod: string, seriesType: string, fastlimit: Arg, slowlimit: Arg)
    ensures Fragments([Param("interval", interval), Param("time_period", timePeriod), Param("series_type", seriesType)]
                      + Optional("fastlimit", fastlimit) + Optional("slowlimit", slowlimit))
         == "&interval=" + interval + "&time_period=" + timePeriod + "&series_type=" + seriesType
            + OptionalText("fastlimit", fastlimit) + OptionalText("slowlimit", slowlimit)
  {
    var required := [Param("interval", interval), Param("time_period", timePeriod), Param("series_type", seriesType)];
    var fast := Optional("fastlimit", fastlimit);
    FragmentsAppend(required + fast, Optional("slowlimit", slowlimit));
    FragmentsAppend(required, fast);
    FragmentsOfThree(required[0], required[1], required[2]);
    LeadLiterals();
    FragmentsOfOptional("fastlimit", fastlimit);
    FragmentsOfOptional("slowlimit", slowlimit);
  }

  /** The MACD parameter names, in order: each period present exactly when
      truthy, and the key last. */
  lemma MacdNames(symbol: string, interval: string, seriesType: string,
                  fastperiod: Arg, slowperiod: Arg, signalperiod: Arg, key: string)
    ensures Names(MacdQuery(symbol, interval, seriesType, fastperiod, slowperiod, signalperiod, key))
         == ["function", "symbol", "interval", "series_type"]
            + When(fastperiod.truthy, "fastperiod") + When(slowperiod.truthy, "slowperiod")
            + When(signalperiod.truthy, "signalperiod") + ["apikey"]
  {
    var required := [Param("interval", interval), Param("series_type", seriesType)];
    var o1, o2, o3 := Optional("fastperiod", fastperiod), Optional("slowperiod", slowperiod),
                      Optional("signalperiod", signalperiod);
    RequestNames("MACD", symbol, required + o1 + o2 + o3, key);
    NamesAppend(required + o1 + o2, o3);
    NamesAppend(required + o1, o2);
    NamesAppend(required, o1);
    RequiredNames(symbol, interval, seriesType);
    Flatten6(["function", "symbol"], ["interval", "series_type"], When(fastperiod.truthy, "fastperiod"),
             When(slowperiod.truthy, "slowperiod"), When(signalperiod.truthy, "signalperiod"), ["apikey"]);
  }

  /** The MAMA parameter names, in order: each limit present exactly when
      truthy, and the key last. */
  lemma MamaNames(symbol: string, interval: string, timePeriod: string, seriesType: string,
                  fastlimit: Arg, slowlimit: Arg, key: string)
    ensures Names(MamaQuery(symbol, interval, timePeriod, seriesType, fastlimit, slowlimit, key))
         == ["function", "symbol", "interval", "time_period", "series_type"]
            + When(fastlimit.truthy, "fastlimit") + When(slowlimit.truthy, "slowlimit") + ["apikey"]
  {
    var required := [Param("interval", interval), Param("time_period", timePeriod), Param("series_type", seriesType)];
    var o1, o2 := Optional("fastlimit", fastlimit), Optional("slowlimit", slowlimit);
    RequestNames("MAMA", symbol, required + o1 + o2, key);
    NamesAppend(required + o1, o2);
    NamesAppend(required, o1);
    assert Names(required) == ["interval", "time_period", "series_type"];
    assert ["function", "symbol"] + ["interval", "time_period", "series_type"]
        == ["function", "symbol", "interval", "time_period", "series_type"];
    Flatten5(["function", "symbol"], ["interval", "time_period", "series_type"],
             When(fastlimit.truthy, "fastlimit"), When(slowlimit.truthy, "slowlimit"), ["apikey"]);
  }

  /** A moving-average argument that is truthy and does not resolve. */
  predicate Unresolved(arg: Option<MaArg>) {
    Truthy(arg) && ResolveMaType(arg.value).Failure?
  }

  /** MACDEXT fails exactly when a truthy moving-average argument does not
      resolve, and then with the first such argument in the order fast,
      slow, signal; no URL is produced. */
  lemma MacdextFailure(symbol: string, interval: string, seriesType: string,
                       fastperiod: Arg, slowperiod: Arg, signalperiod: Arg,
                       fastmatype: Option<MaArg>, slowmatype: Option<MaArg>, signalmatype: Option<MaArg>,
                       key: string)
    ensures MacdextQuery(symbol, interval, seriesType, fastperiod, slowperiod, signalperiod,
                         fastmatype, slowmatype, signalmatype, key).Failure?
        <==> Unresolved(fastmatype) || Unresolved(slowmatype) || Unresolved(signalmatype)
    ensures Unresolved(fastmatype) ==>
      MacdextQuery(symbol, interval, seriesType, fastperiod, slowperiod, signalperiod,
                   fastmatype, slowmatype, signalmatype, key) == Failure(NotInMathMap(fastmatype.value.s))
    ensures !Unresolved(fastmatype) && Unresolved(slowmatype) ==>
      MacdextQuery(symbol, interval, seriesType, fastperiod, slowperiod, signalperiod,
                   fastmatype, slowmatype, signalmatype, key) == Failure(NotInMathMap(slowmatype.value.s))
    ensures !Unresolved(fastmatype) && !Unresolved(slowmatype) && Unresolved(signalmatype) ==>
      MacdextQuery(symbol, interval, seriesType, fastperiod, slowperiod, signalperiod,
                   fastmatype, slowmatype, signalmatype, key) == Failure(NotInMathMap(signalmatype.value.s))
  {
    if Truthy(fastmatype) { ResolveFailsExactly(fastmatype.value); }
    if Truthy(slowmatype) { ResolveFailsExactly(slowmatype.value); }
    if Truthy(signalmatype) { ResolveFailsExactly(signalmatype.value); }
  }

  /** The MACDEXT parameter names, when every truthy moving-average argument
      resolves: the periods and then the three moving-average types, each
      present exactly when truthy, in declared order, and the key last. */
  lemma MacdextNames(symbol: string, interval: string, seriesType: string,
                     fastperiod: Arg, slowperiod: Arg, signalperiod: Arg,
                     fastmatype: Option<MaArg>, slowmatype: Option<MaArg>, signalmatype: Option<MaArg>,
                     key: string)
    requires MacdextQuery(symbol, interval, seriesType, fastperiod, slowperiod, signalperiod,
                          fastmatype, slowmatype, signalmatype, key).Success?
    ensures Names(MacdextQuery(symbol, interval, seriesType, fastperiod, slowperiod, signalperiod,
                               fastmatype, slowmatype, signalmatype, key).value)
         == ["function", "symbol", "interval", "series_type"]
            + When(fastperiod.truthy, "fastperiod") + When(slowperiod.truthy, "slowperiod")
            + When(signalperiod.truthy, "signalperiod")
            + When(Truthy(fastmatype), "fastmatype") + When(Truthy(slowmatype), "slowmatype")
            + When(Truthy(signalmatype), "signalmatype") + ["apikey"]
  {
    var fast := MaOptional("fastmatype", fastmatype).value;
    var slow := MaOptional("slowmatype", slowmatype).value;
    var signal := MaOptional("signalmatype", signalmatype).value;
    assert MacdextQuery(symbol, interval, seriesType, fastperiod, slowperiod, signalperiod,
                        fastmatype, slowmatype, signalmatype, key).value
        == MacdextRequest(symbol, interval, seriesType, fastperiod, slowperiod, signalperiod,
                          fast, slow, signal, key);
    MacdextRequestNames(symbol, interval, seriesType, fastperiod, slowperiod, signalperiod, fast, slow, signal, key);
    NamesOfMaOptional("fastmatype", fastmatype);
    NamesOfMaOptional("slowmatype", slowmatype);
    NamesOfMaOptional("signalmatype", signalmatype);
  }

  lemma MacdextRequestNames(symbol: string, interval: string, seriesType: string,
                            fastperiod: Arg, slowperiod: Arg, signalperiod: Arg,
                            fast: seq<Param>, slow: seq<Param>, signal: seq<Param>, key: string)
    ensures Names(MacdextRequest(symbol, interval, seriesType, fastperiod, slowperiod, signalperiod,
                                 fast, slow, signal, key))
         == ["function", "symbol", "interval", "series_type"]
            + When(fastperiod.truthy, "fastperiod") + When(slowperiod.truthy, "slowperiod")
            + When(signalperiod.truthy, "signalperiod")
            + Names(fast) + Names(slow) + Names(signal) + ["apikey"]
  {
    var required := [Param("interval", interval), Param("series_type", seriesType)];
    var o1, o2, o3 := Optional("fastperiod", fastperiod), Optional("slowperiod", slowperiod),
                      Optional("signalperiod", signalperiod);
    RequestNames("MACDEXT", symbol, required + o1 + o2 + o3 + fast + slow + signal, key);
    NamesAppend(required + o1 + o2 + o3 + fast + slow, signal);
    NamesAppend(required + o1 + o2 + o3 + fast, slow);
    NamesAppend(required + o1 + o2 + o3, fast);
    NamesAppend(required + o1 + o2, o3);
    NamesAppend(required + o1, o2);
    NamesAppend(required, o1);
    RequiredNames(symbol, interval, seriesType);
    Flatten9(["function", "symbol"], ["interval", "series_type"],
             When(fastperiod.truthy, "fastperiod"), When(slowperiod.truthy, "slowperiod"),
             When(signalperiod.truthy, "signalperiod"), Names(fast), Names(slow), Names(signal), ["apikey"]);
  }

  lemma RequiredNames(symbol: string, interval: string, seriesType: string)
    ensures Names([Param("interval", interval), Param("series_type", seriesType)]) == ["interval", "series_type"]
    ensures ["function", "symbol"] + ["interval", "series_type"] == ["function", "symbol", "interval", "series_type"]
  {
  }

  lemma Flatten5<T>(a: seq<T>, b: seq<T>, w1: seq<T>, w2: seq<T>, z: seq<T>)
    ensures a + (b + w1 + w2) + z == a + b + w1 + w2 + z
  {
  }

  lemma Flatten6<T>(a: seq<T>, b: seq<T>, w1: seq<T>, w2: seq<T>, w3: seq<T>, z: seq<T>)
    ensures a + (b + w1 + w2 + w3) + z == a + b + w1 + w2 + w3 + z
  {
  }

  lemma Flatten9<T>(a: seq<T>, b: seq<T>, w1: seq<T>, w2: seq<T>, w3: seq<T>, w4: seq<T>, w5: seq<T>, w6: seq<T>,
                    z: seq<T>)
    ensures a + (b + w1 + w2 + w3 + w4 + w5 + w6) + z == a + b + w1 + w2 + w3 + w4 + w5 + w6 + z
  {
  }

  lemma NamesOfMaOptional(name: string, arg: Option<MaArg>)
    requires MaOptional(name, arg).Success?
    ensures Names(MaOptional(name, arg).value) == When(Truthy(arg), name)
  {
  }

  /** The parameters MACDEXT declares, in the order it writes them. */
  const MacdextParams: seq<string> :=
    ["function", "symbol", "interval", "series_type", "fastperiod", "slowperiod", "signalperiod",
     "fastmatype", "slowmatype", "signalmatype", "apikey"]

  /** Which of MacdextParams a request carries: the required ones always,
      the optional ones when their argument is truthy. */
  function MacdextPresent(fastperiod: Arg, slowperiod: Arg, signalperiod: Arg,
                          fastmatype: Option<MaArg>, slowmatype: Option<MaArg>, signalmatype: Option<MaArg>)
    : (flags: seq<bool>)
    ensures |flags| == |MacdextParams|
  {
    [true, true, true, true] + [fastperiod.truthy] + [slowperiod.truthy] + [signalperiod.truthy]
    + [Truthy(fastmatype)] + [Truthy(slowmatype)] + [Truthy(signalmatype)] + [true]
  }

  lemma SelectMacdext(fastperiod: Arg, slowperiod: Arg, signalperiod: Arg,
                      fastmatype: Option<MaArg>, slowmatype: Option<MaArg>, signalmatype: Option<MaArg>)
    ensures Select(MacdextParams, MacdextPresent(fastperiod, slowperiod, signalperiod,
                                                 fastmatype, slowmatype, signalmatype))
         == ["function", "symbol", "interval", "series_type"]
            + When(fastperiod.truthy, "fastperiod") + When(slowperiod.truthy, "slowperiod")
            + When(signalperiod.truthy, "signalperiod")
            + When(Truthy(fastmatype), "fastmatype") + When(Truthy(slowmatype), "slowmatype")
            + When(Truthy(signalmatype), "signalmatype") + ["apikey"]
  {
    var a := ["function", "symbol", "interval", "series_type"];
    var t := [true, true, true, true];
    assert Select(a, t) == a by {
      assert seq(4, _ => true) == t;
      SelectAll(a);
    }
    var n3 := a + ["fastperiod"] + ["slowperiod"] + ["signalperiod"];
    var f3 := t + [fastperiod.truthy] + [slowperiod.truthy] + [signalperiod.truthy];
    SelectThree(a, t, "fastperiod", "slowperiod", "signalperiod",
                fastperiod.truthy, slowperiod.truthy, signalperiod.truthy);
    var n6 := n3 + ["fastmatype"] + ["slowmatype"] + ["signalmatype"];
    var f6 := f3 + [Truthy(fastmatype)] + [Truthy(slowmatype)] + [Truthy(signalmatype)];
    SelectThree(n3, f3, "fastmatype", "slowmatype", "signalmatype",
                Truthy(fastmatype), Truthy(slowmatype), Truthy(signalmatype));
    SelectSnoc(n6, f6, "apikey", true);
    assert n6 + ["apikey"] == MacdextParams by {
      MacdextParamsDeclared();
    }
  }

  lemma MacdextParamsDeclared()
    ensures MacdextParams
         == ["function", "symbol", "interval", "series_type"] + ["fastperiod"] + ["slowperiod"] + ["signalperiod"]
            + ["fastmatype"] + ["slowmatype"] + ["signalmatype"] + ["apikey"]
  {
  }

  /** A MACDEXT request carries each declared parameter at most once: the
      optional ones exactly when their argument is truthy, nothing that is
      not declared, and the key last. */
  lemma MacdextOnce(symbol: string, interval: string, seriesType: string,
                    fastperiod: Arg, slowperiod: Arg, signalperiod: Arg,
                    fastmatype: Option<MaArg>, slowmatype: Option<MaArg>, signalmatype: Option<MaArg>,
                    key: string)
    requires MacdextQuery(symbol, interval, seriesType, fastperiod, slowperiod, signalperiod,
                          fastmatype, slowmatype, signalmatype, key).Success?
    ensures var names := Names(MacdextQuery(symbol, interval, seriesType, fastperiod, slowperiod, signalperiod,
                                            fastmatype, slowmatype, signalmatype, key).value);
            var present := MacdextPresent(fastperiod, slowperiod, signalperiod,
                                          fastmatype, slowmatype, signalmatype);
      && Distinct(names)
      && (forall n :: n in names ==> n in MacdextParams)
      && (forall k :: 0 <= k < |MacdextParams| ==> (MacdextParams[k] in names <==> present[k]))
      && names[|names| - 1] == "apikey"
  {
    var present := MacdextPresent(fastperiod, slowperiod, signalperiod, fastmatype, slowmatype, signalmatype);
    MacdextNames(symbol, interval, seriesType, fastperiod, slowperiod, signalperiod,
                 fastmatype, slowmatype, signalmatype, key);
    SelectMacdext(fastperiod, slowperiod, signalperiod, fastmatype, slowmatype, signalmatype);
    assert Distinct(MacdextParams);
    SelectDistinct(MacdextParams, present);
    SelectMembers(MacdextParams, present);
  }

  /** The parameters MACD declares, in the order it writes them. */
  const MacdParams: seq<string> :=
    ["function", "symbol", "interval", "series_type", "fastperiod", "slowperiod", "signalperiod", "apikey"]

  function MacdPresent(fastperiod: Arg, slowperiod: Arg, signalperiod: Arg): (flags: seq<bool>)
    ensures |flags| == |MacdParams|
  {
    [true, true, true, true, fastperiod.truthy, slowperiod.truthy, signalperiod.truthy, true]
  }

  lemma MacdParamsDeclared()
    ensures MacdParams
         == ["function", "symbol", "interval", "series_type"] + ["fastperiod"] + ["slowperiod"] + ["signalperiod"]
            + ["apikey"]
  {
  }

  lemma SelectMacd(fastperiod: Arg, slowperiod: Arg, signalperiod: Arg)
    ensures Select(MacdParams, MacdPresent(fastperiod, slowperiod, signalperiod))
         == ["function", "symbol", "interval", "series_type"]
            + When(fastperiod.truthy, "fastperiod") + When(slowperiod.truthy, "slowperiod")
            + When(signalperiod.truthy, "signalperiod") + ["apikey"]
  {
    var a := ["function", "symbol", "interval", "series_type"];
    var t := [true, true, true, true];
    assert Select(a, t) == a by {
      assert seq(4, _ => true) == t;
      SelectAll(a);
    }
    var n1 := a + ["fastperiod"];
    var n2 := n1 + ["slowperiod"];
    var n3 := n2 + ["signalperiod"];
    var f1 := t + [fastperiod.truthy];
    var f2 := f1 + [slowperiod.truthy];
    var f3 := f2 + [signalperiod.truthy];
    SelectSnoc(a, t, "fastperiod", fastperiod.truthy);
    SelectSnoc(n1, f1, "slowperiod", slowperiod.truthy);
    SelectSnoc(n2, f2, "signalperiod", signalperiod.truthy);
    SelectSnoc(n3, f3, "apikey", true);
    assert n3 + ["apikey"] == MacdParams by {
      MacdParamsDeclared();
    }
    assert f3 + [true] == MacdPresent(fastperiod, slowperiod, signalperiod) by {
      MacdPresentSplit(fastperiod, slowperiod, signalperiod);
    }
  }

  lemma MacdPresentSplit(fastperiod: Arg, slowperiod: Arg, signalperiod: Arg)
    ensures MacdPresent(fastperiod, slowperiod, signalperiod)
         == [true, true, true, true] + [fastperiod.truthy] + [slowperiod.truthy] + [signalperiod.truthy] + [true]
  {
  }

  /** A MACD request carries each declared parameter at most once: the
      periods exactly when truthy, nothing undeclared, and the key last. */
  lemma MacdOnce(symbol: string, interval: string, seriesType: string,
                 fastperiod: Arg, slowperiod: Arg, signalperiod: Arg, key: string)
    ensures var names := Names(MacdQuery(symbol, interval, seriesType, fastperiod, slowperiod, signalperiod, key));
            var present := MacdPresent(fastperiod, slowperiod, signalperiod);
      && Distinct(names)
      && (forall n :: n in names ==> n in MacdParams)
      && (forall k :: 0 <= k < |MacdParams| ==> (MacdParams[k] in names <==> present[k]))
      && names[|names| - 1] == "apikey"
  {
    var present := MacdPresent(fastperiod, slowperiod, signalperiod);
    MacdNames(symbol, interval, seriesType, fastperiod, slowperiod, signalperiod, key);
    SelectMacd(fastperiod, slowperiod, signalperiod);
    assert Distinct(MacdParams);
    SelectDistinct(MacdParams, present);
    SelectMembers(MacdParams, present);
  }

  /** The parameters MAMA declares, in the order it writes them. */
  const MamaParams: seq<string> :=
    ["function", "symbol", "interval", "time_period", "series_type", "fastlimit", "slowlimit", "apikey"]

  function MamaPresent(fastlimit: Arg, slowlimit: Arg): (flags: seq<bool>)
    ensures |flags| == |MamaParams|
  {
    [true, true, true, true, true, fastlimit.truthy, slowlimit.truthy, true]
  }

  lemma MamaParamsDeclared()
    ensures MamaParams
         == ["function", "symbol", "interval", "time_period", "series_type"] + ["fastlimit"] + ["slowlimit"]
            + ["apikey"]
  {
  }

  lemma SelectMama(fastlimit: Arg, slowlimit: Arg)
    ensures Select(MamaParams, MamaPresent(fastlimit, slowlimit))
         == ["function", "symbol", "interval", "time_period", "series_type"]
            + When(fastlimit.truthy, "fastlimit") + When(slowlimit.truthy, "slowlimit") + ["apikey"]
  {
    var a := ["function", "symbol", "interval", "time_period", "series_type"];
    var t := [true, true, true, true, true];
    assert Select(a, t) == a by {
      assert seq(5, _ => true) == t;
      SelectAll(a);
    }
    var n1 := a + ["fastlimit"];
    var n2 := n1 + ["slowlimit"];
    var f1 := t + [fastlimit.truthy];
    var f2 := f1 + [slowlimit.truthy];
    SelectSnoc(a, t, "fastlimit", fastlimit.truthy);
    SelectSnoc(n1, f1, "slowlimit", slowlimit.truthy);
    SelectSnoc(n2, f2, "apikey", true);
    assert n2 + ["apikey"] == MamaParams by {
      MamaParamsDeclared();
    }
    assert f2 + [true] == MamaPresent(fastlimit, slowlimit) by {
      MamaPresentSplit(fastlimit, slowlimit);
    }
  }

  lemma MamaPresentSplit(fastlimit: Arg, slowlimit: Arg)
    ensures MamaPresent(fastlimit, slowlimit)
         == [true, true, true, true, true] + [fastlimit.truthy] + [slowlimit.truthy] + [true]
  {
  }

  /** A MAMA request carries each declared parameter at most once: the
      limits exactly when truthy, nothing undeclared, and the key last. */
  lemma MamaOnce(symbol: string, interval: string, timePeriod: string, seriesType: string,
                 fastlimit: Arg, slowlimit: Arg, key: string)
    ensures var names := Names(MamaQuery(symbol, interval, timePeriod, seriesType, fastlimit, slowlimit, key));
            var present := MamaPresent(fastlimit, slowlimit);
      && Distinct(names)
      && (forall n :: n in names ==> n in MamaParams)
      && (forall k :: 0 <= k < |MamaParams| ==> (MamaParams[k] in names <==> present[k]))
      && names[|names| - 1] == "apikey"
  {
    var present := MamaPresent(fastlimit, slowlimit);
    MamaNames(symbol, interval, timePeriod, seriesType, fastlimit, slowlimit, key);
    SelectMama(fastlimit, slowlimit);
    assert Distinct(MamaParams);
    SelectDistinct(MamaParams, present);
    SelectMembers(MamaParams, present);
  }

  // ---------------------------------------------------------------------------
  // Examples and consequences

  /** The intraday URL string is the URL of the regular request shape with
      the plain key, followed by eight spaces. */
  lemma IntradayPaddingTrails(symbol: string, interval: string, outputsize: string, key: string)
    ensures RequestUrl(IntradayQuery(symbol, interval, outputsize, key))
         == RequestUrl(Request("TIME_SERIES_INTRADAY", symbol,
                               [Param("interval", interval), Param("outputsize", outputsize)], key))
            + IntradayPadding
  {
    var middle := [Param("interval", interval), Param("outputsize", outputsize)];
    var before := ApiUrl + "function=TIME_SERIES_INTRADAY" + "&symbol=" + symbol + Fragments(middle) + "&apikey=";
    UrlShape("TIME_SERIES_INTRADAY", symbol, middle, key + IntradayPadding);
    UrlShape("TIME_SERIES_INTRADAY", symbol, middle, key);
    assert before + (key + IntradayPadding) == (before + key) + IntradayPadding;
  }

  /** The URL string `get_intraday` passes to `_data_request` ends with the key
      followed by eight spaces: reading that string back gives a key that
      differs from the client's. */
  lemma IntradayKeyReadBack(symbol: string, interval: string, outputsize: string, key: string)
    requires Safe(IntradayQuery(symbol, interval, outputsize, key))
    ensures var parsed := ParseQuery(Render(IntradayQuery(symbol, interval, outputsize, key)));
      && |parsed| == 5
      && parsed[4] == Param("apikey", key + "        ")
      && parsed[4].value != key
  {
    ParseRender(IntradayQuery(symbol, interval, outputsize, key));
    assert |key + IntradayPadding| == |key| + 8;
  }

  /** The daily request always carries the output size, whatever its value. */
  lemma DailyAlwaysSendsOutputsize(symbol: string, outputsize: string, key: string)
    ensures Names(DailyQuery(symbol, outputsize, key)) == ["function", "symbol", "outputsize", "apikey"]
    ensures DailyQuery(symbol, outputsize, key)[2] == Param("outputsize", outputsize)
  {
  }

  /** KAMA is sent as 7, the integer 0 is falsy and omitted, while the string
      "0" is truthy and sent as 0. */
  lemma MacdextResolvedExample()
    ensures MacdextQuery("IBM", "60min", "close", NoArg, NoArg, NoArg,
                         Some(MaStr("KAMA")), Some(MaInt(0)), Some(MaStr("0")), "demo")
         == Success(MacdextRequest("IBM", "60min", "close", NoArg, NoArg, NoArg,
                                   [Param("fastmatype", "7")], [], [Param("signalmatype", "0")], "demo"))
  {
    ExampleParameters();
  }

  lemma ExampleParameters()
    ensures MaOptional("fastmatype", Some(MaStr("KAMA"))) == Success([Param("fastmatype", "7")])
    ensures MaOptional("slowmatype", Some(MaInt(0))) == Success([])
    ensures MaOptional("signalmatype", Some(MaStr("0"))) == Success([Param("signalmatype", "0")])
  {
    NameExamples();
    IntegerTextPassesThrough(0);
    assert IntToString(7) == "7" && IntToString(0) == "0";
  }

  /** A name outside the table fails the call even after a valid one, and a
      later argument is then never looked at. */
  lemma MacdextErrorExample()
    ensures MacdextQuery("IBM", "60min", "close", NoArg, NoArg, NoArg,
                         Some(MaStr("EMA")), Some(MaStr("bogus")), Some(MaStr("ema")), "demo")
         == Failure(NotInMathMap("bogus"))
  {
    NameExamples();
    ErrorExamples();
  }
}
