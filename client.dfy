/** The client object: it holds the API key and, for each service, builds
    the request URL, asks the service and unpacks its answer. */
module Client {
  import opened Wrappers
  import opened Json
  import opened Errors
  import opened Decimal
  import opened Query
  import opened MovingAverage
  import opened Response
  import opened Requests

  /** The service as the client sees it: the decoded JSON object it answers
      for a URL. Fetching and decoding happen outside this model. */
  type Api = string -> JsonObject

  class AlphaVantage {
    var key: string

    /** Stores the key; the Python constructor's `None` check is `New`. */
    constructor (key: string)
      ensures this.key == key
    {
      this.key := key;
    }

    /** Creating a client without a key fails; with one, the client keeps it. */
    static method New(key: Option<string>) returns (r: Result<AlphaVantage, Error>)
      ensures key.None? <==> r.Failure?
      ensures key.None? ==> r.error == MissingApiKey
      ensures key.Some? ==> fresh(r.value) && r.value.key == key.value
    {
      if key.None? {
        return Failure(MissingApiKey);
      }
      var client := new AlphaVantage(key.value);
      return Success(client);
    }

    method GetIntraday(api: Api, symbol: string, interval: string := "15min", outputsize: string := "compact")
      returns (r: Result<(Json, Json), Error>)
      ensures r == HandleApiCall(api(RequestUrl(IntradayQuery(symbol, interval, outputsize, key))),
                                 IntradayDataKey(interval), "Meta Data")
    {
      var url := IntradayUrl(symbol, interval, outputsize, key);
      r := HandleApiCall(api(url), IntradayDataKey(interval), "Meta Data");
    }

    method GetDaily(api: Api, symbol: string, outputsize: string := "compact")
      returns (r: Result<(Json, Json), Error>)
      ensures r == HandleApiCall(api(RequestUrl(DailyQuery(symbol, outputsize, key))),
                                 "Time Series (Daily)", "Meta Data")
    {
      var url := DailyUrl(symbol, outputsize, key);
      r := HandleApiCall(api(url), "Time Series (Daily)", "Meta Data");
    }

    method GetWeekly(api: Api, symbol: string) returns (r: Result<(Json, Json), Error>)
      ensures r == HandleApiCall(api(RequestUrl(WeeklyQuery(symbol, key))), "Weekly Time Series", "Meta Data")
    {
      var url := WeeklyUrl(symbol, key);
      r := HandleApiCall(api(url), "Weekly Time Series", "Meta Data");
    }

    method GetMonthly(api: Api, symbol: string) returns (r: Result<(Json, Json), Error>)
      ensures r == HandleApiCall(api(RequestUrl(MonthlyQuery(symbol, key))), "Monthly Time Series", "Meta Data")
    {
      var url := MonthlyUrl(symbol, key);
      r := HandleApiCall(api(url), "Monthly Time Series", "Meta Data");
    }

    /** get_sma, get_ema, get_wma, get_dema, get_tema, get_trima, get_kama and
        get_t3: one format, differing only in the function key. */
    method GetIndicator(api: Api, indicator: Indicator, symbol: string, interval: string := "60min",
                        timePeriod: string := "20", seriesType: string := "close")
      returns (r: Result<(Json, Json), Error>)
      ensures r == HandleApiCall(api(RequestUrl(IndicatorQuery(indicator, symbol, interval, timePeriod,
                                                               seriesType, key))),
                                 IndicatorDataKey(FunctionKey(indicator)), "Meta Data")
    {
      var url := IndicatorUrl(indicator, symbol, interval, timePeriod, seriesType, key);
      r := HandleApiCall(api(url), IndicatorDataKey(FunctionKey(indicator)), "Meta Data");
    }

    method GetMama(api: Api, symbol: string, interval: string := "60min", timePeriod: string := "20",
                   seriesType: string := "close", fastlimit: Arg := NoArg, slowlimit: Arg := NoArg)
      returns (r: Result<(Json, Json), Error>)
      ensures r == HandleApiCall(api(RequestUrl(MamaQuery(symbol, interval, timePeriod, seriesType,
                                                          fastlimit, slowlimit, key))),
                                 IndicatorDataKey("MAMA"), "Meta Data")
    {
      var url := ApiUrl + "function=" + "MAMA" + "&symbol=" + symbol + "&interval=" + interval
                 + "&time_period=" + timePeriod + "&series_type=" + seriesType;
      ghost var required := url;
      if fastlimit.truthy {
        url := url + "&fastlimit=" + fastlimit.text;
      }
      assert url == required + OptionalText("fastlimit", fastlimit) by {
        AppendOptional(required, "fastlimit", fastlimit);
        OptionalLiterals();
      }
      ghost var withFast := url;
      if slowlimit.truthy {
        url := url + "&slowlimit=" + slowlimit.text;
      }
      assert url == withFast + OptionalText("slowlimit", slowlimit) by {
        AppendOptional(withFast, "slowlimit", slowlimit);
        OptionalLiterals();
      }
      url := url + "&apikey=" + key;
      MamaUrlText(symbol, interval, timePeriod, seriesType, fastlimit, slowlimit, key);
      r := HandleApiCall(api(url), IndicatorDataKey("MAMA"), "Meta Data");
    }

    method GetMacd(api: Api, symbol: string, interval: string := "60min", seriesType: string := "close",
                   fastperiod: Arg := NoArg, slowperiod: Arg := NoArg, signalperiod: Arg := NoArg)
      returns (r: Result<(Json, Json), Error>)
      ensures r == HandleApiCall(api(RequestUrl(MacdQuery(symbol, interval, seriesType,
                                                          fastperiod, slowperiod, signalperiod, key))),
                                 IndicatorDataKey("MACD"), "Meta Data")
    {
      var url := ApiUrl + "function=" + "MACD" + "&symbol=" + symbol + "&interval=" + interval
                 + "&series_type=" + seriesType;
      url := AddPeriods(url, fastperiod, slowperiod, signalperiod);
      url := url + "&apikey=" + key;
      MacdUrlText(symbol, interval, seriesType, fastperiod, slowperiod, signalperiod, key);
      r := HandleApiCall(api(url), IndicatorDataKey("MACD"), "Meta Data");
    }

    /** MACDEXT: like MACD, then each truthy moving-average type, resolved to
        its code; the first that does not resolve is the call's error and no
        request is made. */
    method GetMacdext(api: Api, symbol: string, interval: string := "60min", seriesType: string := "close",
                      fastperiod: Arg := NoArg, slowperiod: Arg := NoArg, signalperiod: Arg := NoArg,
                      fastmatype: Option<MaArg> := None, slowmatype: Option<MaArg> := None,
                      signalmatype: Option<MaArg> := None)
      returns (r: Result<(Json, Json), Error>)
      ensures var q := MacdextQuery(symbol, interval, seriesType, fastperiod, slowperiod, signalperiod,
                                    fastmatype, slowmatype, signalmatype, key);
        && (q.Failure? ==> r == Failure(q.error))
        && (q.Success? ==> r == HandleApiCall(api(RequestUrl(q.value)), IndicatorDataKey("MACDEXT"), "Meta Data"))
    {
      var url :- MacdextUrl(symbol, interval, seriesType, fastperiod, slowperiod, signalperiod,
                            fastmatype, slowmatype, signalmatype, key);
      r := HandleApiCall(api(url), IndicatorDataKey("MACDEXT"), "Meta Data");
    }
  }

  /** The MACDEXT URL, built as `get_macdext` builds it: the MACD text, then each
      truthy moving-average type resolved to its code, then the key. The first
      type that does not resolve is the error. */
  method MacdextUrl(symbol: string, interval: string, seriesType: string,
                    fastperiod: Arg, slowperiod: Arg, signalperiod: Arg,
                    fastmatype: Option<MaArg>, slowmatype: Option<MaArg>, signalmatype: Option<MaArg>,
                    key: string)
    returns (r: Result<string, Error>)
    ensures var q := MacdextQuery(symbol, interval, seriesType, fastperiod, slowperiod, signalperiod,
                                  fastmatype, slowmatype, signalmatype, key);
      && (q.Failure? ==> r == Failure(q.error))
      && (q.Success? ==> r == Success(RequestUrl(q.value)))
  {
    var url := ApiUrl + "function=" + "MACDEXT" + "&symbol=" + symbol + "&interval=" + interval
               + "&series_type=" + seriesType;
    url := AddPeriods(url, fastperiod, slowperiod, signalperiod);
    var withFast :- AddMaType(url, "fastmatype", fastmatype);
    var withSlow :- AddMaType(withFast, "slowmatype", slowmatype);
    var withSignal :- AddMaType(withSlow, "signalmatype", signalmatype);
    MacdextResolvedUrl(symbol, interval, seriesType, fastperiod, slowperiod, signalperiod,
                       fastmatype, slowmatype, signalmatype, key);
    return Success(withSignal + "&apikey=" + key);
  }

  /** One moving-average argument of MACDEXT: nothing when it is falsy,
      otherwise `&name=code` with its resolved code, or the resolution's error. */
  method AddMaType(url: string, name: string, arg: Option<MaArg>) returns (r: Result<string, Error>)
    ensures MaOptional(name, arg).Failure? ==> r == Failure(MaOptional(name, arg).error)
    ensures MaOptional(name, arg).Success? ==> r == Success(url + Fragments(MaOptional(name, arg).value))
  {
    if !Truthy(arg) {
      assert Fragments([]) == "" && url + "" == url;
      return Success(url);
    }
    var value :- ResolveMaType(arg.value);
    AppendFragment(url, Param(name, IntToString(value)));
    return Success(url + "&" + name + "=" + IntToString(value));
  }

  /** The three optional periods MACD and MACDEXT share, each appended only
      when truthy. */
  method AddPeriods(url: string, fastperiod: Arg, slowperiod: Arg, signalperiod: Arg) returns (result: string)
    ensures result == url + OptionalText("fastperiod", fastperiod) + OptionalText("slowperiod", slowperiod)
                     + OptionalText("signalperiod", signalperiod)
  {
    result := url;
    if fastperiod.truthy {
      result := result + "&fastperiod=" + fastperiod.text;
    }
    assert result == url + OptionalText("fastperiod", fastperiod) by {
      AppendOptional(url, "fastperiod", fastperiod);
      OptionalLiterals();
    }
    ghost var withFast := result;
    if slowperiod.truthy {
      result := result + "&slowperiod=" + slowperiod.text;
    }
    assert result == withFast + OptionalText("slowperiod", slowperiod) by {
      AppendOptional(withFast, "slowperiod", slowperiod);
      OptionalLiterals();
    }
    ghost var withSlow := result;
    if signalperiod.truthy {
      result := result + "&signalperiod=" + signalperiod.text;
    }
    assert result == withSlow + OptionalText("signalperiod", signalperiod) by {
      AppendOptional(withSlow, "signalperiod", signalperiod);
      OptionalLiterals();
    }
  }
}
