/** The query string of a request: `name=value` fields joined by `&`, in the
    order the client writes them, and the inverse reading that splits at every
    `&` and then at the first `=` of each field. */
module Query {
  import opened Sequences

  /** Base of every request; ends with `?`, so the query string follows it directly. */
  const ApiUrl: string := "http://www.alphavantage.co/query?"

  datatype Param = Param(name: string, value: string)

  function Field(p: Param): string {
    p.name + "=" + p.value
  }

  /** The query string of a non-empty parameter list: the first field, then
      `&` and the next field, for each further parameter. */
  function Render(ps: seq<Param>): (s: string)
    requires ps != []
    decreases |ps|
  {
    if |ps| == 1 then Field(ps[0])
    else Render(ps[..|ps| - 1]) + "&" + Field(ps[|ps| - 1])
  }

  /** The request URL for a parameter list. */
  function RequestUrl(ps: seq<Param>): string
    requires ps != []
  {
    ApiUrl + Render(ps)
  }

  function Names(ps: seq<Param>): (names: seq<string>)
    ensures |names| == |ps|
    ensures forall i :: 0 <= i < |ps| ==> names[i] == ps[i].name
  {
    seq(|ps|, i requires 0 <= i < |ps| => ps[i].name)
  }

  /** The text that a list of parameters adds after a query string that is
      already started: `&name=value` for each, in order. */
  function Fragments(ps: seq<Param>): string
    decreases |ps|
  {
    if ps == [] then "" else Fragments(ps[..|ps| - 1]) + "&" + Field(ps[|ps| - 1])
  }

  lemma {:induction false} RenderAppend(a: seq<Param>, b: seq<Param>)
    requires a != []
    ensures Render(a + b) == Render(a) + Fragments(b)
    decreases |b|
  {
    if b != [] {
      var init := b[..|b| - 1];
      assert (a + b)[..|a + b| - 1] == a + init;
      RenderAppend(a, init);
    } else {
      assert a + b == a;
    }
  }

  lemma {:induction false} FragmentsAppend(a: seq<Param>, b: seq<Param>)
    ensures Fragments(a + b) == Fragments(a) + Fragments(b)
    decreases |b|
  {
    if b != [] {
      var init := b[..|b| - 1];
      assert (a + b)[..|a + b| - 1] == a + init;
      FragmentsAppend(a, init);
    } else {
      assert a + b == a;
    }
  }

  /** The separator a format string writes before a parameter's value. */
  function Lead(name: string): string {
    "&" + name + "="
  }

  lemma FragmentsOfOne(p: Param)
    ensures Fragments([p]) == "&" + p.name + "=" + p.value
  {
    assert [p][..0] == [];
  }

  /** Appending one parameter's fragment is appending `&name=value`. */
  lemma AppendFragment(url: string, p: Param)
    ensures url + Fragments([p]) == url + "&" + p.name + "=" + p.value
  {
    FragmentsOfOne(p);
  }

  lemma FragmentsOfTwo(p: Param, q: Param)
    ensures Fragments([p, q]) == Lead(p.name) + p.value + Lead(q.name) + q.value
  {
    assert [p][..0] == [];
    assert Fragments([p]) == "&" + Field(p);
    assert [p, q][..1] == [p];
    assert Fragments([p, q]) == "&" + Field(p) + "&" + Field(q);
  }

  lemma FragmentsOfThree(p: Param, q: Param, t: Param)
    ensures Fragments([p, q, t]) == Lead(p.name) + p.value + Lead(q.name) + q.value + Lead(t.name) + t.value
  {
    assert [p, q, t][..2] == [p, q];
    FragmentsOfTwo(p, q);
    assert Fragments([p, q, t]) == Fragments([p, q]) + "&" + Field(t);
  }

  lemma NamesAppend(a: seq<Param>, b: seq<Param>)
    ensures Names(a + b) == Names(a) + Names(b)
  {
  }

  /** Every request the client sends: the function, the symbol, the
      function's own parameters, and the API key last. */
  function Request(functionKey: string, symbol: string, middle: seq<Param>, key: string): (ps: seq<Param>)
    ensures |ps| == |middle| + 3
  {
    [Param("function", functionKey), Param("symbol", symbol)] + middle + [Param("apikey", key)]
  }

  /** The names of a request: function and symbol, the function's own
      parameters, and the key last. */
  lemma RequestNames(functionKey: string, symbol: string, middle: seq<Param>, key: string)
    ensures Names(Request(functionKey, symbol, middle, key)) == ["function", "symbol"] + Names(middle) + ["apikey"]
  {
    var head := [Param("function", functionKey), Param("symbol", symbol)];
    NamesAppend(head + middle, [Param("apikey", key)]);
    NamesAppend(head, middle);
  }

  /** The URL of a request starts with the base, `function=` and `&symbol=`,
      and ends with `&apikey=` and the key; between them stand the function's
      own parameters and nothing else. */
  lemma UrlShape(functionKey: string, symbol: string, middle: seq<Param>, key: string)
    ensures RequestUrl(Request(functionKey, symbol, middle, key))
         == ApiUrl + "function=" + functionKey + "&symbol=" + symbol + Fragments(middle) + "&apikey=" + key
  {
    var head := [Param("function", functionKey), Param("symbol", symbol)];
    var tail := [Param("apikey", key)];
    assert Request(functionKey, symbol, middle, key) == head + (middle + tail);
    RenderAppend(head, middle + tail);
    FragmentsAppend(middle, tail);
    RenderOfHead(functionKey, symbol);
    FragmentOfKey(key);
    Flatten8(ApiUrl, "function=", functionKey, "&symbol=", symbol, Fragments(middle), "&apikey=", key);
  }

  lemma RenderOfHead(functionKey: string, symbol: string)
    ensures Render([Param("function", functionKey), Param("symbol", symbol)])
         == "function=" + functionKey + "&symbol=" + symbol
  {
    assert [Param("function", functionKey), Param("symbol", symbol)][..1] == [Param("function", functionKey)];
  }

  lemma FragmentOfKey(key: string)
    ensures Fragments([Param("apikey", key)]) == "&apikey=" + key
  {
    FragmentsOfOne(Param("apikey", key));
  }

  lemma Flatten8<T>(u: seq<T>, a: seq<T>, b: seq<T>, c: seq<T>, d: seq<T>, f: seq<T>, l: seq<T>, k: seq<T>)
    ensures u + ((a + b + c + d) + (f + (l + k))) == u + a + b + c + d + f + l + k
  {
  }

  lemma UrlOfNone(functionKey: string, symbol: string, key: string)
    ensures RequestUrl(Request(functionKey, symbol, [], key))
         == ApiUrl + "function=" + functionKey + "&symbol=" + symbol + "&apikey=" + key
  {
    UrlShape(functionKey, symbol, [], key);
    var head := ApiUrl + "function=" + functionKey + "&symbol=" + symbol;
    assert Fragments([]) == "" && head + "" == head;
  }

  lemma UrlOfOne(functionKey: string, symbol: string, p: Param, key: string)
    ensures RequestUrl(Request(functionKey, symbol, [p], key))
         == ApiUrl + "function=" + functionKey + "&symbol=" + symbol + Lead(p.name) + p.value
            + "&apikey=" + key
  {
    UrlShape(functionKey, symbol, [p], key);
    assert [p][..0] == [];
  }

  lemma UrlOfTwo(functionKey: string, symbol: string, p: Param, q: Param, key: string)
    ensures RequestUrl(Request(functionKey, symbol, [p, q], key))
         == ApiUrl + "function=" + functionKey + "&symbol=" + symbol + Lead(p.name) + p.value
            + Lead(q.name) + q.value + "&apikey=" + key
  {
    var head := ApiUrl + "function=" + functionKey + "&symbol=" + symbol;
    UrlShape(functionKey, symbol, [p, q], key);
    FragmentsOfTwo(p, q);
    var a := Lead(p.name) + p.value;
    var b := Lead(q.name) + q.value;
    assert head + (a + b) + "&apikey=" + key == head + a + b + "&apikey=" + key;
  }

  lemma UrlOfThree(functionKey: string, symbol: string, p: Param, q: Param, t: Param, key: string)
    ensures RequestUrl(Request(functionKey, symbol, [p, q, t], key))
         == ApiUrl + "function=" + functionKey + "&symbol=" + symbol + Lead(p.name) + p.value
            + Lead(q.name) + q.value + Lead(t.name) + t.value + "&apikey=" + key
  {
    var head := ApiUrl + "function=" + functionKey + "&symbol=" + symbol;
    UrlShape(functionKey, symbol, [p, q, t], key);
    FragmentsOfThree(p, q, t);
    var a := Lead(p.name) + p.value;
    var b := Lead(q.name) + q.value;
    var c := Lead(t.name) + t.value;
    assert head + (a + b + c) + "&apikey=" + key == head + a + b + c + "&apikey=" + key;
  }

  // ---------------------------------------------------------------------------
  // Declared parameters and the ones a request carries

  function When(present: bool, name: string): seq<string> {
    if present then [name] else []
  }

  /** The declared names whose flag is set, in declaration order. */
  function Select(names: seq<string>, present: seq<bool>): seq<string>
    requires |names| == |present|
    decreases |names|
  {
    if names == [] then []
    else Select(names[..|names| - 1], present[..|names| - 1]) + When(present[|names| - 1], names[|names| - 1])
  }

  predicate Distinct(names: seq<string>) {
    forall i, j :: 0 <= i < j < |names| ==> names[i] != names[j]
  }

  lemma SelectSnoc(names: seq<string>, present: seq<bool>, name: string, flag: bool)
    requires |names| == |present|
    ensures Select(names + [name], present + [flag]) == Select(names, present) + When(flag, name)
  {
    assert (names + [name])[..|names|] == names;
    assert (present + [flag])[..|names|] == present;
  }

  lemma SelectThree(names: seq<string>, present: seq<bool>, x1: string, x2: string, x3: string,
                    b1: bool, b2: bool, b3: bool)
    requires |names| == |present|
    ensures Select(names + [x1] + [x2] + [x3], present + [b1] + [b2] + [b3])
         == Select(names, present) + When(b1, x1) + When(b2, x2) + When(b3, x3)
  {
    SelectSnoc(names, present, x1, b1);
    SelectSnoc(names + [x1], present + [b1], x2, b2);
    SelectSnoc(names + [x1] + [x2], present + [b1] + [b2], x3, b3);
  }

  lemma {:induction false} SelectAll(names: seq<string>)
    ensures Select(names, seq(|names|, _ => true)) == names
    decreases |names|
  {
    if names != [] {
      var m := |names| - 1;
      assert seq(|names|, _ => true)[..m] == seq(m, _ => true);
      SelectAll(names[..m]);
      assert names[..m] + [names[m]] == names;
    }
  }

  /** Every selected name is declared, and a declared name is selected
      exactly when its flag is set. */
  lemma {:induction false} SelectMembers(names: seq<string>, present: seq<bool>)
    requires |names| == |present| && Distinct(names)
    ensures forall n :: n in Select(names, present) ==> n in names
    ensures forall k :: 0 <= k < |names| ==> (names[k] in Select(names, present) <==> present[k])
    decreases |names|
  {
    if names != [] {
      var m := |names| - 1;
      SelectMembers(names[..m], present[..m]);
      forall k | 0 <= k < |names|
        ensures names[k] in Select(names, present) <==> present[k]
      {
        if k < m {
          assert names[..m][k] == names[k];
          assert names[k] != names[m];
        } else {
          assert names[m] !in names[..m];
        }
      }
    }
  }

  /** Selecting from distinct names gives distinct names: nothing is
      carried twice. */
  lemma {:induction false} SelectDistinct(names: seq<string>, present: seq<bool>)
    requires |names| == |present| && Distinct(names)
    ensures Distinct(Select(names, present))
    decreases |names|
  {
    if names != [] {
      var m := |names| - 1;
      SelectDistinct(names[..m], present[..m]);
      SelectMembers(names[..m], present[..m]);
      assert names[m] !in names[..m];
      assert names[m] !in Select(names[..m], present[..m]);
    }
  }

  // ---------------------------------------------------------------------------
  // Reading a query string back

  /** The fields of a query string: the pieces between the `&` separators. */
  function Split(s: string): (parts: seq<string>)
    ensures |parts| > 0
    decreases |s|
  {
    if '&' !in s then [s]
    else
      var i := LastIndexOf(s, '&');
      Split(s[..i]) + [s[i + 1..]]
  }

  /** A field read back: the name runs up to the first `=`, the value is the rest. */
  function ParseField(f: string): Param {
    if '=' in f then
      var i := IndexOf(f, '=');
      Param(f[..i], f[i + 1..])
    else
      Param(f, "")
  }

  function ParseQuery(s: string): (ps: seq<Param>)
    ensures |ps| == |Split(s)|
  {
    var parts := Split(s);
    seq(|parts|, i requires 0 <= i < |parts| => ParseField(parts[i]))
  }

  /** A parameter survives the round trip when its name holds neither `&` nor
      `=` and its value holds no `&`. The client does no URL encoding, so this
      is a condition on what callers pass in. */
  predicate SafeParam(p: Param) {
    '&' !in p.name && '=' !in p.name && '&' !in p.value
  }

  predicate Safe(ps: seq<Param>) {
    forall i :: 0 <= i < |ps| ==> SafeParam(ps[i])
  }

  lemma ParseFieldOfField(p: Param)
    requires SafeParam(p)
    ensures ParseField(Field(p)) == p
  {
    var f := Field(p);
    assert f[|p.name|] == '=';
    IndexOfUnique(f, '=', |p.name|);
    assert f[..|p.name|] == p.name;
    assert f[|p.name| + 1..] == p.value;
  }

  lemma NoSeparatorInField(p: Param)
    requires SafeParam(p)
    ensures '&' !in Field(p)
  {
    var f := Field(p);
    forall j | 0 <= j < |f| ensures f[j] != '&' {
      if j < |p.name| {
        assert f[j] == p.name[j];
      } else if j > |p.name| {
        assert f[j] == p.value[j - |p.name| - 1];
      }
    }
  }

  /** Splitting after one more `&`-separated field adds exactly that field. */
  lemma SplitSnoc(r: string, f: string)
    requires '&' !in f
    ensures Split(r + "&" + f) == Split(r) + [f]
  {
    var s := r + "&" + f;
    assert s[|r|] == '&';
    forall j | |r| < j < |s| ensures s[j] != '&' {
      assert s[j] == f[j - |r| - 1];
    }
    LastIndexOfUnique(s, '&', |r|);
    assert s[..|r|] == r;
    assert s[|r| + 1..] == f;
  }

  lemma {:induction false} SplitRender(ps: seq<Param>)
    requires ps != [] && Safe(ps)
    ensures |Split(Render(ps))| == |ps|
    ensures forall i :: 0 <= i < |ps| ==> Split(Render(ps))[i] == Field(ps[i])
    decreases |ps|
  {
    var last := ps[|ps| - 1];
    NoSeparatorInField(last);
    if |ps| > 1 {
      var init := ps[..|ps| - 1];
      assert Safe(init) by {
        forall i | 0 <= i < |init| ensures SafeParam(init[i]) {
          assert init[i] == ps[i];
        }
      }
      assert Render(ps) == Render(init) + "&" + Field(last);
      SplitSnoc(Render(init), Field(last));
      SplitRender(init);
      var parts := Split(Render(ps));
      assert parts == Split(Render(init)) + [Field(last)];
      forall i | 0 <= i < |ps| ensures parts[i] == Field(ps[i]) {
        if i < |init| {
          assert parts[i] == Split(Render(init))[i];
          assert init[i] == ps[i];
        }
      }
    } else {
      assert Split(Render(ps)) == [Field(ps[0])];
    }
  }

  /** Reading back a rendered query string gives the parameter list it was
      rendered from: every parameter, once, in order, with its value. */
  lemma ParseRender(ps: seq<Param>)
    requires ps != [] && Safe(ps)
    ensures ParseQuery(Render(ps)) == ps
  {
    SplitRender(ps);
    var parts := Split(Render(ps));
    forall i | 0 <= i < |ps| ensures ParseField(parts[i]) == ps[i] {
      ParseFieldOfField(ps[i]);
    }
  }
}
