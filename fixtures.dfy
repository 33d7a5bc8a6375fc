/** The fixtures of biloba/test/test_config.py, restated over the model: lemmas for
    the pure functions, and methods that drive a `Config` or `Dict` through the
    same steps as the tests and state the observed results in their postconditions. */
module Fixtures {
  import opened Values
  import opened Paths
  import opened Resolver
  import opened Expansion
  import opened Container
  import opened Address

  // ---- parse_address ----

  lemma ShowPort()
    ensures ShowNat(1234) == "1234"
  {
    assert ShowNat(1) == "1";
    assert ShowNat(12) == "12";
    assert ShowNat(123) == "123";
  }

  lemma ParseHostAndPort()
    ensures ParseAddress("foo:1234") == Ok(HostPort("foo", Some(1234)))
  {
    ShowPort();
    assert "foo" + ":" + ShowNat(1234) == "foo:1234";
    ParseShownAddress("foo", 1234);
  }

  lemma ParseNoPort()
    ensures ParseAddress("foo") == Ok(HostPort("foo", None))
  {
    ParseBareHost("foo");
  }

  lemma ParsePortNotInt()
    ensures ParseAddress("foo:bar") == Err(InvalidPort)
  {
    assert !IsDigit("bar"[0]);
    assert "foo" + ":" + "bar" == "foo:bar";
    ParseBadPort("foo", "bar");
  }

  /** Leading zeros in the port are read as a number, as Python's `int` reads them. */
  lemma ParseLeadingZero()
    ensures ParseAddress("foo:08") == Ok(HostPort("foo", Some(8)))
  {
    assert IsDigits("08") && DigitsValue("08") == 8;
    assert "foo" + ":" + "08" == "foo:08";
    ParseDigitPort("foo", "08");
  }

  // ---- get_key ----

  /** `{'foo': {'bar': [1, 2, 3]}, 1: 'bar'}` */
  function GetKeyTree(): map<Key, Value> {
    map[KStr("foo") := Map(map[KStr("bar") := List([Int(1), Int(2), Int(3)])]),
        KInt(1) := Str("bar")]
  }

  lemma GetKeyMissingFixture()
    ensures GetKey(GetKeyTree(), KStr("bar"), None) == Err(KeyNotFound)
    ensures GetKey(GetKeyTree(), KStr("bar"), Some(Opaque(0))) == Ok(Opaque(0))
  {
    GetKeyTopLevel(GetKeyTree(), KStr("bar"), None);
    GetKeyTopLevel(GetKeyTree(), KStr("bar"), Some(Opaque(0)));
  }

  lemma GetKeyNotDottedFixture()
    ensures GetKey(GetKeyTree(), KStr("foo"), None) == Ok(GetKeyTree()[KStr("foo")])
  {
    GetKeyTopLevel(GetKeyTree(), KStr("foo"), None);
  }

  lemma GetKeyDottedFixture()
    ensures GetKey(GetKeyTree(), KStr("foo.bar"), None) == Ok(List([Int(1), Int(2), Int(3)]))
  {
    var t := GetKeyTree();
    var inner := map[KStr("bar") := List([Int(1), Int(2), Int(3)])];
    SegmentsFooBar();
    assert t[KStr("foo")] == Map(inner);
    assert inner[KStr("bar")] == List([Int(1), Int(2), Int(3)]);
    GetKeyNested(t, KStr("foo.bar"), KStr("foo"), KStr("bar"), None);
  }

  lemma GetKeyIntFixture()
    ensures GetKey(GetKeyTree(), KInt(1), None) == Ok(Str("bar"))
  {
    GetKeyTopLevel(GetKeyTree(), KInt(1), None);
  }

  // ---- Config reads with expansion ----

  /** `{'address': '127.0.0.1', 'port': 4000}` */
  function HttpSection(): map<Key, Value> {
    map[KStr("address") := Str("127.0.0.1"), KStr("port") := Int(4000)]
  }

  /** `{'address': '${http.address}'}` */
  function LoggerSection(): map<Key, Value> {
    map[KStr("address") := Str("${http.address}")]
  }

  /** `{'http': {...}, 'logger': {...}}` */
  function SanityTree(): map<Key, Value> {
    map[KStr("http") := Map(HttpSection()), KStr("logger") := Map(LoggerSection())]
  }

  lemma SegmentsLoggerAddress()
    ensures Segments(KStr("logger.address")) == [KStr("logger"), KStr("address")]
  {
    SegmentsOfTwo("logger", "address");
    assert "logger" + "." + "address" == "logger.address";
  }

  lemma SegmentsHttpAddress()
    ensures Segments(KStr("http.address")) == [KStr("http"), KStr("address")]
  {
    SegmentsOfTwo("http", "address");
    assert "http" + "." + "address" == "http.address";
  }

  lemma SanityRawLogger()
    ensures GetKey(SanityTree(), KStr("logger.address"), Some(Null)) == Ok(Str("${http.address}"))
  {
    var t := SanityTree();
    SegmentsLoggerAddress();
    assert t[KStr("logger")] == Map(LoggerSection());
    assert LoggerSection()[KStr("address")] == Str("${http.address}");
    GetKeyNested(t, KStr("logger.address"), KStr("logger"), KStr("address"), Some(Null));
  }

  lemma SanityRawHttp()
    ensures GetKey(SanityTree(), KStr("http.address"), None) == Ok(Str("127.0.0.1"))
  {
    var t := SanityTree();
    SegmentsHttpAddress();
    assert t[KStr("http")] == Map(HttpSection());
    assert HttpSection()[KStr("address")] == Str("127.0.0.1");
    GetKeyNested(t, KStr("http.address"), KStr("http"), KStr("address"), None);
  }

  lemma PlaceholderHttpAddress()
    ensures Placeholder("http.address") == "${http.address}"
  {
  }

  /** The placeholder in `logger.address` stands for a read of `http.address`. */
  lemma SanityPlaceholderStep(t: map<Key, Value>)
    ensures Expand(t, Str("${http.address}"), MaxExpansionDepth) == Read(t, KStr("http.address"), None, MaxExpansionDepth - 1)
  {
    PlaceholderHttpAddress();
    ExpandPlaceholder(t, "http.address", MaxExpansionDepth);
  }

  lemma SanityTarget()
    ensures Read(SanityTree(), KStr("http.address"), None, MaxExpansionDepth - 1) == Ok(Str("127.0.0.1"))
  {
    SanityRawHttp();
    ExpandLiteral(SanityTree(), "127.0.0.1", MaxExpansionDepth - 1);
  }

  lemma SanityFixture()
    ensures Read(SanityTree(), KStr("logger.address"), Some(Null), MaxExpansionDepth) == Ok(Str("127.0.0.1"))
  {
    SanityRawLogger();
    SanityPlaceholderStep(SanityTree());
    SanityTarget();
  }

  /** `{'a': 'A', 'b': 'B'}` */
  function FooSection(): map<Key, Value> {
    map[KStr("a") := Str("A"), KStr("b") := Str("B")]
  }

  /** `{'foo': {'a': 'A', 'b': 'B'}}` plus `bar` */
  function FooTree(bar: Value): map<Key, Value> {
    map[KStr("foo") := Map(FooSection()), KStr("bar") := bar]
  }

  lemma FooRawA(bar: Value)
    ensures GetKey(FooTree(bar), KStr("foo.a"), None) == Ok(Str("A"))
  {
    var t := FooTree(bar);
    SegmentsOfTwo("foo", "a");
    assert "foo" + "." + "a" == "foo.a";
    assert t[KStr("foo")] == Map(FooSection());
    assert FooSection()[KStr("a")] == Str("A");
    GetKeyNested(t, KStr("foo.a"), KStr("foo"), KStr("a"), None);
  }

  lemma FooRawB(bar: Value)
    ensures GetKey(FooTree(bar), KStr("foo.b"), None) == Ok(Str("B"))
  {
    var t := FooTree(bar);
    SegmentsOfTwo("foo", "b");
    assert "foo" + "." + "b" == "foo.b";
    assert t[KStr("foo")] == Map(FooSection());
    assert FooSection()[KStr("b")] == Str("B");
    GetKeyNested(t, KStr("foo.b"), KStr("foo"), KStr("b"), None);
  }

  lemma PlaceholderFooA()
    ensures Placeholder("foo.a") == "${foo.a}"
  {
  }

  lemma FooStepA(t: map<Key, Value>)
    ensures Expand(t, Str("${foo.a}"), MaxExpansionDepth) == Read(t, KStr("foo.a"), None, MaxExpansionDepth - 1)
  {
    PlaceholderFooA();
    ExpandPlaceholder(t, "foo.a", MaxExpansionDepth);
  }

  lemma PlaceholderFooB()
    ensures Placeholder("foo.b") == "${foo.b}"
  {
  }

  lemma FooStepB(t: map<Key, Value>)
    ensures Expand(t, Str("${foo.b}"), MaxExpansionDepth) == Read(t, KStr("foo.b"), None, MaxExpansionDepth - 1)
  {
    PlaceholderFooB();
    ExpandPlaceholder(t, "foo.b", MaxExpansionDepth);
  }

  lemma FooPlaceholderA(bar: Value)
    ensures Expand(FooTree(bar), Str("${foo.a}"), MaxExpansionDepth) == Ok(Str("A"))
  {
    FooRawA(bar);
    FooStepA(FooTree(bar));
    ExpandLiteral(FooTree(bar), "A", MaxExpansionDepth - 1);
  }

  lemma FooPlaceholderB(bar: Value)
    ensures Expand(FooTree(bar), Str("${foo.b}"), MaxExpansionDepth) == Ok(Str("B"))
  {
    FooRawB(bar);
    FooStepB(FooTree(bar));
    ExpandLiteral(FooTree(bar), "B", MaxExpansionDepth - 1);
  }

  /** With the placeholders `a` and `b` reading as 'A' and 'B', the list
      `[a, 1, b]` expands element by element. */
  lemma ExpandListOver(t: map<Key, Value>, a: Value, b: Value)
    requires Expand(t, a, MaxExpansionDepth) == Ok(Str("A"))
    requires Expand(t, b, MaxExpansionDepth) == Ok(Str("B"))
    ensures Expand(t, List([a, Int(1), b]), MaxExpansionDepth) == Ok(List([Str("A"), Int(1), Str("B")]))
  {
    var xs := [a, Int(1), b];
    var ys := [Str("A"), Int(1), Str("B")];
    ExpandResolved(t, Int(1), MaxExpansionDepth);
    assert forall i :: 0 <= i < |xs| ==> Expand(t, xs[i], MaxExpansionDepth) == Ok(ys[i]) by {
      assert xs[0] == a && xs[1] == Int(1) && xs[2] == b;
    }
    ExpandList(t, xs, ys, MaxExpansionDepth);
  }

  lemma ExpandListFixture()
    ensures var bar := List([Str("${foo.a}"), Int(1), Str("${foo.b}")]);
      Read(FooTree(bar), KStr("bar"), None, MaxExpansionDepth) == Ok(List([Str("A"), Int(1), Str("B")]))
  {
    var bar := List([Str("${foo.a}"), Int(1), Str("${foo.b}")]);
    var t := FooTree(bar);
    GetKeyTopLevel(t, KStr("bar"), None);
    assert t[KStr("bar")] == bar;
    assert Read(t, KStr("bar"), None, MaxExpansionDepth) == Expand(t, bar, MaxExpansionDepth);
    FooPlaceholderA(bar);
    FooPlaceholderB(bar);
    ExpandListOver(t, Str("${foo.a}"), Str("${foo.b}"));
  }

  /** With `foo.a` and `foo.b` reading as 'A' and 'B', the mapping expands value by value. */
  lemma ExpandDictOver(t: map<Key, Value>)
    requires Expand(t, Str("${foo.a}"), MaxExpansionDepth) == Ok(Str("A"))
    requires Expand(t, Str("${foo.b}"), MaxExpansionDepth) == Ok(Str("B"))
    ensures Expand(t, Map(map[KStr("c") := Str("${foo.a}"), KStr("d") := Str("${foo.b}")]), MaxExpansionDepth) ==
      Ok(Map(map[KStr("c") := Str("A"), KStr("d") := Str("B")]))
  {
    var m := map[KStr("c") := Str("${foo.a}"), KStr("d") := Str("${foo.b}")];
    ExpandMap(t, m, map[KStr("c") := Str("A"), KStr("d") := Str("B")], MaxExpansionDepth);
  }

  lemma ExpandDictFixture()
    ensures var bar := Map(map[KStr("c") := Str("${foo.a}"), KStr("d") := Str("${foo.b}")]);
      Read(FooTree(bar), KStr("bar"), None, MaxExpansionDepth) ==
        Ok(Map(map[KStr("c") := Str("A"), KStr("d") := Str("B")]))
  {
    var bar := Map(map[KStr("c") := Str("${foo.a}"), KStr("d") := Str("${foo.b}")]);
    var t := FooTree(bar);
    GetKeyTopLevel(t, KStr("bar"), None);
    assert t[KStr("bar")] == bar;
    assert Read(t, KStr("bar"), None, MaxExpansionDepth) == Expand(t, bar, MaxExpansionDepth);
    FooPlaceholderA(bar);
    FooPlaceholderB(bar);
    ExpandDictOver(t);
  }

  // ---- Config writes, setdefault, membership, equality ----

  method SetDefaultScenario() returns (first: Result<Value, ConfigError>, second: Result<Value, ConfigError>)
    ensures first == Ok(Opaque(0)) && second == Ok(Opaque(0))
  {
    var conf := new Config(map[]);
    var _ := conf.SetDefault(KStr("a"), Opaque(0));
    first := conf.GetItem(KStr("a"));
    var _ := conf.SetDefault(KStr("a"), Opaque(1));
    second := conf.GetItem(KStr("a"));
    ExpandResolved(conf.store.items, Opaque(0), MaxExpansionDepth);
  }

  method MissingScenario() returns (r: Result<Value, ConfigError>)
    ensures r == Err(KeyNotFound)
  {
    var conf := new Config(map[]);
    r := conf.GetItem(KStr("foobar"));
  }

  method SetScenario() returns (r: Result<Value, ConfigError>)
    ensures r == Ok(Str("bar"))
  {
    var conf := new Config(map[]);
    var _ := conf.SetItem(KStr("foo"), Str("bar"));
    r := conf.GetItem(KStr("foo"));
    ExpandLiteral(conf.store.items, "bar", MaxExpansionDepth);
  }

  lemma SegmentsFooBar()
    ensures Segments(KStr("foo.bar")) == [KStr("foo"), KStr("bar")]
  {
    SegmentsOfTwo("foo", "bar");
    assert "foo" + "." + "bar" == "foo.bar";
  }

  lemma SegmentsFooBarBaz()
    ensures Segments(KStr("foo.bar.baz")) == [KStr("foo"), KStr("bar"), KStr("baz")]
  {
    SegmentsOfThree("foo", "bar", "baz");
    assert "foo" + "." + "bar" + "." + "baz" == "foo.bar.baz";
  }

  /** `conf['foo.bar'] = 'baz'` on `{'foo': {}}`. */
  lemma AssignFooBar()
    ensures Assign(map[KStr("foo") := Map(map[])], [KStr("foo"), KStr("bar")], Str("baz")) ==
      Ok(map[KStr("foo") := Map(map[KStr("bar") := Str("baz")])])
  {
    var path := [KStr("foo"), KStr("bar")];
    var m: map<Key, Value> := map[KStr("foo") := Map(map[])];
    assert path[1..] == [KStr("bar")];
    var inner: map<Key, Value> := map[];
    assert Assign(inner, path[1..], Str("baz")) == Ok(map[KStr("bar") := Str("baz")]);
    assert m[KStr("foo") := Map(map[KStr("bar") := Str("baz")])] == map[KStr("foo") := Map(map[KStr("bar") := Str("baz")])];
  }

  /** `conf['foo.bar.baz'] = 'pies'` on `{'foo': {'bar': {}}}`. */
  lemma AssignFooBarBaz()
    ensures Assign(map[KStr("foo") := Map(map[KStr("bar") := Map(map[])])], [KStr("foo"), KStr("bar"), KStr("baz")], Str("pies")) ==
      Ok(map[KStr("foo") := Map(map[KStr("bar") := Map(map[KStr("baz") := Str("pies")])])])
  {
    var path := [KStr("foo"), KStr("bar"), KStr("baz")];
    assert path[1..] == [KStr("bar"), KStr("baz")];
    assert path[1..][1..] == [KStr("baz")];
    var m: map<Key, Value> := map[KStr("foo") := Map(map[KStr("bar") := Map(map[])])];
    var mid: map<Key, Value> := map[KStr("bar") := Map(map[])];
    var leaf: map<Key, Value> := map[];
    assert Assign(leaf, path[1..][1..], Str("pies")) == Ok(map[KStr("baz") := Str("pies")]);
    var mid' := map[KStr("bar") := Map(map[KStr("baz") := Str("pies")])];
    assert mid[KStr("bar") := Map(map[KStr("baz") := Str("pies")])] == mid';
    assert Assign(mid, path[1..], Str("pies")) == Ok(mid');
    assert m[KStr("foo") := Map(mid')] == map[KStr("foo") := Map(mid')];
  }

  /** `conf['foo.bar.baz'] = 'pies'` on `{'foo': {}}`: `bar` is missing. */
  lemma AssignThroughMissing()
    ensures Assign(map[KStr("foo") := Map(map[])], [KStr("foo"), KStr("bar"), KStr("baz")], Str("pies")) == Err(KeyNotFound)
  {
    var path := [KStr("foo"), KStr("bar"), KStr("baz")];
    assert path[1..] == [KStr("bar"), KStr("baz")];
  }

  /** `conf['foo.bar.baz'] = 'pies'` on `{'foo': {'bar': 'baz'}}`: `bar` is a string. */
  lemma AssignThroughString()
    ensures Assign(map[KStr("foo") := Map(map[KStr("bar") := Str("baz")])], [KStr("foo"), KStr("bar"), KStr("baz")], Str("pies")) == Err(TypeMismatch)
  {
    var path := [KStr("foo"), KStr("bar"), KStr("baz")];
    assert path[1..] == [KStr("bar"), KStr("baz")];
  }

  /** `set_value(d, 'foo.bar.baz', 'pies')` on `{'foo': {'bar': []}}`: `bar` is a list. */
  lemma AssignThroughList()
    ensures Assign(map[KStr("foo") := Map(map[KStr("bar") := List([])])], [KStr("foo"), KStr("bar"), KStr("baz")], Str("pies")) == Err(TypeMismatch)
  {
    var path := [KStr("foo"), KStr("bar"), KStr("baz")];
    assert path[1..] == [KStr("bar"), KStr("baz")];
  }

  /** `set_value(d, 'foo.bar', 'pies')` on `{}`. */
  lemma AssignIntoEmpty()
    ensures Assign(map[], [KStr("foo"), KStr("bar")], Str("pies")) == Err(KeyNotFound)
  {
  }

  /** `set_value(d, 'http.port', 5000)` on `{'http': {'address': '127.0.0.1'}}`. */
  lemma AssignHttpPort()
    ensures Assign(map[KStr("http") := Map(map[KStr("address") := Str("127.0.0.1")])], [KStr("http"), KStr("port")], Int(5000)) ==
      Ok(map[KStr("http") := Map(map[KStr("address") := Str("127.0.0.1"), KStr("port") := Int(5000)])])
  {
    var path := [KStr("http"), KStr("port")];
    assert path[1..] == [KStr("port")];
    var m: map<Key, Value> := map[KStr("http") := Map(map[KStr("address") := Str("127.0.0.1")])];
    var inner: map<Key, Value> := map[KStr("address") := Str("127.0.0.1")];
    var inner' := map[KStr("address") := Str("127.0.0.1"), KStr("port") := Int(5000)];
    assert inner[KStr("port") := Int(5000)] == inner';
    assert Assign(inner, path[1..], Int(5000)) == Ok(inner');
    assert m[KStr("http") := Map(inner')] == map[KStr("http") := Map(inner')];
  }

  /** `set_value(d, 'log_level', 'debug')` after the write above. */
  lemma AssignLogLevel()
    ensures var m := map[KStr("http") := Map(map[KStr("address") := Str("127.0.0.1"), KStr("port") := Int(5000)])];
      Segments(KStr("log_level")) == [KStr("log_level")] &&
      Assign(m, [KStr("log_level")], Str("debug")) ==
        Ok(map[KStr("http") := Map(map[KStr("address") := Str("127.0.0.1"), KStr("port") := Int(5000)]),
               KStr("log_level") := Str("debug")])
  {
    assert Undotted("log_level");
  }

  /** `{'bar': 'baz'}` */
  function BarBaz(): map<Key, Value> {
    map[KStr("bar") := Str("baz")]
  }

  /** `{'bar': {'baz': 'pies'}}` */
  function BarBazPies(): map<Key, Value> {
    map[KStr("bar") := Map(map[KStr("baz") := Str("pies")])]
  }

  /** After test_set_dotted's writes, 'foo.bar' reads 'baz' and 'foo' reads the
      nested mapping. */
  lemma SetDottedReads(t: map<Key, Value>)
    requires t == map[KStr("foo") := Map(BarBaz())]
    ensures Read(t, KStr("foo.bar"), None, MaxExpansionDepth) == Ok(Str("baz"))
    ensures Read(t, KStr("foo"), None, MaxExpansionDepth) == Ok(Map(BarBaz()))
  {
    SegmentsFooBar();
    GetKeyNested(t, KStr("foo.bar"), KStr("foo"), KStr("bar"), None);
    assert !IsPlaceholder("baz");
    ReadResolved(t, KStr("foo.bar"), None, MaxExpansionDepth, Str("baz"));
    assert Undotted("foo");
    GetKeyTopLevel(t, KStr("foo"), None);
    ReadResolved(t, KStr("foo"), None, MaxExpansionDepth, Map(BarBaz()));
  }

  /** A three-segment walk through two mappings. */
  lemma WalkThree(m: map<Key, Value>, a: Key, b: Key, c: Key)
    requires a in m && m[a].Map? && b in m[a].entries && m[a].entries[b].Map?
    requires c in m[a].entries[b].entries
    ensures Walk(m, [a, b, c]) == Ok(m[a].entries[b].entries[c])
  {
    var inner := m[a].entries[b].entries;
    assert [b, c][1..] == [c];
    assert Walk(inner, [c]) == Ok(inner[c]);
    assert Walk(m[a].entries, [b, c]) == Ok(inner[c]);
    assert [a, b, c][1..] == [b, c];
  }

  /** After test_set_dotted_multiple's writes, 'foo.bar.baz' reads 'pies'. */
  lemma SetDottedMultipleDeepRead(t: map<Key, Value>)
    requires t == map[KStr("foo") := Map(BarBazPies())]
    ensures Read(t, KStr("foo.bar.baz"), None, MaxExpansionDepth) == Ok(Str("pies"))
  {
    SegmentsFooBarBaz();
    assert t[KStr("foo")].entries == BarBazPies();
    assert BarBazPies()[KStr("bar")].entries[KStr("baz")] == Str("pies");
    WalkThree(t, KStr("foo"), KStr("bar"), KStr("baz"));
    assert !IsPlaceholder("pies");
    ReadResolved(t, KStr("foo.bar.baz"), None, MaxExpansionDepth, Str("pies"));
  }

  /** After test_set_dotted_multiple's writes, 'foo' reads the nested mapping. */
  lemma SetDottedMultipleTopRead(t: map<Key, Value>)
    requires t == map[KStr("foo") := Map(BarBazPies())]
    ensures Read(t, KStr("foo"), None, MaxExpansionDepth) == Ok(Map(BarBazPies()))
  {
    assert Undotted("foo");
    GetKeyTopLevel(t, KStr("foo"), None);
    ReadResolved(t, KStr("foo"), None, MaxExpansionDepth, Map(BarBazPies()));
  }


  /** The writes of test_set_dotted: `conf['foo'] = {}`, then `conf['foo.bar'] = 'baz'`. */
  method SetDottedSetup() returns (conf: Config, err: Option<ConfigError>)
    ensures err == None
    ensures conf.store.items == map[KStr("foo") := Map(BarBaz())]
  {
    conf := new Config(map[]);
    var _ := conf.SetItem(KStr("foo"), Map(map[]));
    SegmentsFooBar();
    AssignFooBar();
    err := conf.SetItem(KStr("foo.bar"), Str("baz"));
  }

  method SetDottedScenario() returns (err: Option<ConfigError>, viaPath: Result<Value, ConfigError>, nested: Result<Value, ConfigError>, raw: map<Key, Value>)
    ensures err == None
    ensures viaPath == Ok(Str("baz"))
    ensures nested == Ok(Map(BarBaz())) && nested.value.entries[KStr("bar")] == Str("baz")
    ensures raw == map[KStr("foo") := Map(map[KStr("bar") := Str("baz")])]
  {
    var conf;
    conf, err := SetDottedSetup();
    SetDottedReads(conf.store.items);
    viaPath := conf.GetItem(KStr("foo.bar"));
    nested := conf.GetItem(KStr("foo"));
    raw := conf.store.items;
  }

  /** The writes of test_set_dotted_multiple: `conf['foo'] = {'bar': {}}`, then
      `conf['foo.bar.baz'] = 'pies'`. */
  method SetDottedMultipleSetup() returns (conf: Config, err: Option<ConfigError>)
    ensures err == None
    ensures conf.store.items == map[KStr("foo") := Map(BarBazPies())]
  {
    conf := new Config(map[]);
    var _ := conf.SetItem(KStr("foo"), Map(map[KStr("bar") := Map(map[])]));
    SegmentsFooBarBaz();
    AssignFooBarBaz();
    err := conf.SetItem(KStr("foo.bar.baz"), Str("pies"));
  }

  method SetDottedMultipleScenario() returns (err: Option<ConfigError>, viaPath: Result<Value, ConfigError>, nested: Result<Value, ConfigError>, raw: map<Key, Value>)
    ensures err == None
    ensures viaPath == Ok(Str("pies"))
    ensures nested == Ok(Map(BarBazPies()))
    ensures nested.value.entries[KStr("bar")].entries[KStr("baz")] == Str("pies")
    ensures raw == map[KStr("foo") := Map(map[KStr("bar") := Map(map[KStr("baz") := Str("pies")])])]
  {
    var conf;
    conf, err := SetDottedMultipleSetup();
    SetDottedMultipleDeepRead(conf.store.items);
    SetDottedMultipleTopRead(conf.store.items);
    viaPath := conf.GetItem(KStr("foo.bar.baz"));
    nested := conf.GetItem(KStr("foo"));
    raw := conf.store.items;
  }



  method SetDottedFailuresScenario() returns (missing: Option<ConfigError>, nonDict: Option<ConfigError>)
    ensures missing == Some(KeyNotFound)
    ensures nonDict == Some(TypeMismatch)
  {
    SegmentsFooBarBaz();
    AssignThroughMissing();
    AssignThroughString();
    var conf := new Config(map[]);
    var _ := conf.SetItem(KStr("foo"), Map(map[]));
    missing := conf.SetItem(KStr("foo.bar.baz"), Str("pies"));
    var conf2 := new Config(map[]);
    var _ := conf2.SetItem(KStr("foo"), Map(map[KStr("bar") := Str("baz")]));
    nonDict := conf2.SetItem(KStr("foo.bar.baz"), Str("pies"));
  }

  method ContainsScenario() returns (hasBar: bool, hasFoo: bool)
    ensures !hasBar && hasFoo
  {
    var conf := new Config(map[]);
    var _ := conf.SetItem(KStr("foo"), Str("bar"));
    hasBar := conf.Contains(KStr("bar"));
    hasFoo := conf.Contains(KStr("foo"));
  }

  /** A Config holding `{'foo': {'bar': 1}}` reads 1 at 'foo.bar', yet 'foo.bar' is
      not in it, because `in` looks at the top-level keys only. */
  method ContainsDottedScenario() returns (read: Result<Value, ConfigError>, has: bool)
    ensures read == Ok(Int(1))
    ensures !has
  {
    var t := map[KStr("foo") := Map(map[KStr("bar") := Int(1)])];
    var conf := new Config(t);
    read := conf.GetItem(KStr("foo.bar"));
    SegmentsFooBar();
    GetKeyNested(t, KStr("foo.bar"), KStr("foo"), KStr("bar"), None);
    ReadResolved(t, KStr("foo.bar"), None, MaxExpansionDepth, Int(1));
    assert !Undotted("foo.bar");
    ContainsIsTopLevel(conf, KStr("foo.bar"));
    has := conf.Contains(KStr("foo.bar"));
  }

  /** The raw tree `{'a': '${b}', 'b': 'x'}`. */
  function RawEqTree(): map<Key, Value> {
    map[KStr("a") := Str("${b}"), KStr("b") := Str("x")]
  }

  /** A `Config` whose every read agrees with `{'a': 'x', 'b': 'x'}` is still not
      equal to it, because `==` compares the raw placeholder. */
  method EqualsRawScenario() returns (a: Result<Value, ConfigError>, b: Result<Value, ConfigError>, eq: bool)
    ensures a == Ok(Str("x")) && b == Ok(Str("x"))
    ensures !eq
  {
    var t := RawEqTree();
    var conf := new Config(t);
    a := conf.GetItem(KStr("a"));
    b := conf.GetItem(KStr("b"));
    assert Undotted("a") && Undotted("b");
    GetKeyTopLevel(t, KStr("a"), None);
    GetKeyTopLevel(t, KStr("b"), None);
    assert t[KStr("a")] == Str(Placeholder("b"));
    assert t[KStr("b")] == Str("x");
    assert !IsPlaceholder("x");
    ExpandPlaceholder(t, "b", MaxExpansionDepth);
    ExpandLiteral(t, "x", MaxExpansionDepth - 1);
    ExpandLiteral(t, "x", MaxExpansionDepth);
    var expanded := map[KStr("a") := Str("x"), KStr("b") := Str("x")];
    PlaceholderRoundTrip("b");
    assert KStr("a") in conf.store.items && !Resolved(conf.store.items[KStr("a")]);
    eq := conf.Equals(expanded);
  }

  method EqualityScenario() returns (emptyBefore: bool, oneAfter: bool)
    ensures emptyBefore && oneAfter
  {
    var conf := new Config(map[]);
    emptyBefore := conf.Equals(map[]);
    var _ := conf.SetItem(KStr("foo"), Str("bar"));
    oneAfter := conf.Equals(map[KStr("foo") := Str("bar")]);
  }

  method GetDefaultScenario() returns (absent: Result<Value, ConfigError>, withDefault: Result<Value, ConfigError>)
    ensures absent == Ok(Null) && withDefault == Ok(Opaque(7))
  {
    var conf := new Config(map[]);
    absent := conf.Get(KStr("foo"));
    withDefault := conf.Get(KStr("foo"), Opaque(7));
  }

  // ---- set_value ----

  method SetValueScenario() returns (d: Dict)
    ensures d.items == map[KStr("http") := Map(map[KStr("address") := Str("127.0.0.1"), KStr("port") := Int(5000)]),
                           KStr("log_level") := Str("debug")]
  {
    d := new Dict(map[KStr("http") := Map(map[KStr("address") := Str("127.0.0.1")])]);
    SegmentsOfTwo("http", "port");
    assert "http" + "." + "port" == "http.port";
    AssignHttpPort();
    AssignLogLevel();
    var _ := SetValue(d, KStr("http.port"), Int(5000));
    var _ := SetValue(d, KStr("log_level"), Str("debug"));
  }

  method SetValueFailuresScenario() returns (missing: Option<ConfigError>, nonDict: Option<ConfigError>)
    ensures missing == Some(KeyNotFound)
    ensures nonDict == Some(TypeMismatch)
  {
    SegmentsFooBar();
    SegmentsFooBarBaz();
    AssignIntoEmpty();
    AssignThroughList();
    var d := new Dict(map[]);
    missing := SetValue(d, KStr("foo.bar"), Str("pies"));
    var d2 := new Dict(map[KStr("foo") := Map(map[KStr("bar") := List([])])]);
    nonDict := SetValue(d2, KStr("foo.bar.baz"), Str("pies"));
  }
}
