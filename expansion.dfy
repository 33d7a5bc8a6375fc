/** Placeholder expansion on read: a string that is exactly `${a.b}` stands for the
    (itself expanded) value at path `a.b` of the same tree; lists and mappings are
    expanded element by element. Chains of placeholders are followed at most
    `fuel` steps deep, so a cycle ends in CyclicReference instead of running forever. */
module Expansion {
  import opened Values
  import opened Paths
  import opened Resolver

  /** True when the whole string is one placeholder `${path}` with a non-empty
      path that contains no '}'. */
  predicate IsPlaceholder(s: string) {
    |s| >= 4 && s[0] == '$' && s[1] == '{' && s[|s| - 1] == '}' &&
    forall i :: 2 <= i < |s| - 1 ==> s[i] != '}'
  }

  /** The path written between `${` and `}`. */
  function PlaceholderPath(s: string): string
    requires IsPlaceholder(s)
  {
    s[2..|s| - 1]
  }

  /** The placeholder text that refers to `path`. */
  function Placeholder(path: string): string {
    "${" + path + "}"
  }

  /** Writing a placeholder and reading its path back are inverse. */
  lemma PlaceholderRoundTrip(path: string)
    requires |path| >= 1 && forall i :: 0 <= i < |path| ==> path[i] != '}'
    ensures IsPlaceholder(Placeholder(path)) && PlaceholderPath(Placeholder(path)) == path
  {
    var s := Placeholder(path);
    assert forall i :: 2 <= i < |s| - 1 ==> s[i] == path[i - 2];
  }

  /** Every recognised placeholder is the placeholder of its own path. */
  lemma PlaceholderOfPath(s: string)
    requires IsPlaceholder(s)
    ensures Placeholder(PlaceholderPath(s)) == s
  {
  }

  /** True when no string anywhere inside `v` is a placeholder. */
  predicate Resolved(v: Value) {
    match v
    case Str(s) => !IsPlaceholder(s)
    case List(xs) => forall i :: 0 <= i < |xs| ==> Resolved(xs[i])
    case Map(m) => forall k :: k in m ==> Resolved(m[k])
    case _ => true
  }

  /** The error reported for a mapping whose values fail: dictionary order is not
      modelled, so the most severe one present is chosen. */
  function WorstError(rs: set<Result<Value, ConfigError>>): (e: ConfigError)
    requires exists r :: r in rs && r.Err?
    ensures Err(e) in rs
  {
    if Err(CyclicReference) in rs then CyclicReference
    else if Err(KeyNotFound) in rs then KeyNotFound
    else
      assert Err(TypeMismatch) in rs by {
        var r :| r in rs && r.Err?;
        assert r == Err(r.error);
        assert r.error != CyclicReference && r.error != KeyNotFound;
      }
      TypeMismatch
  }

  /** The expanded form of `v` against `root`, following placeholder chains at most
      `fuel` deep. A placeholder's path is looked up strictly (no default). */
  function Expand(root: map<Key, Value>, v: Value, fuel: nat): (r: Result<Value, ConfigError>)
    ensures r.Ok? ==> Resolved(r.value)
    ensures v.List? && r.Ok? ==> r.value.List? && |r.value.items| == |v.items|
    ensures v.Map? && r.Ok? ==> r.value.Map? && r.value.entries.Keys == v.entries.Keys
    decreases fuel, v, 1
  {
    match v
    case Str(s) => ExpandText(root, s, fuel)
    case List(xs) =>
      (match ExpandElements(root, xs, fuel)
       case Ok(ys) => Ok(List(ys))
       case Err(e) => Err(e))
    case Map(m) =>
      var rs := ExpandEntries(root, m, fuel);
      if forall k :: k in rs ==> rs[k].Ok? then
        Ok(Map(map k | k in rs :: rs[k].value))
      else Err(WorstError(rs.Values))
    case _ => Ok(v)
  }

  /** A string value expanded: text that is not one whole placeholder stays as it
      is; a placeholder is a strict read of its path, one step further along the
      chain, and CyclicReference once the bound is used up. */
  function ExpandText(root: map<Key, Value>, s: string, fuel: nat): (r: Result<Value, ConfigError>)
    ensures r.Ok? ==> Resolved(r.value)
    decreases fuel, Str(s), 0
  {
    if !IsPlaceholder(s) then Ok(Str(s))
    else if fuel == 0 then Err(CyclicReference)
    else Read(root, KStr(PlaceholderPath(s)), None, fuel - 1)
  }

  /** The elements of a list expanded left to right; the first failing element
      ends the pass with its error. */
  function ExpandElements(root: map<Key, Value>, xs: seq<Value>, fuel: nat): (r: Result<seq<Value>, ConfigError>)
    ensures r.Ok? ==> |r.value| == |xs| && forall i :: 0 <= i < |xs| ==> Resolved(r.value[i])
    decreases fuel, xs, 1
  {
    if xs == [] then Ok([])
    else match Expand(root, xs[0], fuel)
      case Err(e) => Err(e)
      case Ok(y) =>
        (match ExpandElements(root, xs[1..], fuel)
         case Ok(ys) => Ok([y] + ys)
         case Err(e) => Err(e))
  }

  /** The expansion of each value of a mapping, under the same key. */
  function ExpandEntries(root: map<Key, Value>, m: map<Key, Value>, fuel: nat): (rs: map<Key, Result<Value, ConfigError>>)
    ensures rs.Keys == m.Keys
    ensures forall k :: k in m ==> rs[k] == Expand(root, m[k], fuel)
    decreases fuel, Map(m), 0
  {
    map k | k in m :: Expand(root, m[k], fuel)
  }

  /** `Config.get` / `Config[key]`: resolve the raw value (or the default) by path,
      then expand it. */
  function Read(root: map<Key, Value>, key: Key, default: Option<Value>, fuel: nat): (r: Result<Value, ConfigError>)
    ensures r.Ok? ==> Resolved(r.value)
    ensures default.None? && r.Ok? ==> Walk(root, Segments(key)).Ok?
    decreases fuel
  {
    match GetKey(root, key, default)
    case Ok(raw) => Expand(root, raw, fuel)
    case Err(e) => Err(e)
  }

  /** Expanding a value that holds no placeholder gives it back unchanged: other
      strings, numbers, booleans, null and opaque objects stay as they are, and
      lists and mappings are rebuilt equal. */
  lemma {:induction false} ExpandResolved(root: map<Key, Value>, v: Value, fuel: nat)
    requires Resolved(v)
    ensures Expand(root, v, fuel) == Ok(v)
    decreases v
  {
    match v
    case List(xs) =>
      ElementsResolved(root, xs, fuel);
    case Map(m) =>
      forall k | k in m
        ensures Expand(root, m[k], fuel) == Ok(m[k])
      {
        ExpandResolved(root, m[k], fuel);
      }
      var rs := ExpandEntries(root, m, fuel);
      assert (map k | k in rs :: rs[k].value) == m;
    case _ =>
  }

  lemma {:induction false} ElementsResolved(root: map<Key, Value>, xs: seq<Value>, fuel: nat)
    requires forall i :: 0 <= i < |xs| ==> Resolved(xs[i])
    ensures ExpandElements(root, xs, fuel) == Ok(xs)
    decreases xs
  {
    if xs != [] {
      ExpandResolved(root, xs[0], fuel);
      ElementsResolved(root, xs[1..], fuel);
      assert [xs[0]] + xs[1..] == xs;
    }
  }

  /** Expansion is idempotent: what a read returns expands to itself. */
  lemma ExpandIdempotent(root: map<Key, Value>, v: Value, fuel: nat, fuel': nat)
    requires Expand(root, v, fuel).Ok?
    ensures Expand(root, Expand(root, v, fuel).value, fuel') == Expand(root, v, fuel)
  {
    ExpandResolved(root, Expand(root, v, fuel).value, fuel');
  }

  /** A whole-string placeholder expands to whatever a strict read of its path
      gives, with one step less of the chain bound. */
  lemma ExpandPlaceholder(root: map<Key, Value>, path: string, fuel: nat)
    requires |path| >= 1 && forall i :: 0 <= i < |path| ==> path[i] != '}'
    ensures fuel == 0 ==> Expand(root, Str(Placeholder(path)), fuel) == Err(CyclicReference)
    ensures fuel > 0 ==> Expand(root, Str(Placeholder(path)), fuel) == Read(root, KStr(path), None, fuel - 1)
  {
    PlaceholderRoundTrip(path);
  }

  /** A string that is not exactly one placeholder is left as literal text, even if
      it contains `${...}` somewhere. */
  lemma ExpandLiteral(root: map<Key, Value>, s: string, fuel: nat)
    requires !IsPlaceholder(s)
    ensures Expand(root, Str(s), fuel) == Ok(Str(s))
  {
    ExpandResolved(root, Str(s), fuel);
  }

  /** A non-empty list of elements expands to `ys` exactly when its head expands to
      the head of `ys` and its tail to the tail of `ys`. */
  lemma ElementsCons(root: map<Key, Value>, xs: seq<Value>, ys: seq<Value>, fuel: nat)
    requires xs != [] && |ys| == |xs|
    ensures ExpandElements(root, xs, fuel) == Ok(ys) <==>
      Expand(root, xs[0], fuel) == Ok(ys[0]) && ExpandElements(root, xs[1..], fuel) == Ok(ys[1..])
  {
    assert [ys[0]] + ys[1..] == ys;
  }

  /** Every element expands in place exactly when the head does and every element
      of the tail does. */
  lemma ElementsShift(root: map<Key, Value>, xs: seq<Value>, ys: seq<Value>, fuel: nat)
    requires xs != [] && |ys| == |xs|
    ensures (forall i :: 0 <= i < |xs| ==> Expand(root, xs[i], fuel) == Ok(ys[i])) <==>
      Expand(root, xs[0], fuel) == Ok(ys[0]) &&
      forall i :: 0 <= i < |xs| - 1 ==> Expand(root, xs[1..][i], fuel) == Ok(ys[1..][i])
  {
    if Expand(root, xs[0], fuel) == Ok(ys[0]) &&
      forall i :: 0 <= i < |xs| - 1 ==> Expand(root, xs[1..][i], fuel) == Ok(ys[1..][i])
    {
      forall i | 0 <= i < |xs| ensures Expand(root, xs[i], fuel) == Ok(ys[i]) {
        if i > 0 {
          assert xs[1..][i - 1] == xs[i] && ys[1..][i - 1] == ys[i];
        }
      }
    }
  }

  /** The elements of a list expand one by one, each to the element at the same
      position of the result. */
  lemma {:induction false} ElementsOk(root: map<Key, Value>, xs: seq<Value>, ys: seq<Value>, fuel: nat)
    ensures ExpandElements(root, xs, fuel) == Ok(ys) <==>
      |ys| == |xs| && forall i :: 0 <= i < |xs| ==> Expand(root, xs[i], fuel) == Ok(ys[i])
    decreases xs
  {
    if xs != [] && |ys| == |xs| {
      ElementsOk(root, xs[1..], ys[1..], fuel);
      ElementsCons(root, xs, ys, fuel);
      ElementsShift(root, xs, ys, fuel);
    }
  }


  /** A pass over the elements fails with the error of the first failing element. */
  lemma {:induction false} ElementsFail(root: map<Key, Value>, xs: seq<Value>, fuel: nat)
    requires ExpandElements(root, xs, fuel).Err?
    ensures exists i :: 0 <= i < |xs| && Expand(root, xs[i], fuel) == Err(ExpandElements(root, xs, fuel).error) &&
                        forall j :: 0 <= j < i ==> Expand(root, xs[j], fuel).Ok?
    decreases xs
  {
    if Expand(root, xs[0], fuel).Ok? {
      ElementsFail(root, xs[1..], fuel);
      var i :| 0 <= i < |xs| - 1 && Expand(root, xs[1..][i], fuel) == Err(ExpandElements(root, xs[1..], fuel).error) &&
        forall j :: 0 <= j < i ==> Expand(root, xs[1..][j], fuel).Ok?;
      assert Expand(root, xs[i + 1], fuel) == Err(ExpandElements(root, xs, fuel).error);
      forall j | 0 <= j < i + 1 ensures Expand(root, xs[j], fuel).Ok? {
        if j > 0 {
          assert xs[1..][j - 1] == xs[j];
        }
      }
    }
  }

  /** A list expands element by element, in place, and succeeds exactly when
      every element does. */
  lemma ExpandList(root: map<Key, Value>, xs: seq<Value>, ys: seq<Value>, fuel: nat)
    ensures Expand(root, List(xs), fuel) == Ok(List(ys)) <==>
      |ys| == |xs| && forall i :: 0 <= i < |xs| ==> Expand(root, xs[i], fuel) == Ok(ys[i])
  {
    ElementsOk(root, xs, ys, fuel);
  }

  /** A list fails to expand exactly when some element fails, and then with the
      error of the first failing element. */
  lemma ExpandListFails(root: map<Key, Value>, xs: seq<Value>, fuel: nat)
    ensures Expand(root, List(xs), fuel).Err? <==> exists i :: 0 <= i < |xs| && Expand(root, xs[i], fuel).Err?
    ensures Expand(root, List(xs), fuel).Err? ==>
      exists i :: 0 <= i < |xs| && Expand(root, xs[i], fuel) == Expand(root, List(xs), fuel) &&
        forall j :: 0 <= j < i ==> Expand(root, xs[j], fuel).Ok?
  {
    var r := ExpandElements(root, xs, fuel);
    if r.Err? {
      ElementsFail(root, xs, fuel);
    } else {
      ElementsOk(root, xs, r.value, fuel);
    }
  }

  /** A mapping expands value by value under the same keys. */
  lemma ExpandMap(root: map<Key, Value>, m: map<Key, Value>, m': map<Key, Value>, fuel: nat)
    ensures Expand(root, Map(m), fuel) == Ok(Map(m')) <==>
      m'.Keys == m.Keys && forall k :: k in m ==> Expand(root, m[k], fuel) == Ok(m'[k])
  {
    var rs := ExpandEntries(root, m, fuel);
    if m'.Keys == m.Keys && forall k :: k in m ==> Expand(root, m[k], fuel) == Ok(m'[k]) {
      assert forall k :: k in rs ==> rs[k].Ok?;
      assert (map k | k in rs :: rs[k].value) == m';
    }
    if Expand(root, Map(m), fuel) == Ok(Map(m')) {
      assert forall k :: k in rs ==> rs[k].Ok?;
      assert m' == map k | k in rs :: rs[k].value;
    }
  }

  /** A mapping fails to expand exactly when some value fails, and then with the
      error of one of the failing values. */
  lemma ExpandMapFails(root: map<Key, Value>, m: map<Key, Value>, fuel: nat)
    ensures Expand(root, Map(m), fuel).Err? <==> exists k :: k in m && Expand(root, m[k], fuel).Err?
    ensures Expand(root, Map(m), fuel).Err? ==>
      exists k :: k in m && Expand(root, m[k], fuel) == Expand(root, Map(m), fuel)
  {
    var rs := ExpandEntries(root, m, fuel);
    if exists k :: k in m && Expand(root, m[k], fuel).Err? {
      var k :| k in m && Expand(root, m[k], fuel).Err?;
      assert rs[k].Err?;
    }
    if Expand(root, Map(m), fuel).Err? {
      var e := WorstError(rs.Values);
      var k :| k in rs && rs[k] == Err(e);
    }
  }

  /** Raising the chain bound changes nothing once a read no longer hits it: the
      bound only turns over-long chains into CyclicReference. */
  lemma {:induction false} ExpandFuelMonotone(root: map<Key, Value>, v: Value, fuel: nat, fuel': nat)
    requires fuel <= fuel'
    requires Expand(root, v, fuel) != Err(CyclicReference)
    ensures Expand(root, v, fuel') == Expand(root, v, fuel)
    decreases fuel, v, 2
  {
    match v
    case Str(s) => TextFuelMonotone(root, s, fuel, fuel');
    case List(xs) => ElementsFuelMonotone(root, xs, fuel, fuel');
    case Map(m) => MapFuelMonotone(root, m, fuel, fuel');
    case _ =>
  }

  lemma {:induction false} TextFuelMonotone(root: map<Key, Value>, s: string, fuel: nat, fuel': nat)
    requires fuel <= fuel'
    requires ExpandText(root, s, fuel) != Err(CyclicReference)
    ensures ExpandText(root, s, fuel') == ExpandText(root, s, fuel)
    decreases fuel, Str(s), 1
  {
    if IsPlaceholder(s) && fuel > 0 {
      ReadFuelMonotone(root, KStr(PlaceholderPath(s)), fuel - 1, fuel' - 1);
    }
  }

  /** A strict read is stable under a larger chain bound once it no longer hits
      the bound. */
  lemma {:induction false} ReadFuelMonotone(root: map<Key, Value>, key: Key, fuel: nat, fuel': nat)
    requires fuel <= fuel'
    requires Read(root, key, None, fuel) != Err(CyclicReference)
    ensures Read(root, key, None, fuel') == Read(root, key, None, fuel)
    decreases fuel
  {
    var g := GetKey(root, key, None);
    if g.Ok? {
      ExpandFuelMonotone(root, g.value, fuel, fuel');
    }
  }

  lemma {:induction false} ElementsFuelMonotone(root: map<Key, Value>, xs: seq<Value>, fuel: nat, fuel': nat)
    requires fuel <= fuel'
    requires ExpandElements(root, xs, fuel) != Err(CyclicReference)
    ensures ExpandElements(root, xs, fuel') == ExpandElements(root, xs, fuel)
    decreases fuel, xs, 1
  {
    if xs != [] {
      ExpandFuelMonotone(root, xs[0], fuel, fuel');
      if Expand(root, xs[0], fuel).Ok? {
        ElementsFuelMonotone(root, xs[1..], fuel, fuel');
      }
    }
  }

  lemma {:induction false} MapFuelMonotone(root: map<Key, Value>, m: map<Key, Value>, fuel: nat, fuel': nat)
    requires fuel <= fuel'
    requires Expand(root, Map(m), fuel) != Err(CyclicReference)
    ensures Expand(root, Map(m), fuel') == Expand(root, Map(m), fuel)
    decreases fuel, Map(m), 0
  {
    var rs := ExpandEntries(root, m, fuel);
    var rs' := ExpandEntries(root, m, fuel');
    assert Err(CyclicReference) !in rs.Values;
    forall k | k in m ensures rs'[k] == rs[k] {
      assert rs[k] in rs.Values;
      ExpandFuelMonotone(root, m[k], fuel, fuel');
    }
    assert rs' == rs;
  }

  /** A key whose value is a placeholder for itself can never be read: the chain
      runs until the bound is spent, whatever the bound. */
  lemma {:induction false} SelfReferenceIsCyclic(root: map<Key, Value>, name: string, fuel: nat)
    requires |name| >= 1 && Undotted(name) && forall i :: 0 <= i < |name| ==> name[i] != '}'
    requires KStr(name) in root && root[KStr(name)] == Str(Placeholder(name))
    ensures Expand(root, Str(Placeholder(name)), fuel) == Err(CyclicReference)
    ensures Read(root, KStr(name), None, fuel) == Err(CyclicReference)
    decreases fuel
  {
    ExpandPlaceholder(root, name, fuel);
    if fuel > 0 {
      SelfReferenceIsCyclic(root, name, fuel - 1);
    }
  }

  /** Two keys whose placeholders refer to each other read as CyclicReference
      under every bound, from either end of the cycle. */
  lemma {:induction false} TwoCycleIsCyclic(root: map<Key, Value>, a: string, b: string, fuel: nat)
    requires |a| >= 1 && Undotted(a) && forall i :: 0 <= i < |a| ==> a[i] != '}'
    requires |b| >= 1 && Undotted(b) && forall i :: 0 <= i < |b| ==> b[i] != '}'
    requires KStr(a) in root && root[KStr(a)] == Str(Placeholder(b))
    requires KStr(b) in root && root[KStr(b)] == Str(Placeholder(a))
    ensures Read(root, KStr(a), None, fuel) == Err(CyclicReference)
    decreases fuel
  {
    GetKeyTopLevel(root, KStr(a), None);
    ExpandPlaceholder(root, b, fuel);
    if fuel > 0 {
      TwoCycleIsCyclic(root, b, a, fuel - 1);
    }
  }

  /** Reading a key holding a placeholder follows the chain: the result is the
      read of the referenced path, one step further along. */
  lemma ReadFollowsChain(root: map<Key, Value>, key: Key, path: string, fuel: nat)
    requires |path| >= 1 && forall i :: 0 <= i < |path| ==> path[i] != '}'
    requires GetKey(root, key, None) == Ok(Str(Placeholder(path)))
    requires fuel > 0
    ensures Read(root, key, None, fuel) == Read(root, KStr(path), None, fuel - 1)
  {
    ExpandPlaceholder(root, path, fuel);
  }

  /** A key whose raw value holds no placeholder reads as that raw value. */
  lemma ReadResolved(root: map<Key, Value>, key: Key, default: Option<Value>, fuel: nat, v: Value)
    requires GetKey(root, key, default) == Ok(v) && Resolved(v)
    ensures Read(root, key, default, fuel) == Ok(v)
  {
    ExpandResolved(root, v, fuel);
  }

  /** A missing key fails a read with KeyNotFound, unless a default is supplied, in
      which case the read yields the expanded default. */
  lemma ReadMissing(root: map<Key, Value>, key: Key, d: Value, fuel: nat)
    requires Walk(root, Segments(key)) == Err(KeyNotFound)
    ensures Read(root, key, None, fuel) == Err(KeyNotFound)
    ensures Read(root, key, Some(d), fuel) == Expand(root, d, fuel)
  {
  }
}
