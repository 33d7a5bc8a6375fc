/** The path resolver: reading a nested mapping by key or dotted path (`get_key`)
    and writing into it in place (`set_value`). It knows nothing of placeholders. */
module Resolver {
  import opened Values
  import opened Paths

  /** Follows `path` one mapping level per segment. A missing segment is
      KeyNotFound; a segment that must be looked up in something that is not a
      mapping is TypeMismatch. */
  function Walk(m: map<Key, Value>, path: seq<Key>): (r: Result<Value, ConfigError>)
    requires |path| >= 1
    ensures r.Err? ==> r.error == KeyNotFound || r.error == TypeMismatch
    ensures r.Ok? ==> path[0] in m && (|path| > 1 ==> m[path[0]].Map?)
    ensures path[0] !in m ==> r == Err(KeyNotFound)
    decreases |path|
  {
    if path[0] !in m then Err(KeyNotFound)
    else if |path| == 1 then Ok(m[path[0]])
    else match m[path[0]]
      case Map(inner) => Walk(inner, path[1..])
      case _ => Err(TypeMismatch)
  }

  /** Walking a path that is a concatenation: the first part is walked first, and
      the second part is walked from wherever the first part led. */
  lemma {:induction false} WalkAppend(m: map<Key, Value>, p: seq<Key>, q: seq<Key>)
    requires |p| >= 1 && |q| >= 1
    ensures Walk(m, p).Err? ==> Walk(m, p + q) == Walk(m, p)
    ensures Walk(m, p).Ok? && Walk(m, p).value.Map? ==> Walk(m, p + q) == Walk(Walk(m, p).value.entries, q)
    ensures Walk(m, p).Ok? && !Walk(m, p).value.Map? ==> Walk(m, p + q) == Err(TypeMismatch)
    decreases |p|
  {
    assert (p + q)[0] == p[0];
    if p[0] in m && |p| > 1 && m[p[0]].Map? {
      assert (p + q)[1..] == p[1..] + q;
      WalkAppend(m[p[0]].entries, p[1..], q);
    } else if p[0] in m && |p| == 1 {
      assert (p + q)[1..] == q;
    }
  }

  /** `get_key(root, key, default)`: the value `key` addresses in `root`. When a
      segment is missing, the default is returned if one was given, else
      KeyNotFound is reported. */
  function GetKey(root: map<Key, Value>, key: Key, default: Option<Value>): (r: Result<Value, ConfigError>)
    ensures r.Err? ==> r.error == KeyNotFound || r.error == TypeMismatch
    ensures default.Some? ==> r != Err(KeyNotFound)
    ensures default.None? ==> r == Walk(root, Segments(key))
    ensures !IsDotted(key) ==> (r.Ok? <==> key in root || default.Some?)
  {
    var walked := Walk(root, Segments(key));
    if walked == Err(KeyNotFound) && default.Some? then Ok(default.value) else walked
  }

  /** A key that is not dotted text (an integer, or text without '.') is looked up
      verbatim at the top level. */
  lemma GetKeyTopLevel(root: map<Key, Value>, key: Key, default: Option<Value>)
    requires !IsDotted(key)
    ensures key in root ==> GetKey(root, key, default) == Ok(root[key])
    ensures key !in root && default.None? ==> GetKey(root, key, default) == Err(KeyNotFound)
    ensures key !in root && default.Some? ==> GetKey(root, key, default) == Ok(default.value)
  {
  }

  /** A key whose segments are `a`, `b` addresses `root[a][b]`. */
  lemma GetKeyNested(root: map<Key, Value>, key: Key, a: Key, b: Key, default: Option<Value>)
    requires Segments(key) == [a, b]
    requires a in root && root[a].Map? && b in root[a].entries
    ensures GetKey(root, key, default) == Ok(root[a].entries[b])
  {
    assert [a, b][1..] == [b];
    assert Walk(root[a].entries, [b]) == Ok(root[a].entries[b]);
    assert Walk(root, [a, b]) == Ok(root[a].entries[b]);
  }

  /** A dotted key of any depth addresses exactly the walk along its segments. */
  lemma GetKeyDotted(root: map<Key, Value>, segs: seq<string>, default: Option<Value>)
    requires |segs| >= 2
    requires forall j :: 0 <= j < |segs| ==> Undotted(segs[j])
    ensures var w := Walk(root, seq(|segs|, j requires 0 <= j < |segs| => KStr(segs[j])));
      GetKey(root, DottedKey(segs), default) == if w == Err(KeyNotFound) && default.Some? then Ok(default.value) else w
  {
    SegmentsOfDottedKey(segs);
  }

  /** A missing key is KeyNotFound without a default, and the default with one;
      no other failure is replaced by the default. */
  lemma GetKeyMissing(root: map<Key, Value>, key: Key, d: Value)
    ensures Walk(root, Segments(key)) == Err(KeyNotFound) <==> GetKey(root, key, None) == Err(KeyNotFound)
    ensures Walk(root, Segments(key)) == Err(KeyNotFound) ==> GetKey(root, key, Some(d)) == Ok(d)
    ensures Walk(root, Segments(key)) != Err(KeyNotFound) ==> GetKey(root, key, Some(d)) == GetKey(root, key, None)
  {
  }

  /** The mapping that holds the last segment of `path`: `root` itself for a
      single segment, otherwise what the other segments lead to, which must be a
      mapping. */
  function Parent(m: map<Key, Value>, path: seq<Key>): Result<map<Key, Value>, ConfigError>
    requires |path| >= 1
  {
    if |path| == 1 then Ok(m)
    else match Walk(m, path[..|path| - 1])
      case Ok(Map(p)) => Ok(p)
      case Ok(_) => Err(TypeMismatch)
      case Err(e) => Err(e)
  }

  /** The tree after writing `v` at `path`: every segment but the last must
      already exist and be a mapping; the last may add a new key. */
  function Assign(m: map<Key, Value>, path: seq<Key>, v: Value): (r: Result<map<Key, Value>, ConfigError>)
    requires |path| >= 1
    ensures r.Ok? ==> r.value.Keys == m.Keys + {path[0]}
    ensures r.Ok? && |path| > 1 ==> path[0] in m
    ensures r.Err? ==> |path| > 1 && (r.error == KeyNotFound || r.error == TypeMismatch)
    decreases |path|
  {
    if |path| == 1 then Ok(m[path[0] := v])
    else if path[0] !in m then Err(KeyNotFound)
    else match m[path[0]]
      case Map(inner) =>
        (match Assign(inner, path[1..], v)
         case Ok(inner') => Ok(m[path[0] := Map(inner')])
         case Err(e) => Err(e))
      case _ => Err(TypeMismatch)
  }

  /** The parent of the last segment cannot be reached once some prefix of the
      other segments fails or ends on something that is not a mapping. */
  lemma ParentOfPrefix(m: map<Key, Value>, path: seq<Key>, j: nat)
    requires 1 <= j <= |path| - 1
    ensures Walk(m, path[..j]).Err? ==> Parent(m, path) == Err(Walk(m, path[..j]).error)
    ensures Walk(m, path[..j]).Ok? && !Walk(m, path[..j]).value.Map? ==> Parent(m, path) == Err(TypeMismatch)
  {
    if j < |path| - 1 {
      WalkAppend(m, path[..j], path[j..|path| - 1]);
      assert path[..j] + path[j..|path| - 1] == path[..|path| - 1];
    }
  }

  /** Below a first segment that holds a mapping, the parent of the last segment
      is found from that mapping along the remaining segments. */
  lemma ParentStep(m: map<Key, Value>, path: seq<Key>)
    requires |path| > 1 && path[0] in m && m[path[0]].Map?
    ensures Parent(m, path) == Parent(m[path[0]].entries, path[1..])
  {
    var init := path[..|path| - 1];
    var rest := path[1..];
    assert init[0] == path[0];
    assert rest[..|rest| - 1] == init[1..];
    if |path| > 2 {
      assert Walk(m, init) == Walk(m[path[0]].entries, init[1..]);
    }
  }

  /** A write fails exactly when the parent mapping cannot be reached, and with the
      same error; when it succeeds the parent gains (or replaces) the last key and
      keeps all its other entries. */
  lemma {:induction false} AssignParent(m: map<Key, Value>, path: seq<Key>, v: Value)
    requires |path| >= 1
    ensures Assign(m, path, v).Err? <==> Parent(m, path).Err?
    ensures Assign(m, path, v).Err? ==> Assign(m, path, v).error == Parent(m, path).error
    ensures Assign(m, path, v).Ok? ==>
      Parent(Assign(m, path, v).value, path) == Ok(Parent(m, path).value[path[|path| - 1] := v])
    decreases |path|
  {
    if |path| > 1 {
      ParentOfPrefix(m, path, 1);
      if path[0] in m && m[path[0]].Map? {
        var inner := m[path[0]].entries;
        AssignParent(inner, path[1..], v);
        ParentStep(m, path);
        if Assign(m, path, v).Ok? {
          var m' := m[path[0] := Map(Assign(inner, path[1..], v).value)];
          assert Assign(m, path, v).value == m';
          ParentStep(m', path);
        }
      }
    }
  }

  /** Reading back what was just written gives the written value. */
  lemma {:induction false} AssignThenWalk(m: map<Key, Value>, path: seq<Key>, v: Value)
    requires |path| >= 1
    requires Assign(m, path, v).Ok?
    ensures Walk(Assign(m, path, v).value, path) == Ok(v)
    decreases |path|
  {
    if |path| > 1 {
      AssignThenWalk(m[path[0]].entries, path[1..], v);
    }
  }

  /** Two paths diverge when they differ at some position both have. */
  predicate Diverge(p: seq<Key>, q: seq<Key>) {
    exists i :: 0 <= i < |p| && i < |q| && p[i] != q[i]
  }

  /** A write changes nothing that is reached along a path diverging from the
      written one: siblings at every level are left as they were. */
  lemma {:induction false} AssignFrame(m: map<Key, Value>, path: seq<Key>, v: Value, q: seq<Key>)
    requires |path| >= 1 && |q| >= 1
    requires Assign(m, path, v).Ok?
    requires Diverge(path, q)
    ensures Walk(Assign(m, path, v).value, q) == Walk(m, q)
    decreases |path|
  {
    var m' := Assign(m, path, v).value;
    if path[0] != q[0] {
      assert q[0] in m' <==> q[0] in m;
    } else {
      var i :| 0 <= i < |path| && i < |q| && path[i] != q[i];
      assert i >= 1 && |path| > 1 && |q| > 1;
      assert path[1..][i - 1] != q[1..][i - 1];
      AssignFrame(m[path[0]].entries, path[1..], v, q[1..]);
    }
  }

  /** A mutable mapping, as a Python `dict` that `set_value` updates in place. */
  class Dict {
    var items: map<Key, Value>

    constructor (items: map<Key, Value>)
      ensures this.items == items
    {
      this.items := items;
    }
  }

  /** One step of the walk towards the parent: `cur` is the mapping reached after
      the first `i` segments; the next segment is missing, not a mapping, or leads
      one level further down. */
  lemma ParentStepOf(m: map<Key, Value>, path: seq<Key>, i: nat, cur: map<Key, Value>)
    requires i < |path| - 1
    requires i == 0 ==> cur == m
    requires i > 0 ==> Walk(m, path[..i]) == Ok(Map(cur))
    ensures path[i] !in cur ==> Parent(m, path) == Err(KeyNotFound)
    ensures path[i] in cur && !cur[path[i]].Map? ==> Parent(m, path) == Err(TypeMismatch)
    ensures path[i] in cur ==> Walk(m, path[..i + 1]) == Ok(cur[path[i]])
  {
    if i > 0 {
      WalkAppend(m, path[..i], [path[i]]);
      assert path[..i] + [path[i]] == path[..i + 1];
    } else {
      assert path[..1] == [path[0]];
    }
    ParentOfPrefix(m, path, i + 1);
  }

  /** `set_value(d, key, value)`: walks to the parent of the last segment, failing
      with KeyNotFound or TypeMismatch before anything is written, then stores
      `value` under the last segment. The loop only checks the path; the write
      itself is `Assign`, which rebuilds the levels down to that parent, since
      nested mappings are values here. */
  method SetValue(d: Dict, key: Key, value: Value) returns (err: Option<ConfigError>)
    modifies d
    ensures Assign(old(d.items), Segments(key), value).Ok? ==>
      err == None && d.items == Assign(old(d.items), Segments(key), value).value
    ensures Assign(old(d.items), Segments(key), value).Err? ==>
      err == Some(Assign(old(d.items), Segments(key), value).error) && d.items == old(d.items)
    ensures err == None ==> GetKey(d.items, key, None) == Ok(value)
  {
    var path := Segments(key);
    var m := d.items;
    AssignParent(m, path, value);
    var cur := m;
    var i := 0;
    while i < |path| - 1
      invariant 0 <= i <= |path| - 1
      invariant d.items == m
      invariant i == 0 ==> cur == m
      invariant i > 0 ==> Walk(m, path[..i]) == Ok(Map(cur))
    {
      ParentStepOf(m, path, i, cur);
      if path[i] !in cur {
        return Some(KeyNotFound);
      }
      match cur[path[i]] {
        case Map(next) =>
          cur := next;
        case _ =>
          return Some(TypeMismatch);
      }
      i := i + 1;
    }
    assert Parent(m, path) == Ok(cur);
    AssignThenWalk(m, path, value);
    d.items := Assign(m, path, value).value;
    err := None;
  }
}
