/** Dotted paths: splitting a textual key on '.' into the segments that address
    successive levels of nested mappings. */
module Paths {
  import opened Values

  /** True when no character of `s` is a '.'. */
  predicate Undotted(s: string) {
    forall i :: 0 <= i < |s| ==> s[i] != '.'
  }

  /** Splits `s` at every '.', keeping empty segments ("a..b" gives "a", "", "b"),
      as Python's `str.split('.')` does. */
  function Split(s: string): (r: seq<string>)
    ensures |r| >= 1
    ensures forall j :: 0 <= j < |r| ==> Undotted(r[j])
  {
    if s == [] then [""]
    else if s[0] == '.' then [""] + Split(s[1..])
    else
      var rest := Split(s[1..]);
      [[s[0]] + rest[0]] + rest[1..]
  }

  /** Glues segments back together with '.' between them. */
  function Join(segs: seq<string>): string
    requires |segs| >= 1
  {
    if |segs| == 1 then segs[0] else segs[0] + "." + Join(segs[1..])
  }

  /** Joining the pieces of a split gives back the original text. */
  lemma {:induction false} JoinSplit(s: string)
    ensures Join(Split(s)) == s
  {
    if s == [] {
    } else if s[0] == '.' {
      JoinSplit(s[1..]);
      assert Split(s) == [""] + Split(s[1..]);
      assert s == "." + s[1..];
    } else {
      var rest := Split(s[1..]);
      JoinSplit(s[1..]);
      var r := Split(s);
      assert r == [[s[0]] + rest[0]] + rest[1..];
      if |rest| == 1 {
        assert Join(r) == [s[0]] + rest[0];
      } else {
        assert r[1..] == rest[1..];
        assert Join(r) == [s[0]] + rest[0] + "." + Join(rest[1..]);
        assert Join(rest) == rest[0] + "." + Join(rest[1..]);
      }
      assert s == [s[0]] + s[1..];
    }
  }

  /** Splitting a join of dot-free segments recovers exactly those segments. */
  lemma {:induction false} SplitJoin(segs: seq<string>)
    requires |segs| >= 1
    requires forall j :: 0 <= j < |segs| ==> Undotted(segs[j])
    ensures Split(Join(segs)) == segs
  {
    if |segs| == 1 {
      SplitUndotted(segs[0]);
    } else {
      SplitJoin(segs[1..]);
      SplitPrefix(segs[0], Join(segs[1..]));
      assert [segs[0]] + segs[1..] == segs;
    }
  }

  /** A text without '.' splits into itself alone. */
  lemma {:induction false} SplitUndotted(s: string)
    requires Undotted(s)
    ensures Split(s) == [s]
  {
    if s != [] {
      SplitUndotted(s[1..]);
      assert [s[0]] + s[1..] == s;
    }
  }

  /** A dot-free head followed by '.' contributes exactly one segment. */
  lemma {:induction false} SplitPrefix(head: string, tail: string)
    requires Undotted(head)
    ensures Split(head + "." + tail) == [head] + Split(tail)
  {
    if head == [] {
      assert head + "." + tail == "." + tail;
      assert ("." + tail)[1..] == tail;
    } else {
      var s := head + "." + tail;
      assert s[0] == head[0];
      assert s[1..] == head[1..] + "." + tail;
      SplitPrefix(head[1..], tail);
      assert [head[0]] + head[1..] == head;
    }
  }

  /** True when the key is textual and contains the separator. */
  predicate IsDotted(key: Key) {
    key.KStr? && !Undotted(key.s)
  }

  /** The segments a key addresses: a textual key containing '.' is split into
      textual segments; any other key (an integer, or text without '.') is used
      verbatim as the one and only segment. */
  function Segments(key: Key): (r: seq<Key>)
    ensures |r| >= 1
    ensures !IsDotted(key) ==> r == [key]
    ensures IsDotted(key) ==> |r| == |Split(key.s)| >= 2 && forall j :: 0 <= j < |r| ==> r[j] == KStr(Split(key.s)[j])
  {
    if IsDotted(key) then
      var parts := Split(key.s);
      SplitDotted(key.s);
      seq(|parts|, j requires 0 <= j < |parts| => KStr(parts[j]))
    else [key]
  }

  /** Text containing '.' splits into at least two segments. */
  lemma {:induction false} SplitDotted(s: string)
    requires !Undotted(s)
    ensures |Split(s)| >= 2
  {
    if s[0] != '.' {
      SplitDotted(s[1..]);
    }
  }

  /** The textual key that addresses the given dot-free segments. */
  function DottedKey(segs: seq<string>): Key
    requires |segs| >= 1
  {
    KStr(Join(segs))
  }

  /** A path written out with dots is split back into those very segments. */
  lemma SegmentsOfDottedKey(segs: seq<string>)
    requires |segs| >= 2
    requires forall j :: 0 <= j < |segs| ==> Undotted(segs[j])
    ensures Segments(DottedKey(segs)) == seq(|segs|, j requires 0 <= j < |segs| => KStr(segs[j]))
  {
    SplitJoin(segs);
    assert Join(segs) == segs[0] + "." + Join(segs[1..]);
    assert Join(segs)[|segs[0]|] == '.';
    assert IsDotted(DottedKey(segs));
  }

  /** "a.b" addresses segment a, then segment b. */
  lemma SegmentsOfTwo(a: string, b: string)
    requires Undotted(a) && Undotted(b)
    ensures Segments(KStr(a + "." + b)) == [KStr(a), KStr(b)]
  {
    SegmentsOfDottedKey([a, b]);
    assert [a, b][1..] == [b];
    assert Join([a, b]) == a + "." + b;
  }

  /** "a.b.c" addresses segment a, then b, then c. */
  lemma SegmentsOfThree(a: string, b: string, c: string)
    requires Undotted(a) && Undotted(b) && Undotted(c)
    ensures Segments(KStr(a + "." + b + "." + c)) == [KStr(a), KStr(b), KStr(c)]
  {
    SegmentsOfDottedKey([a, b, c]);
    assert [a, b, c][1..] == [b, c];
    assert [b, c][1..] == [c];
    assert Join([b, c]) == b + "." + c;
    assert Join([a, b, c]) == a + "." + (b + "." + c);
    assert a + "." + (b + "." + c) == a + "." + b + "." + c;
  }
}
