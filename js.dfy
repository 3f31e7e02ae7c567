/**
  The slice of JavaScript's runtime that the download helpers rely on:
  dynamically typed values and their truthiness, plain objects whose
  properties are updated in place, and the string and array built-ins
  (`split`, `toUpperCase`, `indexOf`) the code calls.
 */
module Js {

  datatype Option<+T> = None | Some(value: T)

  /** A JavaScript value as far as the options objects need it.
      Numbers are modelled as integers. */
  datatype Value =
    | Undef
    | Null
    | Bool(b: bool)
    | Num(n: int)
    | Str(s: string)
    | Dict(fields: map<string, Value>)

  /** The values an `if (v)` test accepts. */
  predicate Truthy(v: Value) {
    match v
    case Undef => false
    case Null => false
    case Bool(b) => b
    case Num(n) => n != 0
    case Str(s) => s != ""
    case Dict(_) => true
  }

  /** Property read `o[key]`: a missing key reads as `undefined`. */
  function Get(m: map<string, Value>, key: string): (v: Value)
    ensures key !in m ==> v == Undef
    ensures key in m ==> v == m[key]
  {
    if key in m then m[key] else Undef
  }

  /** A plain object that callers share by reference and that the library
      updates in place. */
  class JsObject {
    var entries: map<string, Value>

    constructor (init: map<string, Value>)
      ensures entries == init
    {
      entries := init;
    }

    /** `o[key] = v` */
    method Set(key: string, v: Value)
      modifies this
      ensures entries == old(entries)[key := v]
    {
      entries := entries[key := v];
    }

    /** `delete o[key]` */
    method Delete(key: string)
      modifies this
      ensures entries == old(entries) - {key}
    {
      entries := entries - {key};
    }

    /** `Object.assign(o, source)`: the source's properties win. */
    method Assign(source: map<string, Value>)
      modifies this
      ensures entries == old(entries) + source
    {
      entries := entries + source;
    }
  }

  /** `s.split(sep)` for a one-character separator. */
  function Split(s: string, sep: char): (parts: seq<string>)
    ensures |parts| >= 1
    ensures forall i :: 0 <= i < |parts| ==> sep !in parts[i]
    ensures |parts| == 1 <==> sep !in s
  {
    if s == [] then [[]]
    else
      var rest := Split(s[1..], sep);
      if s[0] == sep then [[]] + rest
      else [[s[0]] + rest[0]] + rest[1..]
  }

  /** `parts.join(sep)`, the inverse of `Split`. */
  function Join(parts: seq<string>, sep: char): string
    requires |parts| >= 1
  {
    if |parts| == 1 then parts[0]
    else parts[0] + [sep] + Join(parts[1..], sep)
  }

  lemma {:induction false} SplitJoin(s: string, sep: char)
    ensures Join(Split(s, sep), sep) == s
  {
    if s != [] {
      SplitJoin(s[1..], sep);
      var rest := Split(s[1..], sep);
      if s[0] != sep && |rest| > 1 {
        assert Join(rest, sep) == rest[0] + [sep] + Join(rest[1..], sep);
      }
    }
  }

  /** A string without the separator splits into itself alone. */
  lemma {:induction false} SplitWithout(s: string, sep: char)
    requires sep !in s
    ensures Split(s, sep) == [s]
  {
    if s != [] {
      SplitWithout(s[1..], sep);
      assert [s[0]] + s[1..] == s;
    }
  }

  /** Splitting distributes over a separator placed between two strings. */
  lemma {:induction false} SplitAround(a: string, b: string, sep: char)
    ensures Split(a + [sep] + b, sep) == Split(a, sep) + Split(b, sep)
  {
    if a == [] {
      assert [] + [sep] + b == [sep] + b;
      assert ([sep] + b)[1..] == b;
    } else {
      assert (a + [sep] + b)[1..] == a[1..] + [sep] + b;
      SplitAround(a[1..], b, sep);
    }
  }

  lemma {:induction false} JoinSplit(parts: seq<string>, sep: char)
    requires |parts| >= 1
    requires forall i :: 0 <= i < |parts| ==> sep !in parts[i]
    ensures Split(Join(parts, sep), sep) == parts
  {
    if |parts| == 1 {
      SplitWithout(parts[0], sep);
    } else {
      JoinSplit(parts[1..], sep);
      SplitWithout(parts[0], sep);
      SplitAround(parts[0], Join(parts[1..], sep), sep);
      assert [parts[0]] + parts[1..] == parts;
    }
  }

  /** The first piece is the longest prefix without the separator. */
  lemma {:induction false} SplitFirst(s: string, sep: char)
    ensures var p := Split(s, sep)[0];
      && |p| <= |s|
      && p == s[..|p|]
      && (p == s || s[|p|] == sep)
  {
    if s != [] && s[0] != sep {
      SplitFirst(s[1..], sep);
      var q := Split(s[1..], sep)[0];
      assert Split(s, sep)[0] == [s[0]] + q;
      assert [s[0]] + s[1..][..|q|] == s[..|q| + 1];
      assert [s[0]] + s[1..] == s;
    }
  }

  /** Text before the first separator extends the first piece. */
  lemma {:induction false} SplitFirstAppend(a: string, b: string, sep: char)
    requires sep !in a
    ensures Split(a + b, sep)[0] == a + Split(b, sep)[0]
  {
    if a == [] {
      assert a + b == b;
    } else {
      assert (a + b)[1..] == a[1..] + b;
      SplitFirstAppend(a[1..], b, sep);
      assert a == [a[0]] + a[1..];
    }
  }

  /** One step of `Split` as seen from its last piece. */
  lemma SplitLastStep(s: string, sep: char)
    requires s != []
    ensures var parts := Split(s, sep);
      var rest := Split(s[1..], sep);
      parts[|parts| - 1] == if s[0] != sep && |rest| == 1 then [s[0]] + rest[0] else rest[|rest| - 1]
  {
  }

  /** The last piece is the longest suffix without the separator. */
  lemma {:induction false} SplitLast(s: string, sep: char)
    ensures var parts := Split(s, sep);
      var p := parts[|parts| - 1];
      && |p| <= |s|
      && p == s[|s| - |p|..]
      && (|p| == |s| || s[|s| - |p| - 1] == sep)
  {
    if s != [] {
      var tail := s[1..];
      SplitLast(tail, sep);
      SplitLastStep(s, sep);
      var rest := Split(tail, sep);
      var q := rest[|rest| - 1];
      assert tail[|tail| - |q|..] == s[|s| - |q|..];
      if s[0] != sep && |rest| == 1 {
        assert [s[0]] + tail == s;
      } else if s[0] != sep {
        assert sep in tail;
      }
    }
  }

  /** ASCII upper-casing, which is all `toUpperCase` does to the verb names. */
  function UpperChar(c: char): char {
    if 'a' <= c <= 'z' then (c as int - 'a' as int + 'A' as int) as char else c
  }

  function Upper(s: string): (r: string)
    ensures |r| == |s|
    ensures forall i :: 0 <= i < |s| ==> r[i] == UpperChar(s[i])
  {
    if s == [] then [] else [UpperChar(s[0])] + Upper(s[1..])
  }

  /** `xs.indexOf(x)`: the first position of `x`, or -1. */
  function IndexOf(xs: seq<string>, x: string): (r: int)
    ensures r == -1 <==> x !in xs
    ensures r != -1 ==> 0 <= r < |xs| && xs[r] == x && x !in xs[..r]
  {
    if xs == [] then -1
    else if xs[0] == x then 0
    else
      var k := IndexOf(xs[1..], x);
      if k == -1 then -1 else k + 1
  }
}
