/** The pieces of JavaScript semantics the request handling depends on:
    parsed JSON values and their truthiness, property reads, and the string
    methods `startsWith`, `substring` and `split`. */
module Js {
  import opened Wrappers

  /** A value of a parsed request body. `Undefined` is a missing property. */
  datatype Json =
    | Undefined
    | Null
    | Bool(b: bool)
    | Number(n: real)
    | Str(s: string)
    | Array(items: seq<Json>)
    | Object(members: map<string, Json>)

  /** ToBoolean: `undefined`, `null`, `false`, `0` and `""` are falsy. A JSON
      number is never NaN, and every array and object is truthy. */
  predicate Truthy(v: Json)
  {
    match v
    case Undefined => false
    case Null => false
    case Bool(b) => b
    case Number(n) => n != 0.0
    case Str(s) => s != ""
    case Array(_) => true
    case Object(_) => true
  }

  /** `v[key]` for one of the request-field names: an object's own member, or
      `undefined` on any other value. Reading it from `null` or `undefined`
      throws, which is `None`. */
  function Property(v: Json, key: string): (r: Option<Json>)
    ensures r.None? <==> v.Undefined? || v.Null?
    ensures v.Object? && key in v.members ==> r == Some(v.members[key])
  {
    match v
    case Undefined => None
    case Null => None
    case Object(m) => if key in m then Some(m[key]) else Some(Undefined)
    case _ => Some(Undefined)
  }

  /** `s.startsWith(prefix)`: case-sensitive. */
  predicate StartsWith(s: string, prefix: string)
  {
    |prefix| <= |s| && s[..|prefix|] == prefix
  }

  /** `s.substring(start)`: a start past the end gives the empty string. */
  function Substring(s: string, start: nat): string
  {
    if start >= |s| then "" else s[start..]
  }

  /** `s.split(sep)` for a one-character separator: the pieces between
      separators, with an empty piece wherever two separators are adjacent or
      the string starts or ends with one. The empty string gives `[""]`. */
  function Split(s: string, sep: char): (r: seq<string>)
    ensures |r| >= 1
  {
    if s == [] then [""]
    else
      var rest := Split(s[1..], sep);
      if s[0] == sep then [""] + rest
      else [[s[0]] + rest[0]] + rest[1..]
  }

  /** `parts.join(sep)`. */
  function Join(parts: seq<string>, sep: char): string
    requires |parts| >= 1
  {
    if |parts| == 1 then parts[0] else parts[0] + [sep] + Join(parts[1..], sep)
  }

  /** Joining the pieces with the separator gives back the string. */
  lemma {:induction false} SplitJoin(s: string, sep: char)
    ensures Join(Split(s, sep), sep) == s
  {
    if s != [] {
      var rest := Split(s[1..], sep);
      SplitJoin(s[1..], sep);
      JoinCons(s[0], rest, sep);
    }
  }

  /** Prepending a character to the first piece prepends it to the join. */
  lemma JoinCons(c: char, parts: seq<string>, sep: char)
    requires |parts| >= 1
    ensures Join([[c] + parts[0]] + parts[1..], sep) == [c] + Join(parts, sep)
    ensures Join([""] + parts, sep) == [sep] + Join(parts, sep)
  {
    var q := [[c] + parts[0]] + parts[1..];
    assert ([""] + parts)[1..] == parts;
    if |parts| > 1 {
      assert q[1..] == parts[1..];
    }
  }

  /** No piece contains the separator. */
  lemma {:induction false} SplitPiecesFree(s: string, sep: char)
    ensures forall k :: 0 <= k < |Split(s, sep)| ==> sep !in Split(s, sep)[k]
  {
    if s != [] {
      var rest := Split(s[1..], sep);
      SplitPiecesFree(s[1..], sep);
      if s[0] != sep {
        assert forall k :: 1 <= k < |rest| ==> ([[s[0]] + rest[0]] + rest[1..])[k] == rest[k];
      }
    }
  }

  /** A string without the separator is a single piece. */
  lemma {:induction false} SplitWithout(t: string, sep: char)
    requires sep !in t
    ensures Split(t, sep) == [t]
  {
    if t != [] {
      SplitWithout(t[1..], sep);
      assert t == [t[0]] + t[1..];
    }
  }

  /** The separator-free prefix `p` and the separator after it form the first piece. */
  lemma {:induction false} SplitAfter(p: string, sep: char, t: string)
    requires sep !in p
    ensures Split(p + [sep] + t, sep) == [p] + Split(t, sep)
  {
    if p == [] {
      assert [sep] + t == p + [sep] + t;
      assert ([sep] + t)[1..] == t;
    } else {
      var s := p + [sep] + t;
      assert s[1..] == p[1..] + [sep] + t;
      SplitAfter(p[1..], sep, t);
      assert [s[0]] + p[1..] == p;
    }
  }

  /** The first piece is the longest separator-free prefix. */
  lemma {:induction false} SplitHead(t: string, sep: char)
    ensures var h := Split(t, sep)[0];
      && h <= t
      && sep !in h
      && (|h| == |t| || t[|h|] == sep)
  {
    if t != [] {
      SplitHead(t[1..], sep);
    }
  }
}
