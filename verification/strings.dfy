/** The `str` methods the harvesters use, for single-character separators:
    `find`, `count`, `split`, `join`, `replace` (with its count argument),
    `strip`, `rstrip`, and `str()` of an integer. */
module Strings {
  import opened Wrappers

  /** `s.find(c)`, with None standing for -1. */
  function Find(s: string, c: char): (r: Option<nat>)
    ensures r.None? <==> c !in s
    ensures r.Some? ==> r.value < |s| && s[r.value] == c && c !in s[..r.value]
  {
    if |s| == 0 then None
    else if s[0] == c then Some(0)
    else match Find(s[1..], c)
      case None => None
      case Some(i) =>
        assert s[..i + 1] == [s[0]] + s[1..][..i];
        Some(i + 1)
  }

  /** `s.count(c)`. */
  function Count(s: string, c: char): nat {
    if |s| == 0 then 0 else (if s[0] == c then 1 else 0) + Count(s[1..], c)
  }

  /** `sep.join(parts)`. */
  function Join(parts: seq<string>, sep: string): string {
    if |parts| == 0 then ""
    else if |parts| == 1 then parts[0]
    else parts[0] + sep + Join(parts[1..], sep)
  }

  /** `s.split(c)`: the maximal `c`-free pieces between separators. */
  function Split(s: string, c: char): (r: seq<string>)
    ensures |r| >= 1
    ensures forall i :: 0 <= i < |r| ==> c !in r[i]
    decreases |s|
  {
    match Find(s, c)
    case None => [s]
    case Some(i) => [s[..i]] + Split(s[i + 1..], c)
  }

  /** Splitting and re-joining on the same separator gives back the string. */
  lemma {:induction false} JoinSplit(s: string, c: char)
    ensures Join(Split(s, c), [c]) == s
    decreases |s|
  {
    match Find(s, c)
    case None =>
    case Some(i) =>
      var rest := Split(s[i + 1..], c);
      JoinSplit(s[i + 1..], c);
      assert Split(s, c) == [s[..i]] + rest;
      assert ([s[..i]] + rest)[1..] == rest;
      assert s == s[..i] + [c] + s[i + 1..];
  }

  /** Joining separator-free pieces and splitting again gives back the pieces. */
  lemma {:induction false} SplitJoin(parts: seq<string>, c: char)
    requires |parts| >= 1
    requires forall i :: 0 <= i < |parts| ==> c !in parts[i]
    ensures Split(Join(parts, [c]), c) == parts
    decreases |parts|
  {
    if |parts| > 1 {
      var p := parts[0];
      var t := Join(parts[1..], [c]);
      var s := p + [c] + t;
      assert Join(parts, [c]) == s;
      assert Split(s, c) == [p] + Split(t, c) by {
        FindFirst(p, c, t);
        assert s[..|p|] == p && s[|p| + 1..] == t;
      }
      assert Split(t, c) == parts[1..] by {
        assert forall i :: 0 <= i < |parts[1..]| ==> parts[1..][i] == parts[i + 1];
        SplitJoin(parts[1..], c);
      }
      assert parts == [p] + parts[1..];
    }
  }

  /** The first separator of `p + [c] + t`, for a separator-free `p`, is the
      one after `p`. */
  lemma {:induction false} FindFirst(p: string, c: char, t: string)
    requires c !in p
    ensures Find(p + [c] + t, c) == Some(|p|)
    decreases |p|
  {
    var s := p + [c] + t;
    if |p| == 0 {
      assert s[0] == c;
    } else {
      FindFirst(p[1..], c, t);
      assert s[0] == p[0] && s[1..] == p[1..] + [c] + t;
    }
  }

  /** The number of pieces is one more than the number of separators. */
  lemma {:induction false} SplitCount(s: string, c: char)
    ensures |Split(s, c)| == Count(s, c) + 1
    decreases |s|
  {
    match Find(s, c)
    case None => CountAbsent(s, c);
    case Some(i) =>
      SplitCount(s[i + 1..], c);
      assert Count(s, c) == Count(s[i + 1..], c) + 1 by {
        CountAppend(s[..i], s[i..], c);
        CountAbsent(s[..i], c);
        assert s[..i] + s[i..] == s;
        assert s[i..][0] == c && s[i..][1..] == s[i + 1..];
      }
  }

  lemma {:induction false} CountAbsent(s: string, c: char)
    requires c !in s
    ensures Count(s, c) == 0
    decreases |s|
  {
    if |s| > 0 {
      CountAbsent(s[1..], c);
    }
  }

  lemma {:induction false} CountAppend(a: string, b: string, c: char)
    ensures Count(a + b, c) == Count(a, c) + Count(b, c)
    decreases |a|
  {
    if |a| > 0 {
      CountAppend(a[1..], b, c);
      assert (a + b)[0] == a[0];
      assert (a + b)[1..] == a[1..] + b;
    } else {
      assert a + b == b;
    }
  }

  /** `s.replace(a, b, count)` for single characters: replaces the first `count`
      occurrences, or all of them when `count` is negative. */
  function Replace(s: string, a: char, b: char, count: int): (r: string)
    ensures |r| == |s|
    decreases |s|
  {
    if |s| == 0 then ""
    else if s[0] == a && count != 0 then
      [b] + Replace(s[1..], a, b, if count > 0 then count - 1 else count)
    else [s[0]] + Replace(s[1..], a, b, count)
  }

  /** Position by position, `Replace` rewrites exactly the occurrences of `a`
      that have fewer than `count` earlier occurrences (all of them when
      `count` is negative) and leaves every other character alone. */
  lemma {:induction false} ReplaceAt(s: string, a: char, b: char, count: int, i: int)
    requires 0 <= i < |s|
    ensures Replace(s, a, b, count)[i] ==
      if s[i] == a && (count < 0 || Count(s[..i], a) < count) then b else s[i]
    decreases |s|
  {
    if i > 0 {
      var count' := if s[0] == a && count != 0 then (if count > 0 then count - 1 else count) else count;
      ReplaceAt(s[1..], a, b, count', i - 1);
      assert s[..i] == [s[0]] + s[1..][..i - 1];
      assert Count(s[..i], a) == (if s[0] == a then 1 else 0) + Count(s[1..][..i - 1], a);
    }
  }

  /** A character that `str.strip()` removes: Python's whitespace, the
      characters for which `str.isspace()` holds. */
  predicate IsSpace(c: char) {
    ('\t' <= c <= '\r') || ('\U{1C}' <= c <= ' ') || c == '\U{85}' || c == '\U{A0}' || c == '\U{1680}'
    || ('\U{2000}' <= c <= '\U{200A}') || c == '\U{2028}' || c == '\U{2029}' || c == '\U{202F}'
    || c == '\U{205F}' || c == '\U{3000}'
  }

  /** `s.lstrip()`. */
  function TrimStart(s: string): (r: string)
    ensures |r| <= |s| && r == s[|s| - |r|..]
    ensures forall i :: 0 <= i < |s| - |r| ==> IsSpace(s[i])
    ensures |r| > 0 ==> !IsSpace(r[0])
  {
    if |s| > 0 && IsSpace(s[0]) then TrimStart(s[1..]) else s
  }

  /** `s.rstrip(c)` for one character `c`. */
  function TrimEnd(s: string, c: char): (r: string)
    ensures |r| <= |s| && r == s[..|r|]
    ensures forall i :: |r| <= i < |s| ==> s[i] == c
    ensures |r| > 0 ==> r[|r| - 1] != c
  {
    if |s| > 0 && s[|s| - 1] == c then TrimEnd(s[..|s| - 1], c) else s
  }

  /** `s.rstrip()` (whitespace). */
  function TrimEndSpace(s: string): (r: string)
    ensures |r| <= |s| && r == s[..|r|]
    ensures forall i :: |r| <= i < |s| ==> IsSpace(s[i])
    ensures |r| > 0 ==> !IsSpace(r[|r| - 1])
  {
    if |s| > 0 && IsSpace(s[|s| - 1]) then TrimEndSpace(s[..|s| - 1]) else s
  }

  /** `s.strip()`. */
  function Strip(s: string): string {
    TrimEndSpace(TrimStart(s))
  }

  function Digit(d: nat): (c: char)
    requires d < 10
    ensures '0' <= c <= '9'
  {
    (48 + d) as char
  }

  /** `str(n)` for a non-negative integer. */
  function NatToStr(n: nat): (r: string)
    ensures |r| >= 1
    ensures n >= 10 ==> |r| >= 2
    ensures forall i :: 0 <= i < |r| ==> '0' <= r[i] <= '9'
  {
    if n < 10 then [Digit(n)] else NatToStr(n / 10) + [Digit(n % 10)]
  }

  /** `str(i)`. */
  function IntToStr(i: int): string {
    if i < 0 then "-" + NatToStr(-i) else NatToStr(i)
  }

  /** Distinct numbers print differently, so `f"_dir{i}"` names never clash. */
  lemma {:induction false} NatToStrInjective(a: nat, b: nat)
    requires NatToStr(a) == NatToStr(b)
    ensures a == b
    decreases a
  {
    var ra, rb := NatToStr(a), NatToStr(b);
    if a >= 10 && b >= 10 {
      assert ra == NatToStr(a / 10) + [Digit(a % 10)];
      assert rb == NatToStr(b / 10) + [Digit(b % 10)];
      assert ra[..|ra| - 1] == NatToStr(a / 10);
      assert rb[..|rb| - 1] == NatToStr(b / 10);
      NatToStrInjective(a / 10, b / 10);
      assert ra[|ra| - 1] == Digit(a % 10);
      assert rb[|rb| - 1] == Digit(b % 10);
    } else if a < 10 && b < 10 {
      assert ra[0] == Digit(a) && rb[0] == Digit(b);
    }
  }

  /** Lexicographic order on strings, by code point (Python's `<=` on `str`). */
  predicate LexLe(a: string, b: string)
    decreases |a|
  {
    a == [] || (b != [] && (a[0] < b[0] || (a[0] == b[0] && LexLe(a[1..], b[1..]))))
  }

  lemma {:induction false} LexTotal(a: string, b: string)
    ensures LexLe(a, b) || LexLe(b, a)
    decreases |a|
  {
    if a != [] && b != [] && a[0] == b[0] { LexTotal(a[1..], b[1..]); }
  }

  lemma {:induction false} LexAntisymmetric(a: string, b: string)
    requires LexLe(a, b) && LexLe(b, a)
    ensures a == b
    decreases |a|
  {
    if a != [] {
      LexAntisymmetric(a[1..], b[1..]);
      assert a == [a[0]] + a[1..] && b == [b[0]] + b[1..];
    }
  }

  lemma {:induction false} LexTransitive(a: string, b: string, c: string)
    requires LexLe(a, b) && LexLe(b, c)
    ensures LexLe(a, c)
    decreases |a|
  {
    if a != [] && a[0] == b[0] && b[0] == c[0] { LexTransitive(a[1..], b[1..], c[1..]); }
  }

  /** `k` comes first in `keys`. */
  predicate IsLeast(k: string, keys: set<string>) {
    k in keys && forall j :: j in keys ==> LexLe(k, j)
  }

  /** A non-empty finite set of strings has a least element. */
  lemma {:induction false} LeastExists(keys: set<string>)
    requires keys != {}
    ensures exists k :: IsLeast(k, keys)
    decreases |keys|
  {
    var x :| x in keys;
    if keys != {x} {
      LeastExists(keys - {x});
      var m :| IsLeast(m, keys - {x});
      LexTotal(m, x);
      if LexLe(m, x) {
        assert IsLeast(m, keys);
      } else {
        forall j | j in keys ensures LexLe(x, j) {
          if j == x {
            LexLeRefl(x);
          } else {
            assert j in keys - {x};
            LexTransitive(x, m, j);
          }
        }
        assert IsLeast(x, keys);
      }
    } else {
      assert IsLeast(x, keys) by { LexLeRefl(x); }
    }
  }

  lemma {:induction false} LexLeRefl(a: string)
    ensures LexLe(a, a)
    decreases |a|
  {
    if a != [] { LexLeRefl(a[1..]); }
  }

  /** The least string of a non-empty set. */
  function Least(keys: set<string>): (k: string)
    requires keys != {}
    ensures IsLeast(k, keys)
  {
    LeastExists(keys);
    assert forall a, b :: IsLeast(a, keys) && IsLeast(b, keys) ==> a == b by {
      forall a, b | IsLeast(a, keys) && IsLeast(b, keys) ensures a == b { LexAntisymmetric(a, b); }
    }
    var k :| IsLeast(k, keys);
    k
  }

  /** The strings of a finite set, each once, in ascending order. */
  function Sorted(keys: set<string>): (r: seq<string>)
    ensures |r| == |keys|
    ensures forall k :: k in keys <==> k in r
    ensures forall i, j :: 0 <= i < j < |r| ==> r[i] != r[j]
    decreases |keys|
  {
    if keys == {} then []
    else
      var k := Least(keys);
      var rest := Sorted(keys - {k});
      var r := [k] + rest;
      assert forall j :: 0 <= j < |rest| ==> rest[j] != k;
      r
  }
}
