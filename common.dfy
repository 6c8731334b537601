// Shared vocabulary: optional values, JavaScript string helpers and
// order-preserving filters over sequences.

module Wrappers {
  datatype Option<T> = None | Some(value: T)
  {
    function GetOr(default: T): T
    {
      if Some? then value else default
    }
  }
}

module Text {
  import opened Wrappers

  /** JavaScript's `toLowerCase`, restricted to the ASCII letters. */
  function LowerChar(c: char): (r: char)
    ensures 'A' <= c <= 'Z' ==> r as int == c as int + 32
    ensures !('A' <= c <= 'Z') ==> r == c
  {
    if 'A' <= c <= 'Z' then (c as int + 32) as char else c
  }

  function Lower(s: string): (r: string)
    ensures |r| == |s|
    ensures forall i :: 0 <= i < |s| ==> r[i] == LowerChar(s[i])
  {
    if s == [] then [] else [LowerChar(s[0])] + Lower(s[1..])
  }

  lemma LowerIdempotent(s: string)
    ensures Lower(Lower(s)) == Lower(s)
  {
    var l := Lower(s);
    assert forall i :: 0 <= i < |l| ==> LowerChar(l[i]) == l[i];
    assert Lower(l) == l;
  }

  /** `s.startsWith(p)` */
  predicate StartsWith(s: string, p: string)
  {
    |p| <= |s| && s[..|p|] == p
  }

  /** `s.endsWith(x)` */
  predicate EndsWith(s: string, x: string)
  {
    |x| <= |s| && s[|s| - |x|..] == x
  }

  lemma StartsWithConcat(a: string, b: string)
    ensures StartsWith(a + b, a)
  {
    assert (a + b)[..|a|] == a;
  }

  /** A suffix no longer than `b` is a suffix of `a + b` exactly when it is one of `b`. */
  lemma EndsWithConcat(a: string, b: string, x: string)
    requires |x| <= |b|
    ensures EndsWith(a + b, x) <==> EndsWith(b, x)
  {
    assert (a + b)[|a + b| - |x|..] == b[|b| - |x|..];
  }

  /** `s.includes(sub)`: some position of `s` starts a copy of `sub`. */
  predicate Contains(s: string, sub: string)
    decreases |s|
  {
    StartsWith(s, sub) || (s != [] && Contains(s[1..], sub))
  }

  lemma {:induction false} ContainsAt(s: string, sub: string, i: nat)
    requires i + |sub| <= |s| && s[i..i + |sub|] == sub
    ensures Contains(s, sub)
    decreases i
  {
    if i > 0 {
      assert s[1..][i - 1..i - 1 + |sub|] == sub;
      ContainsAt(s[1..], sub, i - 1);
    }
  }

  lemma {:induction false} ContainsWitness(s: string, sub: string) returns (i: nat)
    requires Contains(s, sub)
    ensures i + |sub| <= |s| && s[i..i + |sub|] == sub
    decreases |s|
  {
    if StartsWith(s, sub) {
      i := 0;
    } else {
      var j := ContainsWitness(s[1..], sub);
      assert s[1..][j..j + |sub|] == s[j + 1..j + 1 + |sub|];
      i := j + 1;
    }
  }

  lemma ContainsSelf(s: string)
    ensures Contains(s, s) && Contains(s, "")
  {
    assert StartsWith(s, s) && StartsWith(s, "");
  }

  /** `s.split(sep)` for a one-character separator: always at least one piece. */
  function Split(s: string, sep: char): (r: seq<string>)
    ensures |r| >= 1
  {
    if s == [] then [""]
    else
      var rest := Split(s[1..], sep);
      if s[0] == sep then [""] + rest else [[s[0]] + rest[0]] + rest[1..]
  }

  /** Two adjacent separators leave an empty piece between them. */
  lemma {:induction false} SplitAdjacent(s: string, sep: char, i: nat)
    requires i + 1 < |s| && s[i] == sep && s[i + 1] == sep
    ensures exists k :: 1 <= k < |Split(s, sep)| && Split(s, sep)[k] == ""
    decreases i
  {
    var rest := Split(s[1..], sep);
    if i == 0 {
      assert s[1..][0] == sep;
      assert rest[0] == "";
      assert Split(s, sep)[1] == "";
    } else {
      SplitAdjacent(s[1..], sep, i - 1);
      var k :| 1 <= k < |rest| && rest[k] == "";
      if s[0] == sep {
        assert Split(s, sep)[k + 1] == "";
      } else {
        assert Split(s, sep)[k] == rest[k];
      }
    }
  }

  /** `parts.join(sep)` */
  function Join(parts: seq<string>, sep: string): string
  {
    if parts == [] then ""
    else if |parts| == 1 then parts[0]
    else parts[0] + sep + Join(parts[1..], sep)
  }

  /** Joining the pieces with the separator gives back the string. */
  lemma {:induction false} SplitJoin(s: string, sep: char)
    ensures Join(Split(s, sep), [sep]) == s
  {
    if s != [] {
      var rest := Split(s[1..], sep);
      SplitJoin(s[1..], sep);
      if s[0] == sep {
        assert Join([""] + rest, [sep]) == [sep] + Join(rest, [sep]);
      } else {
        var r := Split(s, sep);
        assert r[1..] == rest[1..];
        if |rest| > 1 {
          assert Join(rest, [sep]) == rest[0] + [sep] + Join(rest[1..], [sep]);
        }
      }
    }
  }

  /** No piece holds the separator. */
  lemma {:induction false} SplitPiecesFree(s: string, sep: char)
    ensures forall k :: 0 <= k < |Split(s, sep)| ==> sep !in Split(s, sep)[k]
  {
    if s != [] {
      var rest := Split(s[1..], sep);
      SplitPiecesFree(s[1..], sep);
      var r := Split(s, sep);
      if s[0] != sep {
        forall k | 0 <= k < |r| ensures sep !in r[k] {
          if k > 0 { assert r[k] == rest[k]; }
        }
      }
    }
  }

  /**
   * The characters JavaScript's `trim` removes: the white space characters
   * (tab, vertical tab, form feed, space, no-break space, the byte order mark
   * and the space separators of Unicode category Zs) and the line terminators.
   */
  predicate IsSpace(c: char)
  {
    c == '\t' || c == '\n' || c == '\U{000B}' || c == '\U{000C}' || c == '\r' || c == ' '
    || c == '\U{00A0}' || c == '\U{1680}' || ('\U{2000}' <= c <= '\U{200A}')
    || c == '\U{2028}' || c == '\U{2029}' || c == '\U{202F}' || c == '\U{205F}' || c == '\U{3000}'
    || c == '\U{FEFF}'
  }

  /** Drops the leading white space, and nothing else. */
  function TrimStart(s: string): (r: string)
    ensures |r| <= |s| && r == s[|s| - |r|..]
    ensures r == [] || !IsSpace(r[0])
  {
    if s != [] && IsSpace(s[0]) then TrimStart(s[1..]) else s
  }

  /** Drops the trailing white space, and nothing else. */
  function TrimEnd(s: string): (r: string)
    ensures |r| <= |s| && r == s[..|r|]
    ensures r == [] || !IsSpace(r[|r| - 1])
  {
    if s != [] && IsSpace(s[|s| - 1]) then TrimEnd(s[..|s| - 1]) else s
  }

  /** `s.trim()` */
  function Trim(s: string): string
  {
    TrimEnd(TrimStart(s))
  }

  /** Trimming keeps every part of the text that starts and ends with a non-space character. */
  lemma TrimKeepsInner(a: string, t: string, b: string)
    requires t != [] && !IsSpace(t[0]) && !IsSpace(t[|t| - 1])
    ensures Contains(Trim(a + t + b), t)
  {
    var x := TrimWindow(a, t, b);
    ContainsAt(Trim(a + t + b), t, x);
  }

  /** Where `t` sits once the white space around `a + t + b` is trimmed. */
  lemma TrimWindow(a: string, t: string, b: string) returns (x: nat)
    requires t != [] && !IsSpace(t[0]) && !IsSpace(t[|t| - 1])
    ensures x + |t| <= |Trim(a + t + b)| && Trim(a + t + b)[x..x + |t|] == t
  {
    var s := a + t + b;
    assert s[|a|..|a| + |t|] == t;
    assert s[|a|] == t[0];
    TrimStartStops(s, |a|);
    var u := TrimStart(s);
    x := |a| - (|s| - |u|);
    assert u[x + |t| - 1] == s[|a| + |t| - 1] == t[|t| - 1];
    TrimEndStops(u, x + |t| - 1);
    var r := TrimEnd(u);
    Window(s, u, r, |a|, |a| + |t|);
  }

  /** A window of a prefix of a suffix is the shifted window of the whole. */
  lemma Window<T>(s: seq<T>, u: seq<T>, r: seq<T>, lo: nat, hi: nat)
    requires |u| <= |s| && u == s[|s| - |u|..] && |r| <= |u| && r == u[..|r|]
    requires |s| - |u| <= lo <= hi && hi - (|s| - |u|) <= |r|
    ensures r[lo - (|s| - |u|)..hi - (|s| - |u|)] == s[lo..hi]
  {
    var p := |s| - |u|;
    forall i | lo <= i < hi
      ensures r[i - p] == s[i]
    {
      assert r[i - p] == u[i - p];
    }
  }

  /** `TrimStart` stops at the first non-space character. */
  lemma {:induction false} TrimStartStops(s: string, k: nat)
    requires k < |s| && !IsSpace(s[k])
    ensures |s| - |TrimStart(s)| <= k
    decreases k
  {
    if k > 0 && IsSpace(s[0]) {
      TrimStartStops(s[1..], k - 1);
    }
  }

  /** `TrimEnd` stops at the last non-space character. */
  lemma {:induction false} TrimEndStops(s: string, k: nat)
    requires k < |s| && !IsSpace(s[k])
    ensures k < |TrimEnd(s)|
    decreases |s|
  {
    if k < |s| - 1 && IsSpace(s[|s| - 1]) {
      TrimEndStops(s[..|s| - 1], k);
    }
  }

  lemma TrimNoSpaces(s: string)
    requires s == [] || (!IsSpace(s[0]) && !IsSpace(s[|s| - 1]))
    ensures Trim(s) == s
  {
  }

  function DigitChar(d: nat): char
    requires d < 10
  {
    "0123456789"[d]
  }

  /** Decimal rendering of a non-negative number, as in a template literal. */
  function NatToString(n: nat): (r: string)
    ensures |r| >= 1
    ensures forall i :: 0 <= i < |r| ==> '0' <= r[i] <= '9'
    decreases n
  {
    if n < 10 then [DigitChar(n)] else NatToString(n / 10) + [DigitChar(n % 10)]
  }

  function IntToString(n: int): (r: string)
  {
    if n < 0 then "-" + NatToString(-n) else NatToString(n)
  }

  /** The `a || b` idiom on an optional string: an absent or empty value falls back. */
  function OrElse(s: Option<string>, fallback: string): (r: string)
    ensures s.Some? && s.value != "" ==> r == s.value
    ensures s.None? || s.value == "" ==> r == fallback
  {
    if s.Some? && s.value != "" then s.value else fallback
  }

  /** Lexicographic order on code points, standing in for `localeCompare`. */
  predicate LexLe(a: string, b: string)
    decreases |a|
  {
    a == [] || (b != [] && (a[0] < b[0] || (a[0] == b[0] && LexLe(a[1..], b[1..]))))
  }

  lemma {:induction false} LexLeTotal(a: string, b: string)
    ensures LexLe(a, b) || LexLe(b, a)
    decreases |a|
  {
    if a != [] && b != [] && a[0] == b[0] {
      LexLeTotal(a[1..], b[1..]);
    }
  }

  lemma {:induction false} LexLeTrans(a: string, b: string, c: string)
    requires LexLe(a, b) && LexLe(b, c)
    ensures LexLe(a, c)
    decreases |a|
  {
    if a != [] && a[0] == b[0] && b[0] == c[0] {
      LexLeTrans(a[1..], b[1..], c[1..]);
    }
  }

  lemma {:induction false} LexLeAntisym(a: string, b: string)
    requires LexLe(a, b) && LexLe(b, a)
    ensures a == b
    decreases |a|
  {
    if a != [] {
      LexLeAntisym(a[1..], b[1..]);
    }
  }
}

module Seqs {
  /** A prefix one longer is the prefix and the next element. */
  lemma PrefixStep<T>(s: seq<T>, i: nat)
    requires i < |s|
    ensures s[..i + 1] == s[..i] + [s[i]]
  {
  }

  /** The second of four joined pieces sits right after the first, and the third right after it. */
  lemma Middle<T>(a: seq<T>, b: seq<T>, c: seq<T>, d: seq<T>)
    ensures |a| + |b| <= |a + b + c + d| && (a + b + c + d)[|a|..|a| + |b|] == b
    ensures c != [] ==> (a + b + c + d)[|a| + |b|] == c[0]
  {
    assert (a + b + c + d)[|a|..|a| + |b|] == b;
  }

  /** `s.filter(p)`: the order-preserving sub-sequence of the elements satisfying `p`. */
  function Filter<T>(s: seq<T>, p: T -> bool): (r: seq<T>)
    ensures |r| <= |s|
    ensures forall i :: 0 <= i < |r| ==> p(r[i])
  {
    if s == [] then [] else (if p(s[0]) then [s[0]] else []) + Filter(s[1..], p)
  }

  lemma {:induction false} FilterAppend<T>(a: seq<T>, b: seq<T>, p: T -> bool)
    ensures Filter(a + b, p) == Filter(a, p) + Filter(b, p)
  {
    if a == [] {
      assert a + b == b;
    } else {
      assert (a + b)[1..] == a[1..] + b;
      FilterAppend(a[1..], b, p);
    }
  }

  /** Elements that fail `p` and elements that pass it together account for every element. */
  lemma {:induction false} FilterComplement<T>(s: seq<T>, p: T -> bool, q: T -> bool)
    requires forall x :: q(x) == !p(x)
    ensures |Filter(s, p)| + |Filter(s, q)| == |s|
  {
    if s != [] {
      FilterComplement(s[1..], p, q);
    }
  }

  /** Filtering with a predicate that implies another keeps fewer elements. */
  lemma {:induction false} FilterMonotone<T>(s: seq<T>, p: T -> bool, q: T -> bool)
    requires forall x :: p(x) ==> q(x)
    ensures |Filter(s, p)| <= |Filter(s, q)|
  {
    if s != [] {
      FilterMonotone(s[1..], p, q);
    }
  }

  /** Filtering with a predicate every element satisfies keeps the sequence. */
  lemma {:induction false} FilterAll<T>(s: seq<T>, p: T -> bool)
    requires forall i :: 0 <= i < |s| ==> p(s[i])
    ensures Filter(s, p) == s
  {
    if s != [] {
      FilterAll(s[1..], p);
    }
  }

  /** Filtering with a predicate no element satisfies leaves nothing. */
  lemma {:induction false} FilterNone<T>(s: seq<T>, p: T -> bool)
    requires forall i :: 0 <= i < |s| ==> !p(s[i])
    ensures Filter(s, p) == []
  {
    if s != [] {
      FilterNone(s[1..], p);
    }
  }

  /** Every element that satisfies `p` survives the filter: its count is kept. */
  lemma {:induction false} FilterKeepsMultiplicity<T>(s: seq<T>, p: T -> bool, x: T)
    requires p(x)
    ensures multiset(Filter(s, p))[x] == multiset(s)[x]
  {
    if s != [] {
      FilterKeepsMultiplicity(s[1..], p, x);
      assert s == [s[0]] + s[1..];
    }
  }

  /** An element is kept by the filter exactly when it occurs and satisfies `p`. */
  lemma {:induction false} FilterMembership<T>(s: seq<T>, p: T -> bool, x: T)
    ensures x in Filter(s, p) <==> x in s && p(x)
  {
    if s != [] {
      FilterMembership(s[1..], p, x);
      assert s == [s[0]] + s[1..];
    }
  }

  /** `s.map(f)` */
  function Map<T, U>(s: seq<T>, f: T -> U): (r: seq<U>)
    ensures |r| == |s|
    ensures forall i :: 0 <= i < |s| ==> r[i] == f(s[i])
  {
    if s == [] then [] else [f(s[0])] + Map(s[1..], f)
  }

  lemma MapAppend<T, U>(a: seq<T>, b: seq<T>, f: T -> U)
    ensures Map(a + b, f) == Map(a, f) + Map(b, f)
  {
    assert forall i :: 0 <= i < |a + b| ==> Map(a + b, f)[i] == (Map(a, f) + Map(b, f))[i];
  }

  /** The number of elements satisfying `p`. */
  function Count<T>(s: seq<T>, p: T -> bool): (n: nat)
    ensures n == |Filter(s, p)|
  {
    if s == [] then 0 else (if p(s[0]) then 1 else 0) + Count(s[1..], p)
  }

  function Sum(s: seq<nat>): nat
  {
    if s == [] then 0 else s[0] + Sum(s[1..])
  }

  lemma {:induction false} SumAppend(a: seq<nat>, b: seq<nat>)
    ensures Sum(a + b) == Sum(a) + Sum(b)
  {
    if a == [] {
      assert a + b == b;
    } else {
      assert (a + b)[1..] == a[1..] + b;
      SumAppend(a[1..], b);
    }
  }

  /**
   * Three pairwise exclusive predicates that each imply `u` count no more
   * than `u`, and exactly as many when together they cover `u`.
   */
  lemma {:induction false} CountPartition<T>(s: seq<T>, p: T -> bool, q: T -> bool, r: T -> bool, u: T -> bool)
    requires forall x :: (p(x) ==> u(x)) && (q(x) ==> u(x)) && (r(x) ==> u(x))
    requires forall x :: !(p(x) && q(x)) && !(p(x) && r(x)) && !(q(x) && r(x))
    ensures Count(s, p) + Count(s, q) + Count(s, r) <= Count(s, u)
    ensures (forall x :: u(x) ==> p(x) || q(x) || r(x)) ==> Count(s, p) + Count(s, q) + Count(s, r) == Count(s, u)
  {
    if s != [] {
      CountPartition(s[1..], p, q, r, u);
    }
  }
}
