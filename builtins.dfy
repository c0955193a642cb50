/** The JavaScript built-ins on arrays and strings that the application relies on,
    stated over Dafny sequences so that the rest of the model can use them. */
module Builtins {

  datatype Option<+T> = None | Some(value: T)

  /** A value or the message of a thrown `Error`. */
  datatype Result<+T> = Ok(value: T) | Err(message: string)

  function Min(a: int, b: int): int { if a <= b then a else b }

  function Max(a: int, b: int): int { if a <= b then b else a }

  // ----- Array.prototype -----

  /** How `slice` reads one of its positions on an array of length `n`: a negative
      position counts from the end, and the result is clamped to `[0, n]`. */
  function SliceIndex(i: int, n: nat): (r: nat)
    ensures r <= n
    ensures 0 <= i ==> r == Min(i, n)
    ensures i < 0 ==> r == Max(n + i, 0)
  {
    if i < 0 then Max(n + i, 0) else Min(i, n)
  }

  /** `s.slice(start, end)`. */
  function Slice<T>(s: seq<T>, start: int, end: int): (r: seq<T>)
    ensures |r| <= |s|
    ensures forall i :: 0 <= i < |r| ==> r[i] in s
    ensures 0 <= start <= end ==> r == s[Min(start, |s|)..Min(end, |s|)]
    ensures start <= end ==> |r| <= end - start
  {
    var from, to := SliceIndex(start, |s|), SliceIndex(end, |s|);
    if from < to then s[from..to] else []
  }

  /** `s.filter(p)`: the elements that satisfy `p`, in their original order. */
  function Filter<T>(s: seq<T>, p: T -> bool): (r: seq<T>)
    ensures |r| <= |s|
    ensures forall i :: 0 <= i < |r| ==> r[i] in s && p(r[i])
  {
    if s == [] then [] else (if p(s[0]) then [s[0]] else []) + Filter(s[1..], p)
  }

  /** Every element that passes the test survives the filter. */
  lemma {:induction false} FilterKeepsPassing<T>(s: seq<T>, p: T -> bool)
    ensures forall i :: 0 <= i < |s| && p(s[i]) ==> s[i] in Filter(s, p)
  {
    if s != [] {
      FilterKeepsPassing(s[1..], p);
      forall i | 0 <= i < |s| && p(s[i]) ensures s[i] in Filter(s, p) {
        if i > 0 {
          assert s[i] == s[1..][i - 1];
        }
      }
    }
  }

  /** Keeping everything keeps the sequence as it is. */
  lemma {:induction false} FilterKeepsAll<T>(s: seq<T>, p: T -> bool)
    requires forall x :: x in s ==> p(x)
    ensures Filter(s, p) == s
  {
    if s != [] {
      FilterKeepsAll(s[1..], p);
    }
  }

  /** Two tests that agree on every element filter alike. */
  lemma {:induction false} FilterCongruent<T>(s: seq<T>, p: T -> bool, q: T -> bool)
    requires forall x :: x in s ==> p(x) == q(x)
    ensures Filter(s, p) == Filter(s, q)
  {
    if s != [] {
      FilterCongruent(s[1..], p, q);
    }
  }

  /** The conjunction of two tests. */
  function Both<T>(p: T -> bool, q: T -> bool): T -> bool
  {
    x => p(x) && q(x)
  }

  /** Filtering twice is filtering once by both tests. */
  lemma {:induction false} FilterTwice<T>(s: seq<T>, p: T -> bool, q: T -> bool)
    ensures Filter(Filter(s, p), q) == Filter(s, Both(p, q))
  {
    var both := Both(p, q);
    if s != [] {
      FilterTwice(s[1..], p, q);
      assert Filter(s, both) == (if both(s[0]) then [s[0]] else []) + Filter(s[1..], both);
      if p(s[0]) {
        var once := Filter(s, p);
        assert once == [s[0]] + Filter(s[1..], p);
        assert once[1..] == Filter(s[1..], p);
        assert Filter(once, q) == (if q(s[0]) then [s[0]] else []) + Filter(once[1..], q);
      } else {
        assert Filter(s, p) == Filter(s[1..], p);
      }
    }
  }

  /** Every element that survives a filter lies above any bound that all elements lie above. */
  lemma {:induction false} FilterAbove<T>(s: seq<T>, p: T -> bool, rank: T -> int, bound: int)
    requires forall i :: 0 <= i < |s| ==> bound < rank(s[i])
    ensures forall i :: 0 <= i < |Filter(s, p)| ==> bound < rank(Filter(s, p)[i])
  {
    if s != [] {
      FilterAbove(s[1..], p, rank, bound);
    }
  }

  /** `s` is ranked strictly increasingly by `rank`. */
  ghost predicate Increasing<T>(s: seq<T>, rank: T -> int)
  {
    forall i, j :: 0 <= i < j < |s| ==> rank(s[i]) < rank(s[j])
  }

  /** The tail of an increasing list is increasing and lies above its head. */
  lemma IncreasingTail<T>(s: seq<T>, rank: T -> int)
    requires s != [] && Increasing(s, rank)
    ensures Increasing(s[1..], rank)
    ensures forall i :: 0 <= i < |s[1..]| ==> rank(s[0]) < rank(s[1..][i])
  {
    var tail := s[1..];
    forall i, j | 0 <= i < j < |tail| ensures rank(tail[i]) < rank(tail[j]) {
      assert tail[i] == s[i + 1] && tail[j] == s[j + 1];
    }
    forall i | 0 <= i < |tail| ensures rank(s[0]) < rank(tail[i]) {
      assert tail[i] == s[i + 1];
    }
  }

  /** An element below every element of an increasing list can go in front of it. */
  lemma IncreasingCons<T>(x: T, rest: seq<T>, rank: T -> int)
    requires Increasing(rest, rank)
    requires forall i :: 0 <= i < |rest| ==> rank(x) < rank(rest[i])
    ensures Increasing([x] + rest, rank)
  {
    var r := [x] + rest;
    forall i, j | 0 <= i < j < |r| ensures rank(r[i]) < rank(r[j]) {
      assert r[j] == rest[j - 1];
      if i > 0 {
        assert r[i] == rest[i - 1];
      }
    }
  }

  /** Filtering keeps the relative order of the elements it keeps. */
  lemma {:induction false} FilterKeepsOrder<T>(s: seq<T>, p: T -> bool, rank: T -> int)
    requires Increasing(s, rank)
    ensures Increasing(Filter(s, p), rank)
  {
    if s != [] {
      IncreasingTail(s, rank);
      FilterKeepsOrder(s[1..], p, rank);
      FilterAbove(s[1..], p, rank, rank(s[0]));
      if p(s[0]) {
        assert Filter(s, p) == [s[0]] + Filter(s[1..], p);
        IncreasingCons(s[0], Filter(s[1..], p), rank);
      } else {
        assert Filter(s, p) == Filter(s[1..], p);
      }
    }
  }

  /** `s.findIndex(p)`: the position of the first element that satisfies `p`, or -1. */
  function FindIndex<T>(s: seq<T>, p: T -> bool): (r: int)
    ensures -1 <= r < |s|
    ensures 0 <= r ==> p(s[r]) && forall j :: 0 <= j < r ==> !p(s[j])
    ensures r == -1 <==> forall j :: 0 <= j < |s| ==> !p(s[j])
  {
    if s == [] then -1
    else if p(s[0]) then 0
    else
      var k := FindIndex(s[1..], p);
      if k == -1 then -1 else k + 1
  }

  /** `s.find(p)`: the first element that satisfies `p`, if there is one. */
  function Find<T>(s: seq<T>, p: T -> bool): (r: Option<T>)
    ensures r.None? <==> forall j :: 0 <= j < |s| ==> !p(s[j])
    ensures r.Some? ==> exists k :: 0 <= k < |s| && s[k] == r.value && p(s[k]) &&
                                    forall j :: 0 <= j < k ==> !p(s[j])
  {
    var k := FindIndex(s, p);
    if k < 0 then None else Some(s[k])
  }

  // ----- String.prototype -----

  /** A string is modelled as a sequence of characters; `toLowerCase` folds the ASCII
      capitals. */
  function LowerChar(c: char): char
  {
    if 'A' <= c <= 'Z' then (c as int + 32) as char else c
  }

  function ToLowerCase(s: string): (r: string)
    ensures |r| == |s|
    ensures forall i :: 0 <= i < |s| ==> r[i] == LowerChar(s[i])
  {
    seq(|s|, i requires 0 <= i < |s| => LowerChar(s[i]))
  }

  /** `s.includes(sub)`: `sub` occurs in `s` at some position. */
  predicate Includes(s: string, sub: string)
    decreases |s|
  {
    sub <= s || (s != [] && Includes(s[1..], sub))
  }

  /** `s.substring(start, end)`: both ends are clamped to `[0, |s|]` and swapped when out
      of order. */
  function Substring(s: string, start: int, end: int): (r: string)
    ensures 0 <= start <= end ==> r == s[Min(start, |s|)..Min(end, |s|)]
  {
    var a, b := Max(0, Min(start, |s|)), Max(0, Min(end, |s|));
    s[Min(a, b)..Max(a, b)]
  }

  /** The characters `trim` removes: the white space and line terminators of ECMAScript
      (section 12.2 and 12.3 of ECMA-262). */
  predicate IsWhiteSpace(c: char)
  {
    var n := c as int;
    n == 0x09 || n == 0x0A || n == 0x0B || n == 0x0C || n == 0x0D || n == 0x20 ||
    n == 0xA0 || n == 0x1680 || (0x2000 <= n <= 0x200A) || n == 0x2028 || n == 0x2029 ||
    n == 0x202F || n == 0x205F || n == 0x3000 || n == 0xFEFF
  }

  function TrimStart(s: string): (r: string)
    ensures |r| <= |s| && r == s[|s| - |r|..]
    ensures r != [] ==> !IsWhiteSpace(r[0])
    ensures forall i :: 0 <= i < |s| - |r| ==> IsWhiteSpace(s[i])
  {
    if s != [] && IsWhiteSpace(s[0]) then TrimStart(s[1..]) else s
  }

  function TrimEnd(s: string): (r: string)
    ensures |r| <= |s| && r == s[..|r|]
    ensures r != [] ==> !IsWhiteSpace(r[|r| - 1])
    ensures forall i :: |r| <= i < |s| ==> IsWhiteSpace(s[i])
  {
    if s != [] && IsWhiteSpace(s[|s| - 1]) then TrimEnd(s[..|s| - 1]) else s
  }

  /** `s.trim()`. */
  function Trim(s: string): string
  {
    TrimEnd(TrimStart(s))
  }

  /** A string of decimal digits has no white space to trim. */
  lemma TrimKeepsDigits(s: string)
    ensures AllDigits(s) ==> Trim(s) == s
  {
    if AllDigits(s) && s != [] {
      assert !IsWhiteSpace(s[0]) && !IsWhiteSpace(s[|s| - 1]);
      assert TrimStart(s) == s;
    }
  }

  /** `s.trim()` is empty exactly when every character of `s` is white space. */
  lemma TrimEmpty(s: string)
    ensures Trim(s) == [] <==> forall i :: 0 <= i < |s| ==> IsWhiteSpace(s[i])
  {
    var t := TrimStart(s);
    var r := TrimEnd(t);
    if r == [] {
      forall i | 0 <= i < |s| ensures IsWhiteSpace(s[i]) {
        if i >= |s| - |t| {
          assert s[i] == t[i - (|s| - |t|)];
        }
      }
    } else {
      assert r[0] == t[0];
      assert t[0] == s[|s| - |t|];
      assert !IsWhiteSpace(s[|s| - |t|]);
    }
  }

  // ----- Number(...) -----

  function DigitValue(c: char): nat
    requires '0' <= c <= '9'
  {
    c as int - '0' as int
  }

  predicate AllDigits(s: string)
  {
    forall i :: 0 <= i < |s| ==> '0' <= s[i] <= '9'
  }

  /** The value of a string of decimal digits. */
  function DecimalValue(s: string): (r: nat)
    requires AllDigits(s)
  {
    if s == [] then 0 else DecimalValue(s[..|s| - 1]) * 10 + DigitValue(s[|s| - 1])
  }

  /** `Number(s)` on the integers written in decimal with an optional sign, after `trim`;
      the empty string reads as 0 and anything else as `NaN`, which is `None` here. */
  function ParseNumber(s: string): (r: Option<int>)
    ensures AllDigits(s) && s != [] ==> r == Some(DecimalValue(s))
  {
    TrimKeepsDigits(s);
    var t := Trim(s);
    if t == [] then Some(0)
    else if t[0] == '-' && |t| > 1 && AllDigits(t[1..]) then Some(0 - DecimalValue(t[1..]) as int)
    else if t[0] == '+' && |t| > 1 && AllDigits(t[1..]) then Some(DecimalValue(t[1..]))
    else if AllDigits(t) then Some(DecimalValue(t))
    else None
  }
}
