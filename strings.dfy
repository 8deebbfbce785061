/**
 * Text utilities (include/osu_reader/string_stuff.h, src/string_stuff.cpp):
 * prefix test, whitespace trimming in three forms, and `split`.
 * Strings are C++ byte strings; each `char` here holds one byte.
 */
module Strings {

  /** `std::isspace` in the "C" locale. */
  predicate IsSpace(c: char)
  {
    c == ' ' || c == '\t' || c == '\n' || c == '\U{000B}' || c == '\U{000C}' || c == '\r'
  }

  /** `starts_with`: `s.rfind(prefix, 0) == 0`, a character-wise comparison at position 0. */
  function StartsWith(s: string, prefix: string): (r: bool)
    ensures r <==> prefix <= s
  {
    if prefix == [] then true
    else s != [] && s[0] == prefix[0] && StartsWith(s[1..], prefix[1..])
  }

  /** `ltrim_view`: the view that starts at the first non-space character. */
  function LtrimView(s: string): (r: string)
    ensures |r| <= |s|
  {
    if s != [] && IsSpace(s[0]) then LtrimView(s[1..]) else s
  }

  /** `rtrim_view`: the view that ends at the last non-space character. */
  function RtrimView(s: string): string
  {
    if s != [] && IsSpace(s[|s| - 1]) then RtrimView(s[..|s| - 1]) else s
  }

  /**
   * The left trim is a suffix of `s` that is empty or starts with a non-space,
   * and every character it drops is whitespace.
   */
  lemma {:induction false} LtrimViewSpec(s: string)
    ensures |LtrimView(s)| <= |s| && LtrimView(s) == s[|s| - |LtrimView(s)|..]
    ensures LtrimView(s) == [] || !IsSpace(LtrimView(s)[0])
    ensures forall i :: 0 <= i < |s| - |LtrimView(s)| ==> IsSpace(s[i])
    decreases |s|
  {
    if s != [] && IsSpace(s[0]) {
      LtrimViewSpec(s[1..]);
      var r := LtrimView(s);
      assert s[1..][|s| - 1 - |r|..] == s[|s| - |r|..];
      forall i | 0 <= i < |s| - |r|
        ensures IsSpace(s[i])
      {
        if i > 0 {
          assert s[i] == s[1..][i - 1];
        }
      }
    }
  }

  /**
   * The right trim is a prefix of `s` that is empty or ends with a non-space,
   * and every character it drops is whitespace.
   */
  lemma {:induction false} RtrimViewSpec(s: string)
    ensures |RtrimView(s)| <= |s| && RtrimView(s) == s[..|RtrimView(s)|]
    ensures RtrimView(s) == [] || !IsSpace(RtrimView(s)[|RtrimView(s)| - 1])
    ensures forall i :: |RtrimView(s)| <= i < |s| ==> IsSpace(s[i])
    decreases |s|
  {
    if s != [] && IsSpace(s[|s| - 1]) {
      RtrimViewSpec(s[..|s| - 1]);
      var r := RtrimView(s);
      assert s[..|s| - 1][..|r|] == s[..|r|];
    }
  }

  /** `trim_view`. */
  function TrimView(s: string): string
  {
    LtrimView(RtrimView(s))
  }

  /** A string that has no leading whitespace is its own left trim. */
  lemma LtrimViewFixed(s: string)
    requires s == [] || !IsSpace(s[0])
    ensures LtrimView(s) == s
  {
  }

  /** A string that has no trailing whitespace is its own right trim. */
  lemma RtrimViewFixed(s: string)
    requires s == [] || !IsSpace(s[|s| - 1])
    ensures RtrimView(s) == s
  {
  }

  /** Trimming an already trimmed view changes nothing. */
  lemma TrimViewIdempotent(s: string)
    ensures TrimView(TrimView(s)) == TrimView(s)
  {
    var t := TrimView(s);
    var r := RtrimView(s);
    RtrimViewSpec(s);
    LtrimViewSpec(r);
    assert t == r[|r| - |t|..];
    assert t == [] || !IsSpace(t[|t| - 1]);
    RtrimViewFixed(t);
    LtrimViewFixed(t);
  }

  /** Dropping the leading blanks first gives the same text. */
  lemma {:induction false} TrimCommutes(s: string)
    ensures TrimView(s) == RtrimView(LtrimView(s))
    decreases |s|
  {
    if s != [] && IsSpace(s[0]) {
      var r := RtrimView(s);
      if r == [] {
        // Every character of s is whitespace.
        RtrimViewSpec(s);
        AllSpaceTrimsToEmpty(s);
      } else {
        RtrimDropFront(s);
        assert TrimView(s) == TrimView(s[1..]);
        TrimCommutes(s[1..]);
      }
    } else {
      RtrimViewSpec(s);
      LtrimViewFixed(RtrimView(s));
    }
  }

  lemma {:induction false} AllSpaceTrimsToEmpty(s: string)
    requires forall i :: 0 <= i < |s| ==> IsSpace(s[i])
    ensures LtrimView(s) == [] && RtrimView(s) == []
    decreases |s|
  {
    if s != [] {
      assert IsSpace(s[0]) && IsSpace(s[|s| - 1]);
      AllSpaceTrimsToEmpty(s[1..]);
      AllSpaceTrimsToEmpty(s[..|s| - 1]);
    }
  }

  /** Removing a leading blank of a string with some non-blank keeps its right trim's tail. */
  lemma {:induction false} RtrimDropFront(s: string)
    requires s != [] && IsSpace(s[0]) && RtrimView(s) != []
    ensures RtrimView(s) == [s[0]] + RtrimView(s[1..])
    decreases |s|
  {
    if IsSpace(s[|s| - 1]) {
      assert s[..|s| - 1][1..] == s[1..][..|s| - 2];
      RtrimDropFront(s[..|s| - 1]);
    }
  }

  /** A `std::string` passed by non-const reference to the in-place trims. */
  class StdString {
    var chars: string

    constructor (s: string)
      ensures chars == s
    {
      chars := s;
    }
  }

  /** `ltrim`: erase up to the first non-space character, return the same string. */
  method Ltrim(s: StdString) returns (r: StdString)
    modifies s
    ensures r == s && s.chars == LtrimView(old(s.chars))
  {
    var k := 0;
    while k < |s.chars| && IsSpace(s.chars[k])
      invariant 0 <= k <= |s.chars|
      invariant forall i :: 0 <= i < k ==> IsSpace(s.chars[i])
    {
      k := k + 1;
    }
    LtrimViewAt(s.chars, k);
    s.chars := s.chars[k..];
    r := s;
  }

  /** `rtrim`: erase after the last non-space character, return the same string. */
  method Rtrim(s: StdString) returns (r: StdString)
    modifies s
    ensures r == s && s.chars == RtrimView(old(s.chars))
  {
    var k := |s.chars|;
    while k > 0 && IsSpace(s.chars[k - 1])
      invariant 0 <= k <= |s.chars|
      invariant forall i :: k <= i < |s.chars| ==> IsSpace(s.chars[i])
    {
      k := k - 1;
    }
    RtrimViewAt(s.chars, k);
    s.chars := s.chars[..k];
    r := s;
  }

  /** `trim`: `ltrim` then `rtrim` on the same string. */
  method Trim(s: StdString) returns (r: StdString)
    modifies s
    ensures r == s && s.chars == RtrimView(LtrimView(old(s.chars)))
    ensures s.chars == TrimView(old(s.chars))
  {
    var _ := Ltrim(s);
    r := Rtrim(s);
    TrimCommutes(old(s.chars));
  }

  /** `ltrim_copy`: trims a copy; the caller's text is a value and stays as it was. */
  method LtrimCopy(s: string) returns (r: string)
    ensures r == LtrimView(s)
  {
    var copy := new StdString(s);
    var _ := Ltrim(copy);
    r := copy.chars;
  }

  method RtrimCopy(s: string) returns (r: string)
    ensures r == RtrimView(s)
  {
    var copy := new StdString(s);
    var _ := Rtrim(copy);
    r := copy.chars;
  }

  method TrimCopy(s: string) returns (r: string)
    ensures r == TrimView(s)
  {
    var copy := new StdString(s);
    var _ := Trim(copy);
    r := copy.chars;
  }

  /** The position `find_if` stops at determines the left trim. */
  lemma {:induction false} LtrimViewAt(s: string, k: nat)
    requires k <= |s|
    requires forall i :: 0 <= i < k ==> IsSpace(s[i])
    requires k == |s| || !IsSpace(s[k])
    ensures LtrimView(s) == s[k..]
  {
    if k > 0 {
      LtrimViewAt(s[1..], k - 1);
      assert s[1..][k - 1..] == s[k..];
    }
  }

  /** The position the reverse `find_if` stops at determines the right trim. */
  lemma {:induction false} RtrimViewAt(s: string, k: nat)
    requires k <= |s|
    requires forall i :: k <= i < |s| ==> IsSpace(s[i])
    requires k == 0 || !IsSpace(s[k - 1])
    ensures RtrimView(s) == s[..k]
    decreases |s|
  {
    if k < |s| {
      RtrimViewAt(s[..|s| - 1], k);
      assert s[..|s| - 1][..k] == s[..k];
    }
  }

  // ---------------------------------------------------------------------
  // split

  /** The tokens of `s`: its maximal non-empty runs free of `d`, left to right. */
  function Tokens(s: string, d: char): seq<string>
  {
    TokensFrom(s, d, 0)
  }

  /** The tokens of `s[start..]`. */
  function TokensFrom(s: string, d: char, start: nat): seq<string>
    requires start <= |s|
    decreases |s| - start
  {
    var e := RunEnd(s, d, start);
    var later := if e == |s| then [] else TokensFrom(s, d, e + 1);
    if e == start then later else [s[start..e]] + later
  }

  /** Where each token of `TokensFrom(s, d, start)` begins in `s`. */
  function TokenStartsFrom(s: string, d: char, start: nat): seq<nat>
    requires start <= |s|
    decreases |s| - start
  {
    var e := RunEnd(s, d, start);
    var later := if e == |s| then [] else TokenStartsFrom(s, d, e + 1);
    if e == start then later else [start] + later
  }

  /** `t` is the text of `s` at `p`, at or after `start`. */
  predicate SitsAt(s: string, start: nat, p: nat, t: string)
  {
    start <= p && p + |t| <= |s| && s[p..p + |t|] == t
  }

  /** One step of `TokenStartsFrom` and of `TokensFrom`: the run at `start`, if any, then the rest. */
  lemma TokensUnfold(s: string, d: char, start: nat)
    requires start <= |s|
    ensures var e := RunEnd(s, d, start);
      var r1: seq<nat> := if e == |s| then [] else TokenStartsFrom(s, d, e + 1);
      var t1 := if e == |s| then [] else TokensFrom(s, d, e + 1);
      && (e == start ==> TokenStartsFrom(s, d, start) == r1 && TokensFrom(s, d, start) == t1)
      && (e != start ==> TokenStartsFrom(s, d, start) == [start] + r1 && TokensFrom(s, d, start) == [s[start..e]] + t1)
  {
    StartsUnfold(s, d, start);
    TokensFromUnfold(s, d, start);
  }

  lemma StartsUnfold(s: string, d: char, start: nat)
    requires start <= |s|
    ensures var e := RunEnd(s, d, start);
      var r1: seq<nat> := if e == |s| then [] else TokenStartsFrom(s, d, e + 1);
      TokenStartsFrom(s, d, start) == if e == start then r1 else [start] + r1
  {
    hide RunEnd, TokensFrom;
  }

  lemma TokensFromUnfold(s: string, d: char, start: nat)
    requires start <= |s|
    ensures var e := RunEnd(s, d, start);
      var t1 := if e == |s| then [] else TokensFrom(s, d, e + 1);
      TokensFrom(s, d, start) == if e == start then t1 else [s[start..e]] + t1
  {
    hide RunEnd, TokenStartsFrom;
  }

  /** There is one start per token. */
  lemma {:induction false} TokenStartsLength(s: string, d: char, start: nat)
    requires start <= |s|
    ensures |TokenStartsFrom(s, d, start)| == |TokensFrom(s, d, start)|
    decreases |s| - start
  {
    UnfoldLengths(s, d, start);
    hide *;
    var e := RunEnd(s, d, start);
    if e < |s| {
      TokenStartsLength(s, d, e + 1);
    }
  }

  lemma UnfoldLengths(s: string, d: char, start: nat)
    requires start <= |s|
    ensures var e := RunEnd(s, d, start);
      var here := if e == start then 0 else 1;
      && |TokenStartsFrom(s, d, start)| == here + (if e == |s| then 0 else |TokenStartsFrom(s, d, e + 1)|)
      && |TokensFrom(s, d, start)| == here + (if e == |s| then 0 else |TokensFrom(s, d, e + 1)|)
  {
    TokensUnfold(s, d, start);
  }

  /** Token `k` sits in `s` at start `k`. */
  lemma {:induction false} TokenStartAt(s: string, d: char, start: nat, k: nat)
    requires start <= |s| && k < |TokenStartsFrom(s, d, start)|
    ensures k < |TokensFrom(s, d, start)|
    ensures SitsAt(s, start, TokenStartsFrom(s, d, start)[k], TokensFrom(s, d, start)[k])
    decreases |s| - start
  {
    hide *;
    var e := RunEnd(s, d, start);
    if e == start || k > 0 {
      TokenStartNext(s, d, start, k);
      TokenStartAt(s, d, e + 1, LaterIndex(e, start, k));
    }
    TokenStartStep(s, d, start, k);
  }

  /** The index, among the tokens after the run at `start` ending at `e`, of token `k`. */
  function LaterIndex(e: nat, start: nat, k: nat): nat
  {
    if e == start || k == 0 then k else k - 1
  }

  /** Token `k` is not the run at `start`, so it is a later token. */
  lemma TokenStartNext(s: string, d: char, start: nat, k: nat)
    requires start <= |s| && k < |TokenStartsFrom(s, d, start)|
    requires RunEnd(s, d, start) == start || k > 0
    ensures RunEnd(s, d, start) < |s|
    ensures LaterIndex(RunEnd(s, d, start), start, k) < |TokenStartsFrom(s, d, RunEnd(s, d, start) + 1)|
  {
    TokensUnfold(s, d, start);
    hide *;
  }

  /** One step of `TokenStartAt`, given the fact for the later tokens. */
  lemma TokenStartStep(s: string, d: char, start: nat, k: nat)
    requires start <= |s| && k < |TokenStartsFrom(s, d, start)|
    requires var e := RunEnd(s, d, start);
      (e == start || k > 0) ==>
        && e < |s|
        && LaterIndex(e, start, k) < |TokenStartsFrom(s, d, e + 1)|
        && LaterIndex(e, start, k) < |TokensFrom(s, d, e + 1)|
        && SitsAt(s, e + 1, TokenStartsFrom(s, d, e + 1)[LaterIndex(e, start, k)], TokensFrom(s, d, e + 1)[LaterIndex(e, start, k)])
    ensures k < |TokensFrom(s, d, start)|
    ensures SitsAt(s, start, TokenStartsFrom(s, d, start)[k], TokensFrom(s, d, start)[k])
  {
    TokenStartsLength(s, d, start);
    TokensUnfold(s, d, start);
    hide *;
    var e := RunEnd(s, d, start);
    var r := TokenStartsFrom(s, d, start);
    var ts := TokensFrom(s, d, start);
    if e == start {
      SitsLater(s, start, e + 1, r[k], ts[k]);
    } else if k == 0 {
      SitsRun(s, start, e);
    } else {
      var r1 := TokenStartsFrom(s, d, e + 1);
      var t1 := TokensFrom(s, d, e + 1);
      ConsAt(r, start, r1, k);
      ConsAt(ts, s[start..e], t1, k);
      SitsLater(s, start, e + 1, r1[k - 1], t1[k - 1]);
    }
  }

  lemma ConsAt<T>(r: seq<T>, x: T, r1: seq<T>, k: nat)
    requires r == [x] + r1 && 0 < k < |r|
    ensures k - 1 < |r1| && r[k] == r1[k - 1]
  {
  }

  /** A run sits where it starts. */
  lemma SitsRun(s: string, start: nat, e: nat)
    requires start <= e <= |s|
    ensures SitsAt(s, start, start, s[start..e])
  {
  }

  /** What sits at or after `later` sits at or after any `start` up to it. */
  lemma SitsLater(s: string, start: nat, later: nat, p: nat, t: string)
    requires start <= later && SitsAt(s, later, p, t)
    ensures SitsAt(s, start, p, t)
  {
  }

  /**
   * A `std::string_view` token also sees the text after it: for each token of
   * `s`, the text of `buf` from the token's first character on, where `buf`
   * is the text from the first character of `s` on.
   */
  function TokenRests(s: string, d: char, buf: string): (r: seq<string>)
    requires PrefixOf(s, buf)
    ensures Anchored(Tokens(s, d), r)
    ensures forall k :: 0 <= k < |r| ==> SuffixOf(r[k], buf)
  {
    var starts := TokenStartsFrom(s, d, 0);
    var ts := Tokens(s, d);
    TokenStartsLength(s, d, 0);
    assert ts == TokensFrom(s, d, 0);
    forall k | 0 <= k < |starts|
      ensures SitsAt(s, 0, starts[k], ts[k])
    {
      TokenStartAt(s, d, 0, k);
    }
    hide Tokens, TokensFrom, TokenStartsFrom, RunEnd;
    var r := seq(|starts|, k requires 0 <= k < |starts| => buf[starts[k]..]);
    forall k | 0 <= k < |r|
      ensures PrefixOf(ts[k], r[k]) && SuffixOf(r[k], buf)
    {
      SitsInBuffer(s, buf, starts[k], ts[k]);
    }
    r
  }

  /** Text that sits in `s` at `p` starts the end piece of `buf` from `p` on, when `s` starts `buf`. */
  lemma SitsInBuffer(s: string, buf: string, p: nat, t: string)
    requires PrefixOf(s, buf) && SitsAt(s, 0, p, t)
    ensures PrefixOf(t, buf[p..]) && SuffixOf(buf[p..], buf)
  {
    assert buf[p..][..|t|] == s[p..p + |t|];
  }

  /** `a` is the start of `b`. */
  predicate PrefixOf(a: string, b: string)
  {
    |a| <= |b| && b[..|a|] == a
  }

  /** `a` is the end of `b`. */
  predicate SuffixOf(a: string, b: string)
  {
    |a| <= |b| && b[|b| - |a|..] == a
  }

  lemma SuffixTrans(a: string, b: string, c: string)
    requires SuffixOf(a, b) && SuffixOf(b, c)
    ensures SuffixOf(a, c)
  {
    assert c[|c| - |a|..] == c[|c| - |b|..][|b| - |a|..];
  }

  /** Each token is the start of the text that goes with it. */
  predicate Anchored(ts: seq<string>, rests: seq<string>)
  {
    |ts| == |rests| && forall k :: 0 <= k < |ts| ==> PrefixOf(ts[k], rests[k])
  }

  /** `ltrim_view` on tokens that see the text after them: each text loses what its token loses. */
  function LtrimRests(ts: seq<string>, rests: seq<string>): (r: seq<string>)
    requires Anchored(ts, rests)
    ensures Anchored(LtrimAll(ts), r)
    ensures forall k :: 0 <= k < |r| ==> SuffixOf(r[k], rests[k])
  {
    var r := seq(|ts|, k requires 0 <= k < |ts| => rests[k][|ts[k]| - |LtrimView(ts[k])|..]);
    assert forall k :: 0 <= k < |ts| ==> PrefixOf(LtrimAll(ts)[k], r[k]) by {
      forall k | 0 <= k < |ts|
        ensures PrefixOf(LtrimAll(ts)[k], r[k])
      {
        LtrimViewSpec(ts[k]);
        var n := |ts[k]| - |LtrimView(ts[k])|;
        assert LtrimView(ts[k]) == rests[k][n..|ts[k]|];
      }
    }
    r
  }

  /** The first position at or after `start` that holds `d`, or `|s|`. */
  function RunEnd(s: string, d: char, start: nat): (e: nat)
    requires start <= |s|
    ensures start <= e <= |s|
    ensures e < |s| ==> s[e] == d
    decreases |s| - start
  {
    if start == |s| || s[start] == d then start else RunEnd(s, d, start + 1)
  }

  /** `s` holds no `d`. */
  predicate Free(s: string, d: char)
  {
    forall j :: 0 <= j < |s| ==> s[j] != d
  }

  lemma {:induction false} RunEndFree(s: string, d: char, start: nat)
    requires start <= |s|
    ensures forall j :: start <= j < RunEnd(s, d, start) ==> s[j] != d
    decreases |s| - start
  {
    if start < |s| && s[start] != d {
      RunEndFree(s, d, start + 1);
    }
  }

  /** The run starting at `start` ends at `e` when `e` is the first delimiter or the end. */
  lemma {:induction false} RunEndIs(s: string, d: char, start: nat, e: nat)
    requires start <= e <= |s| && (e < |s| ==> s[e] == d)
    requires forall j :: start <= j < e ==> s[j] != d
    ensures RunEnd(s, d, start) == e
    decreases e - start
  {
    if start < e {
      RunEndIs(s, d, start + 1, e);
    }
  }

  /** The characters of `s` from `start` on, other than `d`. */
  function WithoutFrom(s: string, d: char, start: nat): string
    requires start <= |s|
    decreases |s| - start
  {
    if start == |s| then []
    else (if s[start] == d then [] else [s[start]]) + WithoutFrom(s, d, start + 1)
  }

  function Concat(ts: seq<string>): string
  {
    if ts == [] then [] else ts[0] + Concat(ts[1..])
  }

  /** Concatenating the tokens gives the text with every delimiter removed. */
  lemma TokensConcat(s: string, d: char)
    ensures Concat(Tokens(s, d)) == WithoutFrom(s, d, 0)
  {
    TokensFromConcat(s, d, 0);
  }

  lemma {:induction false} TokensFromConcat(s: string, d: char, start: nat)
    requires start <= |s|
    ensures Concat(TokensFrom(s, d, start)) == WithoutFrom(s, d, start)
    decreases |s| - start
  {
    var e := RunEnd(s, d, start);
    RunEndFree(s, d, start);
    WithoutFromRun(s, d, start, e);
    var head := s[start..e];
    var first: seq<string> := if e == start then [] else [head];
    var rest := if e == |s| then [] else TokensFrom(s, d, e + 1);
    assert TokensFrom(s, d, start) == first + rest;
    ConcatAppend(first, rest);
    assert Concat(first) == head by {
      if e != start {
        assert Concat(first) == head + Concat([]);
      }
    }
    assert Concat(rest) == WithoutFrom(s, d, e) by {
      if e < |s| {
        TokensFromConcat(s, d, e + 1);
        assert WithoutFrom(s, d, e) == [] + WithoutFrom(s, d, e + 1);
      }
    }
    calc {
      Concat(TokensFrom(s, d, start));
      Concat(first + rest);
      Concat(first) + Concat(rest);
      head + WithoutFrom(s, d, e);
      WithoutFrom(s, d, start);
    }
  }

  lemma {:induction false} ConcatAppend(a: seq<string>, b: seq<string>)
    ensures Concat(a + b) == Concat(a) + Concat(b)
    decreases |a|
  {
    if a == [] {
      assert a + b == b;
    } else {
      assert (a + b)[0] == a[0];
      assert (a + b)[1..] == a[1..] + b;
      ConcatAppend(a[1..], b);
    }
  }

  /** A run free of `d` survives whole. */
  lemma {:induction false} WithoutFromRun(s: string, d: char, start: nat, e: nat)
    requires start <= e <= |s|
    requires forall j :: start <= j < e ==> s[j] != d
    ensures WithoutFrom(s, d, start) == s[start..e] + WithoutFrom(s, d, e)
    decreases e - start
  {
    if start < e {
      WithoutFromRun(s, d, start, e - 1);
      assert s[start..e] == s[start..e - 1] + [s[e - 1]];
      assert WithoutFrom(s, d, e - 1) == [s[e - 1]] + WithoutFrom(s, d, e);
    }
  }

  /** Every token is non-empty and free of the delimiter. */
  lemma TokensWellFormed(s: string, d: char)
    ensures forall k :: 0 <= k < |Tokens(s, d)| ==> Tokens(s, d)[k] != [] && Free(Tokens(s, d)[k], d)
  {
    TokensFromWellFormed(s, d, 0);
  }

  lemma {:induction false} TokensFromWellFormed(s: string, d: char, start: nat)
    requires start <= |s|
    ensures forall k :: 0 <= k < |TokensFrom(s, d, start)| ==>
      TokensFrom(s, d, start)[k] != [] && Free(TokensFrom(s, d, start)[k], d)
    decreases |s| - start
  {
    var e := RunEnd(s, d, start);
    RunEndFree(s, d, start);
    if e < |s| {
      TokensFromWellFormed(s, d, e + 1);
    }
  }

  /** A string without the delimiter is one token, or none when it is empty. */
  lemma TokensFree(s: string, d: char)
    requires Free(s, d)
    ensures Tokens(s, d) == if s == [] then [] else [s]
  {
    RunEndIs(s, d, 0, |s|);
    assert s[0..|s|] == s;
  }

  /** Two delimiter-free texts joined by one delimiter split back into exactly those two. */
  lemma TokensOfPair(x: string, y: string, d: char)
    requires x != [] && y != [] && Free(x, d) && Free(y, d)
    ensures Tokens(x + [d] + y, d) == [x, y]
  {
    var s := x + [d] + y;
    var m := |x|;
    assert forall j :: 0 <= j < m ==> s[j] == x[j];
    assert forall j :: m + 1 <= j < |s| ==> s[j] == y[j - m - 1];
    RunEndIs(s, d, 0, m);
    RunEndIs(s, d, m + 1, |s|);
    assert s[0..m] == x;
    assert s[m + 1..|s|] == y;
    assert TokensFrom(s, d, m + 1) == [y];
    assert TokensFrom(s, d, 0) == [x] + TokensFrom(s, d, m + 1);
  }

  /** An empty string, or one made only of delimiters, has no tokens. */
  lemma OnlyDelimitersHasNoTokens(s: string, d: char)
    requires forall i :: 0 <= i < |s| ==> s[i] == d
    ensures Tokens(s, d) == []
  {
    OnlyDelimitersFrom(s, d, 0);
  }

  lemma {:induction false} OnlyDelimitersFrom(s: string, d: char, start: nat)
    requires start <= |s|
    requires forall i :: 0 <= i < |s| ==> s[i] == d
    ensures TokensFrom(s, d, start) == []
    decreases |s| - start
  {
    if start < |s| {
      RunEndIs(s, d, start, start);
      OnlyDelimitersFrom(s, d, start + 1);
    }
  }

  /** A delimiter at `k` bounds the run that begins at or before it. */
  lemma {:induction false} RunEndAtMost(s: string, d: char, start: nat, k: nat)
    requires start <= k < |s| && s[k] == d
    ensures RunEnd(s, d, start) <= k
    decreases k - start
  {
    if start < k && s[start] != d {
      RunEndAtMost(s, d, start + 1, k);
    }
  }

  /** `split`: walks `s` once, emitting each non-empty run when a delimiter or the end closes it. */
  method Split(s: string, d: char) returns (ret: seq<string>)
    ensures ret == Tokens(s, d)
  {
    ghost var all := Tokens(s, d);
    ret := [];
    var it, itStart := 0, 0;
    while it < |s|
      invariant itStart <= it <= |s|
      invariant it <= RunEnd(s, d, itStart)
      invariant ret + TokensFrom(s, d, itStart) == all
    {
      if s[it] == d {
        RunEndAtMost(s, d, itStart, it);
        if it != itStart {
          TokenClosed(s, d, ret, itStart, it);
          ret := ret + [s[itStart..it]];
        } else {
          EmptyRunClosed(s, d, ret, itStart);
        }
        itStart := it + 1;
      }
      it := it + 1;
    }
    if it != itStart {
      TokenClosed(s, d, ret, itStart, it);
      ret := ret + [s[itStart..it]];
    } else {
      EmptyRunClosed(s, d, ret, itStart);
    }
  }

  /** The end `e` of the non-empty run that began at `start` closes a token. */
  lemma TokenClosed(s: string, d: char, done: seq<string>, start: nat, e: nat)
    requires start < e <= |s| && RunEnd(s, d, start) == e
    requires done + TokensFrom(s, d, start) == Tokens(s, d)
    ensures e < |s| ==> (done + [s[start..e]]) + TokensFrom(s, d, e + 1) == Tokens(s, d)
    ensures e == |s| ==> done + [s[start..e]] == Tokens(s, d)
  {
    var rest := if e == |s| then [] else TokensFrom(s, d, e + 1);
    assert TokensFrom(s, d, start) == [s[start..e]] + rest;
    assert done + ([s[start..e]] + rest) == (done + [s[start..e]]) + rest;
  }

  /** A run that ends where it begins yields no token. */
  lemma EmptyRunClosed(s: string, d: char, done: seq<string>, start: nat)
    requires start <= |s| && RunEnd(s, d, start) == start
    requires done + TokensFrom(s, d, start) == Tokens(s, d)
    ensures start < |s| ==> done + TokensFrom(s, d, start + 1) == Tokens(s, d)
    ensures start == |s| ==> done == Tokens(s, d)
  {
    var rest := if start == |s| then [] else TokensFrom(s, d, start + 1);
    assert TokensFrom(s, d, start) == [] + rest;
    assert [] + rest == rest;
  }

  /** `std::transform(tokens, tokens, ltrim_view)`: every token left-trimmed, in place. */
  function LtrimAll(ts: seq<string>): (r: seq<string>)
    ensures |r| == |ts|
  {
    seq(|ts|, i requires 0 <= i < |ts| => LtrimView(ts[i]))
  }
}
