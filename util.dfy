/** String and list helpers with the semantics of the ECMAScript built-ins the
    application relies on (`trim`, `indexOf`, `includes`, `split`, `join`,
    global `replace`, `new Set` spread, `filter`). Strings are sequences of
    UTF-16 code units in ECMAScript; here one `char` stands for one unit. */
module Util {

  datatype Option<+T> = None | Some(value: T) {
    function GetOr(default: T): T {
      if Some? then value else default
    }
  }

  /** The result of a call that may throw. */
  datatype Outcome<+T> = Threw | Done(value: T)

  // ---------------------------------------------------------------- trim

  /** WhiteSpace and LineTerminator code points of ECMAScript (section 12.2 and
      12.3 of ECMA-262): exactly what `String.prototype.trim` strips. */
  predicate IsSpace(c: char) {
    || c == ' ' || c == '\t' || c == '\n' || c == '\r' || c == '\U{000B}' || c == '\U{000C}'
    || c == '\U{00A0}' || c == '\U{1680}' || ('\U{2000}' <= c <= '\U{200A}')
    || c == '\U{2028}' || c == '\U{2029}' || c == '\U{202F}' || c == '\U{205F}'
    || c == '\U{3000}' || c == '\U{FEFF}'
  }

  predicate AllSpace(s: string) {
    forall k :: 0 <= k < |s| ==> IsSpace(s[k])
  }

  /** A string is trimmed when it neither starts nor ends with white space. */
  predicate IsTrimmed(s: string) {
    s == [] || (!IsSpace(s[0]) && !IsSpace(s[|s| - 1]))
  }

  /** How many white-space characters `s` starts with. */
  function LeadSpaces(s: string): (n: nat)
    ensures n <= |s|
    ensures forall k :: 0 <= k < n ==> IsSpace(s[k])
    ensures n == |s| || !IsSpace(s[n])
  {
    if |s| > 0 && IsSpace(s[0]) then 1 + LeadSpaces(s[1..]) else 0
  }

  /** How many white-space characters `s` ends with. */
  function TrailSpaces(s: string): (n: nat)
    ensures n <= |s|
    ensures forall k :: |s| - n <= k < |s| ==> IsSpace(s[k])
    ensures n == |s| || !IsSpace(s[|s| - 1 - n])
  {
    if |s| > 0 && IsSpace(s[|s| - 1]) then 1 + TrailSpaces(s[..|s| - 1]) else 0
  }

  /** `trimStart`, the first step of `parseInt`. */
  function TrimStart(s: string): (r: string)
    ensures r == [] || !IsSpace(r[0])
  {
    s[LeadSpaces(s)..]
  }

  /** White space in front of a string is all that `TrimStart` removes first. */
  lemma {:induction false} TrimStartSkipsSpace(w: string, s: string)
    requires AllSpace(w)
    ensures LeadSpaces(w + s) == |w| + LeadSpaces(s)
    ensures TrimStart(w + s) == TrimStart(s)
    decreases |w|
  {
    if w != [] {
      assert (w + s)[1..] == w[1..] + s;
      TrimStartSkipsSpace(w[1..], s);
    } else {
      assert w + s == s;
    }
    assert (w + s)[|w|..] == s;
  }

  /** Where the trailing white space of `s` begins, once its leading white
      space is skipped. */
  function TrimHi(s: string): (hi: nat)
    ensures LeadSpaces(s) <= hi <= |s|
  {
    |s| - TrailSpaces(s[LeadSpaces(s)..])
  }

  lemma TrimHiLast(s: string)
    ensures LeadSpaces(s) < TrimHi(s) ==> !IsSpace(s[TrimHi(s) - 1])
  {
    var lo, hi := LeadSpaces(s), TrimHi(s);
    if lo < hi {
      assert s[lo..][hi - 1 - lo] == s[hi - 1];
    }
  }

  lemma TrimHiTail(s: string)
    ensures AllSpace(s[TrimHi(s)..])
  {
    var lo, hi := LeadSpaces(s), TrimHi(s);
    forall k | 0 <= k < |s| - hi ensures IsSpace(s[hi..][k]) {
      assert s[hi..][k] == s[lo..][hi - lo + k];
    }
  }

  lemma LeadSpacesHead(s: string)
    ensures AllSpace(s[..LeadSpaces(s)])
  {
    forall k | 0 <= k < LeadSpaces(s) ensures IsSpace(s[..LeadSpaces(s)][k]) {
      assert s[..LeadSpaces(s)][k] == s[k];
    }
  }

  lemma TrimHiPastLead(s: string)
    ensures LeadSpaces(s) < |s| ==> LeadSpaces(s) < TrimHi(s)
  {
    var lo := LeadSpaces(s);
    if lo < |s| {
      assert s[lo..][0] == s[lo];
    }
  }

  /** `String.prototype.trim`: the result is the infix of `s` that remains
      once leading and trailing white space is removed. */
  function Trim(s: string): (r: string)
    ensures IsTrimmed(r)
    ensures r == [] <==> AllSpace(s)
    ensures LeadSpaces(s) + |r| <= |s| && r == s[LeadSpaces(s)..LeadSpaces(s) + |r|]
    ensures AllSpace(s[..LeadSpaces(s)]) && AllSpace(s[LeadSpaces(s) + |r|..])
  {
    TrimHiLast(s);
    TrimHiTail(s);
    LeadSpacesHead(s);
    TrimHiPastLead(s);
    s[LeadSpaces(s)..TrimHi(s)]
  }

  /** `!s.trim()` in a condition: the string is empty or white space only. */
  predicate IsBlank(s: string) {
    Trim(s) == []
  }

  lemma {:induction false} TrimOfTrimmed(t: string)
    requires IsTrimmed(t)
    ensures Trim(t) == t
  {
    if t != [] {
      assert LeadSpaces(t) == 0;
      assert t[0..] == t;
      assert TrailSpaces(t) == 0;
    }
  }

  /** Trimming a trimmed string followed by white space gives the string back. */
  lemma TrimDropsTrailingSpace(t: string, w: string)
    requires IsTrimmed(t) && AllSpace(w)
    ensures Trim(t + w) == t
  {
    var s := t + w;
    if t != [] {
      assert LeadSpaces(s) == 0;
      assert s[0..] == s;
      TrailSpacesOfSpace(t, w);
      assert s[..|t|] == t;
    } else {
      assert AllSpace(s) by {
        assert s == w;
      }
    }
  }

  /** Trimming a non-empty trimmed text with white space around it gives the
      text back. */
  lemma TrimAround(w: string, t: string, v: string)
    requires AllSpace(w) && AllSpace(v) && t != [] && IsTrimmed(t)
    ensures Trim(w + t + v) == t
  {
    var s := w + t + v;
    assert s == w + (t + v) && (t + v)[0] == t[0];
    TrimStartSkipsSpace(w, t + v);
    assert s[|w|..] == t + v;
    TrailSpacesOfSpace(t, v);
    assert s[|w|..|w| + |t|] == t;
  }

  lemma AllSpaceConcat(a: string, b: string)
    requires AllSpace(a) && AllSpace(b)
    ensures AllSpace(a + b)
  {
    forall k | 0 <= k < |a + b| ensures IsSpace((a + b)[k]) {
      if k >= |a| { assert (a + b)[k] == b[k - |a|]; }
    }
  }

  /** White space around a text does not change what `trim` gives. */
  lemma TrimPadded(w: string, t: string, v: string)
    requires AllSpace(w) && AllSpace(v)
    ensures Trim(w + t + v) == Trim(t)
  {
    if AllSpace(t) {
      AllSpaceConcat(w, t);
      AllSpaceConcat(w + t, v);
    } else {
      var lo, c := LeadSpaces(t), Trim(t);
      var hi := lo + |c|;
      var front, back := t[..lo], t[hi..];
      SplitThree(t, lo, hi);
      Regroup(w, front, c, back, v);
      AllSpaceConcat(w, front);
      AllSpaceConcat(back, v);
      TrimAround(w + front, c, back + v);
    }
  }

  lemma SplitThree<T>(t: seq<T>, lo: nat, hi: nat)
    requires lo <= hi <= |t|
    ensures t == t[..lo] + t[lo..hi] + t[hi..]
  {
  }

  lemma Regroup<T>(w: seq<T>, x: seq<T>, c: seq<T>, y: seq<T>, v: seq<T>)
    ensures w + (x + c + y) + v == (w + x) + c + (y + v)
  {
  }

  /** White space appended to a text that does not end in white space is
      exactly what `TrailSpaces` counts. */
  lemma {:induction false} TrailSpacesOfSpace(t: string, w: string)
    requires t != [] && !IsSpace(t[|t| - 1]) && AllSpace(w)
    ensures TrailSpaces(t + w) == |w|
    decreases |w|
  {
    var s := t + w;
    if w != [] {
      assert s[|s| - 1] == w[|w| - 1];
      assert s[..|s| - 1] == t + w[..|w| - 1];
      TrailSpacesOfSpace(t, w[..|w| - 1]);
    } else {
      assert s == t;
    }
  }

  /** An untrimmed, non-blank string loses characters when trimmed, even
      with white space appended to it. */
  lemma TrimShortens(p: string, w: string)
    requires AllSpace(w) && !IsTrimmed(p) && !AllSpace(p)
    ensures |Trim(p + w)| < |p|
  {
    var x := p + w;
    var r := Trim(x);
    var lo := LeadSpaces(x);
    assert !IsSpace(p[|p| - 1]) ==> IsSpace(p[0]);
    var k :| 0 <= k < |p| && !IsSpace(p[k]);
    assert !IsSpace(x[k]);
    assert r != [];
    assert r[|r| - 1] == x[lo + |r| - 1];
    assert forall j :: |p| <= j < |x| ==> IsSpace(x[j]) by {
      forall j | |p| <= j < |x| ensures IsSpace(x[j]) {
        assert x[j] == w[j - |p|];
      }
    }
    assert lo + |r| - 1 < |p|;
    if IsSpace(p[|p| - 1]) {
      assert x[|p| - 1] == p[|p| - 1];
    } else {
      assert x[0] == p[0];
      assert r[0] == x[lo];
    }
  }

  // ------------------------------------------------------------- search

  /** `p` occurs in `s` at index `i`. */
  predicate MatchAt(s: string, p: string, i: int) {
    0 <= i && i + |p| <= |s| && s[i..i + |p|] == p
  }

  /** `s.includes(p)`. */
  predicate Contains(s: string, p: string) {
    exists i :: 0 <= i <= |s| - |p| && MatchAt(s, p, i)
  }

  function IndexFrom(s: string, p: string, i: nat): (r: int)
    requires i <= |s|
    ensures r == -1 || (i <= r && MatchAt(s, p, r))
    ensures r == -1 ==> forall k :: i <= k ==> !MatchAt(s, p, k)
    ensures r != -1 ==> forall k :: i <= k < r ==> !MatchAt(s, p, k)
    decreases |s| - i
  {
    if MatchAt(s, p, i) then i
    else if i == |s| then -1
    else IndexFrom(s, p, i + 1)
  }

  /** `s.indexOf(p)`: the first index where `p` occurs, or -1. */
  function IndexOf(s: string, p: string): (r: int)
    ensures r == -1 <==> !Contains(s, p)
    ensures r != -1 ==> MatchAt(s, p, r) && forall k :: 0 <= k < r ==> !MatchAt(s, p, k)
  {
    IndexFrom(s, p, 0)
  }

  /** `s.indexOf(c)` for a one-character needle. */
  function IndexOfChar(s: string, c: char): (r: int)
    ensures -1 <= r < |s|
    ensures r >= 0 ==> s[r] == c && forall k :: 0 <= k < r ==> s[k] != c
    ensures r == -1 ==> forall k :: 0 <= k < |s| ==> s[k] != c
  {
    if |s| == 0 then -1
    else if s[0] == c then 0
    else var r' := IndexOfChar(s[1..], c); if r' == -1 then -1 else r' + 1
  }

  /** `s.lastIndexOf(c)` for a one-character needle. */
  function LastIndexOfChar(s: string, c: char): (r: int)
    ensures -1 <= r < |s|
    ensures r >= 0 ==> s[r] == c && forall k :: r < k < |s| ==> s[k] != c
    ensures r == -1 ==> forall k :: 0 <= k < |s| ==> s[k] != c
  {
    if |s| == 0 then -1
    else if s[|s| - 1] == c then |s| - 1
    else LastIndexOfChar(s[..|s| - 1], c)
  }

  /** `s.split(sep)[0]`: the text before the first occurrence of `sep`. */
  function Before(s: string, sep: string): (r: string)
    ensures Contains(s, sep) ==> r == s[..IndexOf(s, sep)]
    ensures !Contains(s, sep) ==> r == s
  {
    var i := IndexOf(s, sep);
    if i == -1 then s else s[..i]
  }

  /** No occurrence of `p` lies entirely in the prefix before the first one. */
  lemma BeforeLacks(s: string, p: string)
    requires |p| > 0 && Contains(s, p)
    ensures !Contains(Before(s, p), p)
  {
    var b := Before(s, p);
    assert b == s[..IndexOf(s, p)];
    if Contains(b, p) {
      var k :| 0 <= k <= |b| - |p| && MatchAt(b, p, k);
      assert s[k..k + |p|] == b[k..k + |p|];
      assert MatchAt(s, p, k);
    }
  }

  /** `s.substring(start, end)`: both bounds are clamped to the string and
      swapped when the start is past the end. */
  function JsSubstring(s: string, start: int, end: int): string {
    var a := if start < 0 then 0 else if start > |s| then |s| else start;
    var b := if end < 0 then 0 else if end > |s| then |s| else end;
    if a <= b then s[a..b] else s[b..a]
  }

  // ------------------------------------------------------------ replace

  /** `s.replace(/p/g, '')` for a literal, non-empty pattern: one left-to-right
      pass that drops every non-overlapping occurrence it meets. */
  function RemoveAll(s: string, p: string): (r: string)
    requires |p| > 0
    ensures |r| <= |s|
    decreases |s|
  {
    if |s| < |p| then s
    else if s[..|p|] == p then RemoveAll(s[|p|..], p)
    else [s[0]] + RemoveAll(s[1..], p)
  }

  /** A text that lacks the first character of `p` holds no match of it, so
      removal leaves it and goes on with what follows. */
  lemma {:induction false} RemoveAllSkips(a: string, b: string, p: string)
    requires |p| > 0 && p[0] !in a
    ensures RemoveAll(a + b, p) == a + RemoveAll(b, p)
    decreases |a|
  {
    var s := a + b;
    if a == [] {
      assert s == b;
    } else if |s| < |p| {
      assert RemoveAll(b, p) == b;
    } else {
      assert s[..|p|][0] == a[0] && s[..|p|] != p;
      assert RemoveAll(s, p) == [a[0]] + RemoveAll(s[1..], p);
      assert s[1..] == a[1..] + b;
      RemoveAllSkips(a[1..], b, p);
      assert a == [a[0]] + a[1..];
    }
  }

  lemma {:induction false} RemoveAllAbsent(s: string, p: string)
    requires |p| > 0 && !Contains(s, p)
    ensures RemoveAll(s, p) == s
    decreases |s|
  {
    if |s| >= |p| {
      assert !MatchAt(s, p, 0);
      assert !Contains(s[1..], p) by {
        if Contains(s[1..], p) {
          var k :| 0 <= k <= |s| - 1 - |p| && MatchAt(s[1..], p, k);
          assert s[k + 1..k + 1 + |p|] == s[1..][k..k + |p|];
          assert MatchAt(s, p, k + 1);
        }
      }
      RemoveAllAbsent(s[1..], p);
    }
  }

  /** Number of leading backticks. */
  function LeadTicks(s: string): nat {
    if s != [] && s[0] == '`' then 1 + LeadTicks(s[1..]) else 0
  }

  /** One pass of `replace(/```/g, '')` leaves no fence behind: within each run
      of backticks it removes whole triples from the left, so fewer than three
      remain of every run. */
  lemma {:induction false} RemoveFencesLeavesNone(s: string)
    ensures !Contains(RemoveAll(s, "```"), "```")
    ensures LeadTicks(RemoveAll(s, "```")) == LeadTicks(s) % 3
    decreases |s|
  {
    var f := "```";
    var r := RemoveAll(s, f);
    if |s| < 3 {
      assert r == s;
      LeadTicksBound(s);
    } else if s[..3] == f {
      RemoveFencesLeavesNone(s[3..]);
      assert r == RemoveAll(s[3..], f);
      assert LeadTicks(s) == 3 + LeadTicks(s[3..]) by {
        assert s[1..][1..][1..] == s[3..];
        assert s[..3][1] == s[1..][0] == '`';
        assert s[..3][2] == s[1..][1..][0] == '`';
        assert LeadTicks(s[1..][1..]) == 1 + LeadTicks(s[3..]);
        assert LeadTicks(s[1..]) == 2 + LeadTicks(s[3..]);
      }
    } else {
      var rest := RemoveAll(s[1..], f);
      RemoveFencesLeavesNone(s[1..]);
      assert r == [s[0]] + rest;
      HeadTicks(s, rest);
      ConsLacksFence(s[0], rest);
    }
  }

  lemma {:induction false} LeadTicksBound(s: string)
    ensures LeadTicks(s) <= |s|
  {
    if s != [] && s[0] == '`' {
      LeadTicksBound(s[1..]);
    }
  }

  /** When `s` does not start with a fence and `rest` keeps the leading run
      of `s[1..]` modulo three, `[s[0]] + rest` keeps that of `s`. */
  lemma HeadTicks(s: string, rest: string)
    requires |s| >= 3 && s[..3] != "```" && LeadTicks(rest) == LeadTicks(s[1..]) % 3
    ensures LeadTicks([s[0]] + rest) == LeadTicks(s) % 3
  {
    var r := [s[0]] + rest;
    if s[0] == '`' {
      assert LeadTicks(s) == 1 + LeadTicks(s[1..]);
      if s[1] == '`' {
        assert s[2] != '`';
        assert LeadTicks(s[1..][1..]) == 0;
      }
      assert LeadTicks(s) <= 2;
      assert r[1..] == rest;
    }
  }

  /** A fence in `[c] + rest` either starts the string, and so is a run of
      three leading backticks, or lies within `rest`. */
  lemma ConsLacksFence(c: char, rest: string)
    requires !Contains(rest, "```") && LeadTicks([c] + rest) < 3
    ensures !Contains([c] + rest, "```")
  {
    var f := "```";
    var r := [c] + rest;
    forall i | 0 <= i <= |r| - |f|
      ensures !MatchAt(r, f, i)
    {
      if i > 0 {
        assert rest[i - 1..i - 1 + |f|] == r[i..i + |f|];
        assert !MatchAt(rest, f, i - 1);
      } else if r[0] == '`' && r[1] == '`' {
        assert LeadTicks(r) == 2 + LeadTicks(r[1..][1..]) by { assert r[1..][0] == '`'; }
        assert r[1..][1..][0] == r[2];
        assert r[..3][2] != f[2];
      } else {
        assert r[..3][0] != f[0] || r[..3][1] != f[1];
      }
    }
  }

  /** An occurrence inside an infix is an occurrence in the whole string. */
  lemma MatchInInfix(s: string, lo: nat, hi: nat, p: string, i: int)
    requires lo <= hi <= |s| && MatchAt(s[lo..hi], p, i)
    ensures MatchAt(s, p, lo + i)
  {
    var t := s[lo..hi];
    forall j | 0 <= j < |p| ensures s[lo + i + j] == p[j] {
      assert t[i..i + |p|][j] == t[i + j] == s[lo + i + j];
    }
    assert s[lo + i..lo + i + |p|] == p;
  }

  /** An infix of a string cannot contain what the whole string does not. */
  lemma InfixLacks(s: string, lo: nat, hi: nat, p: string)
    requires lo <= hi <= |s|
    ensures !Contains(s, p) ==> !Contains(s[lo..hi], p)
  {
    if Contains(s[lo..hi], p) {
      var i :| 0 <= i <= hi - lo - |p| && MatchAt(s[lo..hi], p, i);
      MatchInInfix(s, lo, hi, p, i);
    }
  }

  /** Trimming cannot introduce an occurrence. */
  lemma TrimLacks(s: string, p: string)
    requires !Contains(s, p)
    ensures !Contains(Trim(s), p)
  {
    InfixLacks(s, LeadSpaces(s), LeadSpaces(s) + |Trim(s)|, p);
  }

  // --------------------------------------------------------------- case

  /** `toLowerCase` restricted to the ASCII letters. */
  function LowerChar(c: char): char {
    if 'A' <= c <= 'Z' then (c as int + 32) as char else c
  }

  function ToLower(s: string): (r: string)
    ensures |r| == |s| && forall k :: 0 <= k < |s| ==> r[k] == LowerChar(s[k])
  {
    seq(|s|, k requires 0 <= k < |s| => LowerChar(s[k]))
  }

  // --------------------------------------------------------------- join

  /** `xs.join(sep)`. */
  function Join(xs: seq<string>, sep: string): string {
    if xs == [] then ""
    else if |xs| == 1 then xs[0]
    else xs[0] + sep + Join(xs[1..], sep)
  }

  // -------------------------------------------------------------- lists

  ghost predicate NoDup<T>(xs: seq<T>) {
    forall i, j :: 0 <= i < j < |xs| ==> xs[i] != xs[j]
  }

  /** `[...new Set(xs)]`: each value once, at its first occurrence. */
  function Dedup<T(==,!new)>(xs: seq<T>): (r: seq<T>)
    ensures NoDup(r)
    ensures forall x :: x in r <==> x in xs
    ensures |r| <= |xs|
  {
    if xs == [] then []
    else
      var init := xs[..|xs| - 1];
      assert xs == init + [xs[|xs| - 1]];
      var d := Dedup(init);
      if xs[|xs| - 1] in d then d else d + [xs[|xs| - 1]]
  }

  /** A list without repeats is its own deduplication. */
  lemma {:induction false} DedupOfDistinct<T(!new)>(xs: seq<T>)
    requires NoDup(xs)
    ensures Dedup(xs) == xs
  {
    if xs != [] {
      var init := xs[..|xs| - 1];
      DedupOfDistinct(init);
      assert xs[|xs| - 1] !in init;
      assert xs == init + [xs[|xs| - 1]];
    }
  }

  /** Deduplicating a distinct list followed by more values keeps that list
      as the prefix, in its order: earlier values win. */
  lemma {:induction false} DedupKeepsDistinctPrefix<T(!new)>(a: seq<T>, b: seq<T>)
    requires NoDup(a)
    ensures |a| <= |Dedup(a + b)| && Dedup(a + b)[..|a|] == a
    decreases |b|
  {
    if b == [] {
      assert a + b == a;
      DedupOfDistinct(a);
    } else {
      var s := a + b;
      var init := b[..|b| - 1];
      assert s[..|s| - 1] == a + init;
      DedupKeepsDistinctPrefix(a, init);
    }
  }

  /** Deduplication of a list extended by one value. */
  lemma DedupSnoc<T(!new)>(xs: seq<T>, x: T)
    ensures Dedup(xs + [x]) == if x in xs then Dedup(xs) else Dedup(xs) + [x]
  {
    assert (xs + [x])[..|xs|] == xs;
  }

  /** The values of `a` that are not in `xs`, in their order in `a`. */
  function Without<T(==,!new)>(a: seq<T>, xs: seq<T>): (r: seq<T>)
    ensures forall x :: x in r <==> x in a && x !in xs
  {
    if a == [] then []
    else Without(a[..|a| - 1], xs) + (if a[|a| - 1] in xs then [] else [a[|a| - 1]])
  }

  /** Deduplicating two lists one after the other keeps the first list's
      values first, in their order, followed by the second list's new values
      in the order they first occur there. */
  lemma {:induction false} DedupAppend<T(!new)>(xs: seq<T>, ys: seq<T>)
    ensures Dedup(xs + ys) == Dedup(xs) + Without(Dedup(ys), xs)
    decreases |ys|
  {
    if ys == [] {
      assert xs + ys == xs;
    } else {
      var init, v := ys[..|ys| - 1], ys[|ys| - 1];
      assert ys == init + [v];
      assert xs + ys == (xs + init) + [v];
      DedupAppend(xs, init);
      DedupAppendStep(xs, init, v);
    }
  }

  /** The step of `DedupAppend` for one more value of the second list. */
  lemma DedupAppendStep<T(!new)>(xs: seq<T>, init: seq<T>, v: T)
    requires Dedup(xs + init) == Dedup(xs) + Without(Dedup(init), xs)
    ensures Dedup((xs + init) + [v]) == Dedup(xs) + Without(Dedup(init + [v]), xs)
  {
    DedupSnoc(xs + init, v);
    DedupSnoc(init, v);
    if v !in init {
      WithoutSnoc(Dedup(init), xs, v);
      if v !in xs {
        assert v !in xs + init;
        JoinSnoc(Dedup((xs + init) + [v]), Dedup(xs + init), Dedup(xs),
                 Without(Dedup(init), xs), Without(Dedup(init + [v]), xs), v);
      }
    }
  }

  /** Dropping the values of `xs` from a list grown by one value. */
  lemma WithoutSnoc<T(!new)>(a: seq<T>, xs: seq<T>, v: T)
    ensures Without(a + [v], xs) == Without(a, xs) + (if v in xs then [] else [v])
  {
    assert (a + [v])[..|a|] == a;
  }

  /** Regrouping `(a + b) + [v]` as `a + (b + [v])`, with each part named. */
  lemma JoinSnoc<T>(lhs: seq<T>, d: seq<T>, a: seq<T>, b: seq<T>, w: seq<T>, v: T)
    requires lhs == d + [v] && d == a + b && w == b + [v]
    ensures lhs == a + w
  {
  }

  /** `xs.map(f)`. */
  function MapSeq<A, B>(f: A -> B, xs: seq<A>): (r: seq<B>)
    ensures |r| == |xs| && forall k :: 0 <= k < |xs| ==> r[k] == f(xs[k])
  {
    seq(|xs|, k requires 0 <= k < |xs| => f(xs[k]))
  }

  /** `xs.filter(keep)`. */
  function Filter<T(!new)>(xs: seq<T>, keep: T -> bool): (r: seq<T>)
    ensures |r| <= |xs|
    ensures forall x :: x in r <==> x in xs && keep(x)
    ensures forall k :: 0 <= k < |r| ==> keep(r[k])
  {
    if xs == [] then []
    else (if keep(xs[0]) then [xs[0]] else []) + Filter(xs[1..], keep)
  }

  /** `a` is `b` with some elements left out, the rest in their order. */
  predicate IsSubseq<T(==)>(a: seq<T>, b: seq<T>)
    decreases |b|
  {
    if a == [] then true
    else if b == [] then false
    else if a[0] == b[0] then IsSubseq(a[1..], b[1..])
    else IsSubseq(a, b[1..])
  }

  /** A filter keeps its survivors in their original order. */
  lemma {:induction false} FilterIsSubseq<T(!new)>(xs: seq<T>, keep: T -> bool)
    ensures IsSubseq(Filter(xs, keep), xs)
  {
    if xs != [] {
      FilterIsSubseq(xs[1..], keep);
      var r := Filter(xs, keep);
      if keep(xs[0]) {
        assert r[0] == xs[0] && r[1..] == Filter(xs[1..], keep);
      } else {
        assert r == Filter(xs[1..], keep);
        SubseqOfTail(r, xs);
      }
    }
  }

  /** A subsequence of the tail is a subsequence of the whole. */
  lemma {:induction false} SubseqOfTail<T>(a: seq<T>, b: seq<T>)
    requires b != [] && IsSubseq(a, b[1..])
    ensures IsSubseq(a, b)
    decreases |a| + |b|
  {
    if a != [] && a[0] == b[0] {
      assert IsSubseq(a[1..], b[1..]) by {
        DropHead(a, b[1..]);
      }
    }
  }

  /** Dropping the first element keeps a subsequence. */
  lemma {:induction false} DropHead<T>(a: seq<T>, b: seq<T>)
    requires a != [] && IsSubseq(a, b)
    ensures IsSubseq(a[1..], b)
    decreases |a| + |b|
  {
    if b != [] {
      if a[0] == b[0] {
        if a[1..] != [] {
          SubseqOfTail(a[1..], b);
        }
      } else {
        DropHead(a, b[1..]);
        SubseqOfTail(a[1..], b);
      }
    }
  }

  /** Filtering distributes over concatenation, so it keeps the original order. */
  lemma {:induction false} FilterAppend<T(!new)>(a: seq<T>, b: seq<T>, keep: T -> bool)
    ensures Filter(a + b, keep) == Filter(a, keep) + Filter(b, keep)
  {
    if a == [] {
      assert a + b == b;
    } else {
      var head := if keep(a[0]) then [a[0]] else [];
      assert (a + b)[0] == a[0];
      assert (a + b)[1..] == a[1..] + b;
      FilterAppend(a[1..], b, keep);
      calc {
        Filter(a + b, keep);
        head + Filter(a[1..] + b, keep);
        head + (Filter(a[1..], keep) + Filter(b, keep));
        (head + Filter(a[1..], keep)) + Filter(b, keep);
      }
    }
  }

  /** Filtering keeps each kept value exactly as often as it occurs. */
  lemma {:induction false} FilterCount<T(!new)>(xs: seq<T>, keep: T -> bool, x: T)
    ensures multiset(Filter(xs, keep))[x] == if keep(x) then multiset(xs)[x] else 0
  {
    if xs != [] {
      assert xs == [xs[0]] + xs[1..];
      FilterCount(xs[1..], keep, x);
    }
  }

  /** A filter that keeps everything is the identity. */
  lemma {:induction false} FilterAll<T(!new)>(xs: seq<T>, keep: T -> bool)
    requires forall k :: 0 <= k < |xs| ==> keep(xs[k])
    ensures Filter(xs, keep) == xs
  {
    if xs != [] {
      FilterAll(xs[1..], keep);
    }
  }

  /** Filtering preserves distinctness. */
  lemma {:induction false} FilterNoDup<T(!new)>(xs: seq<T>, keep: T -> bool)
    requires NoDup(xs)
    ensures NoDup(Filter(xs, keep))
  {
    if xs != [] {
      FilterNoDup(xs[1..], keep);
      assert xs[0] !in xs[1..];
    }
  }
}
