/** The query rewrite `q.replace(/(\w+):\w+/ig, '$1:*')` of the profiler
    label, as an explicit left-to-right scanner over the one fixed pattern. */
module Wildcard {

  /** `\w` without the unicode flag: ASCII letters, digits and `_`. */
  predicate IsWord(c: char) {
    ('a' <= c <= 'z') || ('A' <= c <= 'Z') || ('0' <= c <= '9') || c == '_'
  }

  predicate AllWord(s: string) {
    forall k :: 0 <= k < |s| ==> IsWord(s[k])
  }

  /** The end of the maximal run of word characters that starts at `i`. */
  function RunEnd(s: string, i: nat): (j: nat)
    requires i <= |s|
    ensures i <= j <= |s|
    ensures forall k :: i <= k < j ==> IsWord(s[k])
    ensures j == |s| || !IsWord(s[j])
    decreases |s| - i
  {
    if i < |s| && IsWord(s[i]) then RunEnd(s, i + 1) else i
  }

  /** A `\w+:\w+` match exists with its colon at `j`. */
  predicate TokenAt(s: string, j: int) {
    0 < j < |s| - 1 && s[j] == ':' && IsWord(s[j - 1]) && IsWord(s[j + 1])
  }

  /** The pattern matches somewhere in `s`. */
  predicate HasToken(s: string) {
    exists j :: 0 < j < |s| - 1 && TokenAt(s, j)
  }

  /** The match attempt at `i`: a word run from `i` followed by `:` and a
      word character. The greedy `\w+` cannot backtrack into a match, since
      a shorter key run is followed by a word character, not by `:`. */
  predicate MatchesAt(s: string, i: nat)
    requires i < |s|
  {
    var j := RunEnd(s, i);
    j > i && j + 1 < |s| && s[j] == ':' && IsWord(s[j + 1])
  }

  /** One step of the scan at `i`: the text it emits and where it resumes.
      A match can only start at the first character of a word run: a run
      that does not match at its start fails at every start inside it too,
      so the scan skips it whole. A match keeps its key run and the colon,
      replaces the maximal value run by `*`, and the scan resumes after the
      value. */
  function Step(s: string, i: nat): (r: (string, nat))
    requires i < |s|
    ensures i < r.1 <= |s|
  {
    if !IsWord(s[i]) then ([s[i]], i + 1)
    else if MatchesAt(s, i) then (s[i..RunEnd(s, i)] + ":*", RunEnd(s, RunEnd(s, i) + 1))
    else (s[i..RunEnd(s, i)], RunEnd(s, i))
  }

  /** The global replacement, resumed at position `i`. */
  function WildcardFrom(s: string, i: nat): string
    requires i <= |s|
    decreases |s| - i
  {
    if i == |s| then "" else Step(s, i).0 + WildcardFrom(s, Step(s, i).1)
  }

  /** `q.replace(/(\w+):\w+/ig, '$1:*')`: never longer than the query. */
  function Wildcard(q: string): (r: string)
    ensures |r| <= |q|
  {
    WildcardFromNoLonger(q, 0);
    WildcardFrom(q, 0)
  }

  /** A step emits no more characters than it consumes: a value of at least
      one character becomes the single `*`. */
  lemma {:induction false} StepNoLonger(s: string, i: nat)
    requires i < |s|
    ensures |Step(s, i).0| <= Step(s, i).1 - i
  {
    if IsWord(s[i]) && MatchesAt(s, i) {
      var j := RunEnd(s, i);
      assert IsWord(s[j + 1]);
      assert RunEnd(s, j + 1) >= j + 2;
    }
  }

  lemma {:induction false} WildcardFromNoLonger(s: string, i: nat)
    requires i <= |s|
    ensures |WildcardFrom(s, i)| <= |s| - i
    decreases |s| - i
  {
    if i < |s| {
      StepNoLonger(s, i);
      WildcardFromNoLonger(s, Step(s, i).1);
    }
  }

  // ---------------------------------------------------------------------
  // A query without a token is copied verbatim.

  lemma {:induction false} StepWithoutToken(s: string, i: nat)
    requires i < |s|
    requires forall j :: i < j ==> !TokenAt(s, j)
    ensures Step(s, i).0 == s[i..Step(s, i).1]
  {
    if IsWord(s[i]) {
      assert !TokenAt(s, RunEnd(s, i));
    }
  }

  lemma {:induction false} NoTokenFromUnchanged(s: string, i: nat)
    requires i <= |s|
    requires forall j :: i < j ==> !TokenAt(s, j)
    ensures WildcardFrom(s, i) == s[i..]
    decreases |s| - i
  {
    if i < |s| {
      var n := Step(s, i).1;
      StepWithoutToken(s, i);
      NoTokenFromUnchanged(s, n);
      assert s[i..] == s[i..n] + s[n..];
    }
  }

  // ---------------------------------------------------------------------
  // No token survives the rewrite.

  /** A token of `a + b` lies in `a`, in `b`, or straddles the seam. */
  lemma TokenOfConcat(a: string, b: string, j: int)
    requires TokenAt(a + b, j)
    ensures TokenAt(a, j) || TokenAt(b, j - |a|)
            || (j == |a| - 1 && |a| >= 2 && a[|a| - 1] == ':' && IsWord(a[|a| - 2]) && |b| > 0 && IsWord(b[0]))
            || (j == |a| && |a| >= 1 && IsWord(a[|a| - 1]) && |b| >= 2 && b[0] == ':' && IsWord(b[1]))
  {
  }

  /** The rewrite of a non-empty suffix starts with that suffix's first character. */
  lemma FirstCharKept(s: string, i: nat)
    requires i < |s|
    ensures |WildcardFrom(s, i)| > 0 && WildcardFrom(s, i)[0] == s[i]
  {
  }

  lemma NoTokenAfterNonWord(c: char, rest: string)
    requires !IsWord(c) && !HasToken(rest)
    ensures !HasToken([c] + rest)
  {
    forall t | TokenAt([c] + rest, t) ensures false {
      TokenOfConcat([c], rest, t);
    }
  }

  lemma NoTokenAfterStar(key: string, rest: string)
    requires AllWord(key) && !HasToken(rest)
    ensures !HasToken(key + ":*" + rest)
  {
    forall t | TokenAt(key + ":*" + rest, t) ensures false {
      TokenOfConcat(key + ":*", rest, t);
    }
  }

  lemma NoTokenAfterRun(run: string, rest: string)
    requires AllWord(run) && !HasToken(rest)
    requires |rest| > 0 ==> !IsWord(rest[0])
    requires |rest| > 1 && rest[0] == ':' ==> !IsWord(rest[1])
    ensures !HasToken(run + rest)
  {
    forall t | TokenAt(run + rest, t) ensures false {
      TokenOfConcat(run, rest, t);
    }
  }

  /** What one step emits holds no token and cannot form one with the rest
      of the scan: a match ends in `*`, a skipped run is not followed by `:`
      and a word character, and a single non-word character is left alone. */
  lemma {:induction false} StepNoToken(s: string, i: nat)
    requires i < |s|
    requires !HasToken(WildcardFrom(s, Step(s, i).1))
    ensures !HasToken(Step(s, i).0 + WildcardFrom(s, Step(s, i).1))
  {
    var n := Step(s, i).1;
    var rest := WildcardFrom(s, n);
    if !IsWord(s[i]) {
      NoTokenAfterNonWord(s[i], rest);
    } else if MatchesAt(s, i) {
      NoTokenAfterStar(s[i..RunEnd(s, i)], rest);
    } else {
      if n < |s| {
        FirstCharKept(s, n);
        if n + 1 < |s| {
          FirstCharKept(s, n + 1);
          assert rest[1] == s[n + 1];
        }
      }
      NoTokenAfterRun(s[i..n], rest);
    }
  }

  lemma {:induction false} NoTokenFrom(s: string, i: nat)
    requires i <= |s|
    ensures !HasToken(WildcardFrom(s, i))
    decreases |s| - i
  {
    if i < |s| {
      NoTokenFrom(s, Step(s, i).1);
      StepNoToken(s, i);
    }
  }

  /** After wildcarding no `\w+:\w+` token is left: every value is hidden. */
  lemma NoTokenLeft(q: string)
    ensures !HasToken(Wildcard(q))
  {
    NoTokenFrom(q, 0);
  }

  /** The rewrite changes a query exactly when the pattern matches in it. */
  lemma UnchangedIffNoToken(q: string)
    ensures Wildcard(q) == q <==> !HasToken(q)
  {
    if !HasToken(q) {
      NoTokenFromUnchanged(q, 0);
    } else {
      NoTokenLeft(q);
    }
  }

  /** Wildcarding twice is wildcarding once. */
  lemma Idempotent(q: string)
    ensures Wildcard(Wildcard(q)) == Wildcard(q)
  {
    NoTokenLeft(q);
    UnchangedIffNoToken(Wildcard(q));
  }

  // ---------------------------------------------------------------------
  // The rewrite is local: it depends only on what lies ahead, and a
  // separator that is neither a word character nor `:` splits it.

  lemma {:induction false} RunEndShift(s: string, d: nat, i: nat)
    requires d <= i <= |s|
    ensures RunEnd(s, i) == RunEnd(s[d..], i - d) + d
    decreases |s| - i
  {
    if i < |s| && IsWord(s[i]) {
      RunEndShift(s, d, i + 1);
    }
  }

  lemma {:induction false} StepShift(s: string, d: nat, i: nat)
    requires d <= i < |s|
    ensures Step(s, i).0 == Step(s[d..], i - d).0
    ensures Step(s, i).1 == Step(s[d..], i - d).1 + d
  {
    var t := s[d..];
    assert t[i - d] == s[i];
    if IsWord(s[i]) {
      var j := RunEnd(s, i);
      RunEndShift(s, d, i);
      assert s[i..j] == t[i - d..j - d];
      if j + 1 < |s| {
        assert t[j - d] == s[j] && t[j - d + 1] == s[j + 1];
        RunEndShift(s, d, j + 1);
      }
    }
  }

  lemma {:induction false} WildcardFromShift(s: string, d: nat, i: nat)
    requires d <= i <= |s|
    ensures WildcardFrom(s, i) == WildcardFrom(s[d..], i - d)
    decreases |s| - i
  {
    if i < |s| {
      StepShift(s, d, i);
      WildcardFromShift(s, d, Step(s, i).1);
    }
  }

  lemma {:induction false} RunEndBeforeSeparator(a: string, c: char, b: string, i: nat)
    requires i <= |a| && !IsWord(c)
    ensures RunEnd(a + [c] + b, i) == RunEnd(a, i)
    decreases |a| - i
  {
    if i < |a| && IsWord(a[i]) {
      RunEndBeforeSeparator(a, c, b, i + 1);
    }
  }

  lemma {:induction false} StepBeforeSeparator(a: string, c: char, b: string, i: nat)
    requires i < |a| && !IsWord(c) && c != ':'
    ensures Step(a + [c] + b, i) == Step(a, i)
  {
    var s := a + [c] + b;
    assert s[i] == a[i];
    if IsWord(a[i]) {
      var j := RunEnd(a, i);
      RunEndBeforeSeparator(a, c, b, i);
      assert s[i..j] == a[i..j];
      if j < |a| {
        assert s[j] == a[j];
      }
      if j + 1 < |a| {
        assert s[j + 1] == a[j + 1];
        RunEndBeforeSeparator(a, c, b, j + 1);
      }
      if j + 1 == |a| {
        assert s[j + 1] == c;
      }
    }
  }

  lemma {:induction false} WildcardFromSplit(a: string, c: char, b: string, i: nat)
    requires i <= |a| && !IsWord(c) && c != ':'
    ensures WildcardFrom(a + [c] + b, i) == WildcardFrom(a, i) + [c] + WildcardFrom(a + [c] + b, |a| + 1)
    decreases |a| - i
  {
    if i == |a| {
      SplitAtSeparatorChar(a, c, b);
    } else {
      var n := SplitOneStep(a, c, b, i);
      WildcardFromSplit(a, c, b, n);
      var t := a + [c] + b;
      Regroup(Step(a, i).0, WildcardFrom(a, n), c, WildcardFrom(t, |a| + 1),
              WildcardFrom(t, i), WildcardFrom(a, i), WildcardFrom(t, n));
    }
  }

  /** At the separator the scan emits it alone and moves past it. */
  lemma {:induction false} SplitAtSeparatorChar(a: string, c: char, b: string)
    requires !IsWord(c)
    ensures WildcardFrom(a + [c] + b, |a|) == WildcardFrom(a, |a|) + [c] + WildcardFrom(a + [c] + b, |a| + 1)
  {
    var s := a + [c] + b;
    assert s[|a|] == c;
    NonWordCopied(s, |a|);
    assert WildcardFrom(a, |a|) == "";
  }

  /** A non-word character is copied and the scan moves on by one. */
  lemma {:induction false} NonWordCopied(s: string, i: nat)
    requires i < |s| && !IsWord(s[i])
    ensures WildcardFrom(s, i) == [s[i]] + WildcardFrom(s, i + 1)
  {
  }

  /** Before the separator, the scan of `a + [c] + b` takes the same step
      as the scan of `a` alone. */
  lemma {:induction false} SplitOneStep(a: string, c: char, b: string, i: nat) returns (n: nat)
    requires i < |a| && !IsWord(c) && c != ':'
    ensures n == Step(a, i).1 && i < n <= |a|
    ensures WildcardFrom(a + [c] + b, i) == Step(a, i).0 + WildcardFrom(a + [c] + b, n)
    ensures WildcardFrom(a, i) == Step(a, i).0 + WildcardFrom(a, n)
  {
    StepBeforeSeparator(a, c, b, i);
    n := Step(a, i).1;
  }

  /** Regrouping the pieces of `WildcardFromSplit`'s last step. The scan
      terms are passed in as plain strings, so that the solver reasons about
      the concatenation without unfolding them; done inline, the step costs
      `WildcardFromSplit` most of its resource limit. */
  lemma Regroup(e: string, x: string, c: char, r: string, whole: string, part: string, rest: string)
    requires whole == e + rest && rest == x + [c] + r && part == e + x
    ensures whole == part + [c] + r
  {
  }

  /** Terms separated by a character that is neither a word character nor
      `:` (a space, say) are rewritten independently. */
  lemma SplitAtSeparator(a: string, c: char, b: string)
    requires !IsWord(c) && c != ':'
    ensures Wildcard(a + [c] + b) == Wildcard(a) + [c] + Wildcard(b)
  {
    var s := a + [c] + b;
    WildcardFromSplit(a, c, b, 0);
    WildcardFromShift(s, |a| + 1, |a| + 1);
    assert s[|a| + 1..] == b;
  }

  lemma {:induction false} RunEndOfWordPrefix(s: string, i: nat, e: nat)
    requires i <= e <= |s|
    requires forall k :: i <= k < e ==> IsWord(s[k])
    requires e == |s| || !IsWord(s[e])
    ensures RunEnd(s, i) == e
    decreases e - i
  {
    if i < e {
      RunEndOfWordPrefix(s, i + 1, e);
    }
  }

  /** A single `key:value` term keeps its key and loses its value. */
  lemma {:induction false} KeyValue(key: string, value: string)
    requires |key| > 0 && AllWord(key)
    requires |value| > 0 && AllWord(value)
    ensures Wildcard(key + ":" + value) == key + ":*"
  {
    var s := key + ":" + value;
    RunEndOfWordPrefix(s, 0, |key|);
    RunEndOfWordPrefix(s, |key| + 1, |s|);
    assert s[|key|] == ':' && s[|key| + 1] == value[0];
    assert s[0..|key|] == key;
    assert IsWord(s[0]) && MatchesAt(s, 0);
    assert Step(s, 0) == (key + ":*", |s|);
    assert WildcardFrom(s, |s|) == "";
  }

  /** After a match the scan resumes behind the value, so in `key:v:w` the
      second colon starts no match: only `v` is replaced, `w` is kept. */
  lemma {:induction false} ResumeAfterMatch(key: string, v: string, w: string)
    requires |key| > 0 && AllWord(key)
    requires |v| > 0 && AllWord(v)
    requires |w| > 0 && AllWord(w)
    ensures Wildcard(key + ":" + v + ":" + w) == key + ":*:" + w
  {
    var s := key + ":" + v + ":" + w;
    var p := |key| + 1 + |v|;
    assert s == key + ":" + v + (":" + w);
    FirstMatch(key, v, ":" + w);
    ColonThenWord(s, p, w);
    assert WildcardFrom(s, 0) == key + ":*" + (":" + w);
    assert key + ":*" + (":" + w) == key + ":*:" + w;
  }

  /** A query that opens with `key:value` followed by a non-word character
      emits `key:*` and resumes at that character. */
  lemma {:induction false} FirstMatch(key: string, v: string, rest: string)
    requires |key| > 0 && AllWord(key)
    requires |v| > 0 && AllWord(v)
    requires |rest| > 0 && !IsWord(rest[0])
    ensures Step(key + ":" + v + rest, 0) == (key + ":*", |key| + 1 + |v|)
  {
    var s := key + ":" + v + rest;
    var p := |key| + 1 + |v|;
    RunEndOfWordPrefix(s, 0, |key|);
    RunEndOfWordPrefix(s, |key| + 1, p);
    assert s[|key|] == ':' && s[|key| + 1] == v[0] && s[p] == rest[0];
    assert s[0..|key|] == key;
  }

  /** A colon followed by a word run that ends the query is copied. */
  lemma {:induction false} ColonThenWord(s: string, p: nat, w: string)
    requires p < |s| && s[p] == ':' && s[p + 1..] == w
    requires |w| > 0 && AllWord(w)
    ensures WildcardFrom(s, p) == ":" + w
  {
    RunEndOfWordPrefix(s, p + 1, |s|);
    assert Step(s, p) == (":", p + 1);
    assert IsWord(s[p + 1]) && !MatchesAt(s, p + 1);
    assert s[p + 1..|s|] == w;
    assert Step(s, p + 1) == (w, |s|);
    assert WildcardFrom(s, p + 1) == w;
  }

  // ---------------------------------------------------------------------
  // The rewrite replaces exactly the matched values.

  /** `[a, b)` is the value run of a match that begins at or after `lo`:
      the maximal word run right after a colon whose left neighbour, the
      last character of the key, is a word character at or after `lo`. */
  predicate ValueCut(s: string, lo: nat, a: nat, b: nat) {
    && lo + 2 <= a < b <= |s|
    && s[a - 1] == ':' && IsWord(s[a - 2])
    && b == RunEnd(s, a)
  }

  /** The cuts are the values of matches, left to right, and each match's
      key lies after the previous value. */
  predicate CutsFrom(s: string, lo: nat, cuts: seq<(nat, nat)>)
    decreases |cuts|
  {
    |cuts| > 0 ==> ValueCut(s, lo, cuts[0].0, cuts[0].1) && CutsFrom(s, cuts[0].1, cuts[1..])
  }

  /** `s[lo..]` with each cut replaced by `*`, and everything else copied. */
  function ApplyCuts(s: string, lo: nat, cuts: seq<(nat, nat)>): string
    requires lo <= |s| && CutsFrom(s, lo, cuts)
    decreases |cuts|
  {
    if |cuts| == 0 then s[lo..]
    else s[lo..cuts[0].0] + "*" + ApplyCuts(s, cuts[0].1, cuts[1..])
  }

  /** Moving the start back over text copied unchanged. */
  lemma ApplyCutsBack(s: string, i: nat, j: nat, cuts: seq<(nat, nat)>)
    requires i <= j <= |s| && CutsFrom(s, j, cuts)
    ensures CutsFrom(s, i, cuts)
    ensures ApplyCuts(s, i, cuts) == s[i..j] + ApplyCuts(s, j, cuts)
  {
    if |cuts| == 0 {
      assert s[i..] == s[i..j] + s[j..];
    } else {
      var a := cuts[0].0;
      assert s[i..a] == s[i..j] + s[j..a];
    }
  }

  /** The scan from `i` is `s[i..]` with the values of its matches cut out
      and replaced by `*`. */
  lemma {:induction false} WildcardFromCuts(s: string, i: nat) returns (cuts: seq<(nat, nat)>)
    requires i <= |s|
    ensures CutsFrom(s, i, cuts)
    ensures WildcardFrom(s, i) == ApplyCuts(s, i, cuts)
    decreases |s| - i
  {
    if i == |s| {
      cuts := [];
      return;
    }
    var rest := WildcardFromCuts(s, Step(s, i).1);
    if IsWord(s[i]) && MatchesAt(s, i) {
      cuts := MatchCut(s, i, rest);
    } else {
      CopiedStep(s, i, rest);
      cuts := rest;
    }
  }

  /** A step that matches adds the cut of its value in front of the cuts
      of the rest of the scan. */
  lemma {:induction false} MatchCut(s: string, i: nat, rest: seq<(nat, nat)>) returns (cuts: seq<(nat, nat)>)
    requires i < |s| && IsWord(s[i]) && MatchesAt(s, i)
    requires CutsFrom(s, Step(s, i).1, rest) && WildcardFrom(s, Step(s, i).1) == ApplyCuts(s, Step(s, i).1, rest)
    ensures CutsFrom(s, i, cuts)
    ensures WildcardFrom(s, i) == ApplyCuts(s, i, cuts)
  {
    var a := MatchStep(s, i);
    var j := Step(s, i).1;
    cuts := [(a, j)] + rest;
    assert cuts[1..] == rest;
    var x := ApplyCuts(s, j, rest);
    assert ApplyCuts(s, i, cuts) == s[i..a] + "*" + x;
    assert WildcardFrom(s, i) == Step(s, i).0 + x;
  }

  /** A matching step keeps everything up to the value, which starts at `a`,
      emits `*` for it, and resumes behind it. */
  lemma {:induction false} MatchStep(s: string, i: nat) returns (a: nat)
    requires i < |s| && IsWord(s[i]) && MatchesAt(s, i)
    ensures ValueCut(s, i, a, Step(s, i).1)
    ensures Step(s, i).0 == s[i..a] + "*"
  {
    var e := RunEnd(s, i);
    a := e + 1;
    assert Step(s, i) == (s[i..e] + ":*", RunEnd(s, a));
    assert s[i..a] == s[i..e] + ":";
  }

  /** A step that copies its text leaves the cuts of the rest of the scan
      as they are. */
  lemma {:induction false} CopiedStep(s: string, i: nat, rest: seq<(nat, nat)>)
    requires i < |s| && !(IsWord(s[i]) && MatchesAt(s, i))
    requires CutsFrom(s, Step(s, i).1, rest) && WildcardFrom(s, Step(s, i).1) == ApplyCuts(s, Step(s, i).1, rest)
    ensures CutsFrom(s, i, rest)
    ensures WildcardFrom(s, i) == ApplyCuts(s, i, rest)
  {
    var j := Step(s, i).1;
    assert Step(s, i).0 == s[i..j];
    ApplyCutsBack(s, i, j, rest);
  }

  /** Keys and every character outside the matched values survive in place:
      the rewrite is the query with the value of each match, taken left to
      right and resuming after each value, replaced by `*`. */
  lemma WildcardCuts(q: string) returns (cuts: seq<(nat, nat)>)
    ensures CutsFrom(q, 0, cuts)
    ensures Wildcard(q) == ApplyCuts(q, 0, cuts)
  {
    cuts := WildcardFromCuts(q, 0);
  }

  // ---------------------------------------------------------------------
  // Everything but word characters is kept, in order.

  /** The characters of `s` that are neither word characters nor `*`. */
  function Skeleton(s: string): string {
    if |s| == 0 then ""
    else if IsWord(s[0]) || s[0] == '*' then Skeleton(s[1..])
    else [s[0]] + Skeleton(s[1..])
  }

  lemma {:induction false} SkeletonConcat(a: string, b: string)
    ensures Skeleton(a + b) == Skeleton(a) + Skeleton(b)
  {
    if |a| > 0 {
      assert (a + b)[0] == a[0];
      assert (a + b)[1..] == a[1..] + b;
      SkeletonConcat(a[1..], b);
    } else {
      assert a + b == b;
    }
  }

  lemma {:induction false} SkeletonOfWords(s: string)
    requires AllWord(s)
    ensures Skeleton(s) == ""
  {
    if |s| > 0 {
      SkeletonOfWords(s[1..]);
    }
  }

  lemma {:induction false} StepSkeleton(s: string, i: nat)
    requires i < |s|
    ensures Skeleton(Step(s, i).0) == Skeleton(s[i..Step(s, i).1])
  {
    if IsWord(s[i]) {
      var j := RunEnd(s, i);
      SkeletonOfWords(s[i..j]);
      if MatchesAt(s, i) {
        var k := RunEnd(s, j + 1);
        SkeletonOfWords(s[j + 1..k]);
        assert s[i..k] == s[i..j] + ([':'] + s[j + 1..k]);
        SkeletonConcat(s[i..j], [':'] + s[j + 1..k]);
        SkeletonConcat([':'], s[j + 1..k]);
        SkeletonConcat(s[i..j], ":*");
        assert Skeleton(":*") == ":";
      }
    }
  }

  lemma {:induction false} SkeletonFrom(s: string, i: nat)
    requires i <= |s|
    ensures Skeleton(WildcardFrom(s, i)) == Skeleton(s[i..])
    decreases |s| - i
  {
    if i < |s| {
      var (out, n) := Step(s, i);
      SkeletonFrom(s, n);
      StepSkeleton(s, i);
      SkeletonConcat(out, WildcardFrom(s, n));
      assert s[i..] == s[i..n] + s[n..];
      SkeletonConcat(s[i..n], s[n..]);
    }
  }

  /** Colons, spaces and every other character outside word runs survive
      the rewrite unchanged and in their order; only word characters are
      dropped and only `*` is added. */
  lemma SkeletonKept(q: string)
    ensures Skeleton(Wildcard(q)) == Skeleton(q)
  {
    SkeletonFrom(q, 0);
    assert q[0..] == q;
  }
}
