module Recutting {
  /** When the sentences spoken do not depend on how the reply was cut into deltas
      (owen-voice/app/dsp.py, split_speakable; owen-voice/app/pipeline.py, `produce`).

      A delta that ends in '.', '!' or '?' ends a sentence, because nothing follows it yet; in one piece the
      same text may go on, as in "3.5". */

  import opened Bytes
  import opened Speakable

  // --- the sentences of a text in one piece ------------------------------------------

  /** How many characters the first sentence takes: up to its end, or all there are. */
  function SegmentEnd(s: string): (m: nat)
    ensures m <= |s| && (s != "" ==> m > 0)
  {
    if s == "" then 0 else if CutAfter(s, 0) then 1 else 1 + SegmentEnd(s[1..])
  }

  /** The sentences of a whole text. */
  function Pieces(s: string): seq<string>
    decreases |s|
  {
    if s == "" then [] else NonEmpty(Strip(s[..SegmentEnd(s)])) + Pieces(s[SegmentEnd(s)..])
  }

  lemma {:induction false} CutInSuffix(s: string, k: nat, i: nat)
    requires k <= i < |s|
    ensures CutAfter(s[k..], i - k) <==> CutAfter(s, i)
  {
    assert i + 1 < |s| ==> s[k..][i - k + 1] == s[i + 1];
  }

  lemma {:induction false} CutInPrefix(a: string, b: string, i: nat)
    requires i < |a|
    ensures CutAfter(a + b, i) ==> CutAfter(a, i)
    ensures i + 1 < |a| || b == "" ==> (CutAfter(a + b, i) <==> CutAfter(a, i))
  {
    assert i + 1 < |a| ==> (a + b)[i + 1] == a[i + 1];
    assert b == "" ==> a + b == a;
  }

  lemma {:induction false} SegmentEndIs(s: string)
    requires s != ""
    ensures var m := SegmentEnd(s); (m == |s| || CutAfter(s, m - 1)) && forall i :: 0 <= i < m - 1 ==> !CutAfter(s, i)
  {
    hide CutAfter;
    if !CutAfter(s, 0) && |s| > 1 {
      SegmentEndIs(s[1..]);
      var m := SegmentEnd(s);
      CutInSuffix(s, 1, m - 1);
      forall i | 0 <= i < m - 1
        ensures !CutAfter(s, i)
      {
        if i > 0 {
          CutInSuffix(s, 1, i);
        }
      }
    }
  }

  lemma {:induction false} SegmentEndUnique(s: string, m: nat)
    requires 0 < m <= |s| && (m == |s| || CutAfter(s, m - 1)) && forall i :: 0 <= i < m - 1 ==> !CutAfter(s, i)
    ensures SegmentEnd(s) == m
  {
    hide CutAfter, SegmentEnd;
    SegmentEndIs(s);
  }

  // --- finding sentences step by step ------------------------------------------------

  function Found(s: string): seq<string> { Sentences(s, 0, 0).0 }

  function Kept(s: string): (k: string)
    ensures |k| <= |s| && k == s[|s| - |k|..]
  {
    SentencesBound(s, 0, 0);
    s[Sentences(s, 0, 0).1..]
  }

  lemma {:induction false} Shift(s: string, k: nat, start: nat, i: nat)
    requires k <= start <= i <= |s|
    ensures var (found, rest) := Sentences(s, start, i); Sentences(s[k..], start - k, i - k) == (found, rest - k)
    decreases |s| - i
  {
    hide CutAfter, Strip;
    if i < |s| {
      CutInSuffix(s, k, i);
      assert s[k..][start - k..i - k + 1] == s[start..i + 1];
      if CutAfter(s, i) {
        Shift(s, k, i + 1, i + 1);
      } else {
        Shift(s, k, start, i + 1);
      }
    }
  }

  lemma {:induction false} SkipTo(s: string, i: nat, m: nat)
    requires i < m <= |s| && CutAfter(s, m - 1) && forall k :: i <= k < m - 1 ==> !CutAfter(s, k)
    ensures var (later, rest) := Sentences(s, m, m);
      Sentences(s, 0, i) == (NonEmpty(Strip(s[0..m])) + later, rest)
    decreases m - i
  {
    hide CutAfter, Strip, NonEmpty;
    if i + 1 < m {
      SkipTo(s, i + 1, m);
    }
  }

  /** The first sentence, then the rest. */
  lemma {:induction false} FoundStep(s: string)
    requires s != "" && CutAfter(s, SegmentEnd(s) - 1)
    ensures var m := SegmentEnd(s); Found(s) == NonEmpty(Strip(s[..m])) + Found(s[m..]) && Kept(s) == Kept(s[m..])
  {
    hide CutAfter, Strip, NonEmpty, SegmentEnd, Sentences;
    var m := SegmentEnd(s);
    SegmentEndIs(s);
    SkipTo(s, 0, m);
    Shift(s, m, m, m);
    SentencesBound(s, m, m);
    assert s[0..m] == s[..m];
  }

  lemma {:induction false} FoundNone(s: string)
    requires NoCut(s)
    ensures Found(s) == [] && Kept(s) == s
  {
    NoSentence(s, 0);
  }

  lemma {:induction false} NoCutToTheEnd(s: string)
    requires s != "" && !CutAfter(s, SegmentEnd(s) - 1)
    ensures NoCut(s) && SegmentEnd(s) == |s|
  {
    hide CutAfter, SegmentEnd;
    SegmentEndIs(s);
  }

  lemma {:induction false} PiecesStep(s: string)
    requires s != ""
    ensures Pieces(s) == NonEmpty(Strip(s[..SegmentEnd(s)])) + Pieces(s[SegmentEnd(s)..])
  {
    hide SegmentEnd, Strip, NonEmpty;
  }

  lemma {:induction false} PiecesOfNoCut(s: string)
    requires NoCut(s)
    ensures Pieces(s) == NonEmpty(Strip(s))
  {
    hide CutAfter, SegmentEnd;
    if s != "" {
      SegmentEndIs(s);
      assert s[..|s|] == s && s[|s|..] == "";
      hide Strip, NonEmpty;
      assert NonEmpty(Strip(s)) + [] == NonEmpty(Strip(s));
    }
  }

  // --- white space -------------------------------------------------------------------

  predicate Blank(s: string) { forall i :: 0 <= i < |s| ==> IsSpace(s[i]) }

  lemma {:induction false} StripOfBlank(s: string)
    requires Blank(s)
    ensures Strip(s) == "" && LStrip(s) == ""
  {
    if s != "" {
      StripOfBlank(s[1..]);
    }
  }

  lemma {:induction false} WordsOfSolid(s: string, i: nat)
    requires i < |s| && !IsSpace(s[i])
    ensures Words(s) != ""
  {
    if i > 0 {
      WordsOfSolid(s[1..], i - 1);
    }
  }

  lemma {:induction false} StripOfSolid(s: string, i: nat)
    requires i < |s| && !IsSpace(s[i])
    ensures Strip(s) != ""
  {
    hide Strip;
    WordsOfSolid(s, i);
    StripKeepsWords(s);
  }

  lemma {:induction false} RStripDrops(s: string, blank: string)
    requires Blank(blank)
    ensures RStrip(s + blank) == RStrip(s)
    decreases |blank|
  {
    if blank == "" {
      assert s + blank == s;
    } else {
      assert (s + blank)[..|s + blank| - 1] == s + blank[..|blank| - 1];
      RStripDrops(s, blank[..|blank| - 1]);
    }
  }

  lemma {:induction false} LStripPasses(s: string, t: string, i: nat)
    requires i < |s| && !IsSpace(s[i])
    ensures LStrip(s + t) == LStrip(s) + t
  {
    if i > 0 && IsSpace(s[0]) {
      assert (s + t)[1..] == s[1..] + t;
      LStripPasses(s[1..], t, i - 1);
    }
  }

  lemma {:induction false} StripDrops(s: string, blank: string, i: nat)
    requires i < |s| && !IsSpace(s[i]) && Blank(blank)
    ensures Strip(s + blank) == Strip(s)
  {
    hide RStrip, LStrip;
    LStripPasses(s, blank, i);
    RStripDrops(LStrip(s), blank);
  }

  // --- joining two stretches of text -------------------------------------------------

  /** The cut between `a` and `b` ends a sentence that the whole text does not end there, and what follows
      up to the sentence's own end is more than white space. */
  predicate Breaks(a: string, b: string) {
    && a != "" && b != ""
    && SentenceEnd(a[|a| - 1]) && !CutAfter(a + b, |a| - 1)
    && !Blank(b[..SegmentEnd(b)])
  }

  /** The end of a sentence inside the text, unless the cut itself made it. */
  lemma {:induction false} JoinAtTheCut(a: string, b: string)
    requires a != "" && SentenceEnd(a[|a| - 1]) && SegmentEnd(a) == |a|
    ensures !Breaks(a, b) ==> NonEmpty(Strip(a)) + Pieces(b) == Pieces(a + b)
    ensures Breaks(a, b) ==> |NonEmpty(Strip(a)) + Pieces(b)| == |Pieces(a + b)| + 1
  {
    hide CutAfter, SegmentEnd, Strip, Pieces, Blank;
    SegmentEndIs(a);
    if b == "" {
      assert a + b == a && a[..|a|] == a && a[|a|..] == "";
      PiecesStep(a);
    } else if CutAfter(a + b, |a| - 1) {
      SameHead(a, b);
      SegmentEndUnique(a + b, |a|);
      PiecesStep(a + b);
      assert (a + b)[..|a|] == a && (a + b)[|a|..] == b;
    } else {
      JoinMerges(a, b);
    }
  }

  lemma {:induction false} SameHead(a: string, b: string)
    requires a != "" && forall i :: 0 <= i < |a| - 1 ==> !CutAfter(a, i)
    ensures forall i :: 0 <= i < |a| - 1 ==> !CutAfter(a + b, i)
  {
    hide CutAfter;
    forall i | 0 <= i < |a| - 1
      ensures !CutAfter(a + b, i)
    {
      CutInPrefix(a, b, i);
    }
  }

  lemma {:induction false} MergedEnd(a: string, b: string)
    requires a != "" && b != "" && !CutAfter(a + b, |a| - 1) && forall i :: 0 <= i < |a| - 1 ==> !CutAfter(a, i)
    ensures SegmentEnd(a + b) == |a| + SegmentEnd(b)
  {
    hide CutAfter, SegmentEnd;
    SameHead(a, b);
    SegmentEndIs(b);
    var n := SegmentEnd(b);
    assert (a + b)[|a|..] == b;
    CutInSuffix(a + b, |a|, |a| + n - 1);
    forall i | 0 <= i < |a| + n - 1
      ensures !CutAfter(a + b, i)
    {
      if i >= |a| {
        CutInSuffix(a + b, |a|, i);
      }
    }
    SegmentEndUnique(a + b, |a| + n);
  }

  lemma {:induction false} SentenceEndIsSolid(a: string, b: string)
    requires a != "" && b != "" && SentenceEnd(a[|a| - 1]) && !CutAfter(a + b, |a| - 1)
    ensures !IsSpace(a[|a| - 1])
  {
  }

  lemma {:induction false} JoinMerges(a: string, b: string)
    requires a != "" && b != "" && SentenceEnd(a[|a| - 1]) && !CutAfter(a + b, |a| - 1)
    requires forall i :: 0 <= i < |a| - 1 ==> !CutAfter(a, i)
    ensures !Breaks(a, b) ==> NonEmpty(Strip(a)) + Pieces(b) == Pieces(a + b)
    ensures Breaks(a, b) ==> |NonEmpty(Strip(a)) + Pieces(b)| == |Pieces(a + b)| + 1
  {
    SentenceEndIsSolid(a, b);
    MergedEnd(a, b);
    BreaksHere(a, b);
    hide *;
    PiecesStep(b);
    PiecesOfMerged(a, b);
    MergeCounts(a, b[..SegmentEnd(b)], Pieces(b[SegmentEnd(b)..]));
  }

  lemma {:induction false} PiecesOfMerged(a: string, b: string)
    requires a != "" && SegmentEnd(a + b) == |a| + SegmentEnd(b)
    ensures Pieces(a + b) == NonEmpty(Strip(a + b[..SegmentEnd(b)])) + Pieces(b[SegmentEnd(b)..])
  {
    hide *;
    PiecesStep(a + b);
    CutLater(a, b, SegmentEnd(b));
  }

  lemma {:induction false} BreaksHere(a: string, b: string)
    requires a != "" && b != "" && SentenceEnd(a[|a| - 1]) && !CutAfter(a + b, |a| - 1)
    ensures Breaks(a, b) <==> !Blank(b[..SegmentEnd(b)])
  {
  }

  lemma {:induction false} MergeCounts(a: string, next: string, tail: seq<string>)
    requires a != "" && !IsSpace(a[|a| - 1])
    ensures var apart, merged := NonEmpty(Strip(a)) + (NonEmpty(Strip(next)) + tail), NonEmpty(Strip(a + next)) + tail;
      if Blank(next) then apart == merged else |apart| == |merged| + 1
  {
    hide Strip, IsSpace;
    assert (a + next)[|a| - 1] == a[|a| - 1];
    StripOfSolid(a, |a| - 1);
    StripOfSolid(a + next, |a| - 1);
    if Blank(next) {
      StripDrops(a, next, |a| - 1);
      StripOfBlank(next);
      assert [] + tail == tail;
    } else {
      var i :| 0 <= i < |next| && !IsSpace(next[i]);
      StripOfSolid(next, i);
    }
  }

  /** Taking the finished sentences out of `a` before `b` arrives gives the sentences of `a + b`, or one
      too many. */
  lemma {:induction false} Join(a: string, b: string)
    ensures !Breaks(a, b) ==> Found(a) + Pieces(Kept(a) + b) == Pieces(a + b)
    ensures Breaks(a, b) ==> |Found(a) + Pieces(Kept(a) + b)| == |Pieces(a + b)| + 1
    decreases |a|
  {
    hide *;
    if a == "" || !CutAfter(a, SegmentEnd(a) - 1) {
      JoinUncut(a, b);
    } else if SegmentEnd(a) == |a| {
      JoinOne(a, b);
    } else {
      FoundStep(a);
      JoinLater(a, b);
      var m := SegmentEnd(a);
      Join(a[m..], b);
      Associate(NonEmpty(Strip(a[..m])), Found(a[m..]), Pieces(Kept(a) + b));
    }
  }

  lemma {:induction false} JoinUncut(a: string, b: string)
    requires a == "" || !CutAfter(a, SegmentEnd(a) - 1)
    ensures !Breaks(a, b) && Found(a) + Pieces(Kept(a) + b) == Pieces(a + b)
  {
    hide CutAfter, SegmentEnd, Pieces, Found, Kept, SentenceEnd, Blank;
    if a != "" {
      NoCutToTheEnd(a);
      EndIsCut(a);
    }
    FoundNone(a);
    assert [] + Pieces(a + b) == Pieces(a + b);
  }

  lemma {:induction false} JoinOne(a: string, b: string)
    requires a != "" && SegmentEnd(a) == |a| && CutAfter(a, |a| - 1)
    ensures !Breaks(a, b) ==> Found(a) + Pieces(Kept(a) + b) == Pieces(a + b)
    ensures Breaks(a, b) ==> |Found(a) + Pieces(Kept(a) + b)| == |Pieces(a + b)| + 1
  {
    hide *;
    FoundOne(a);
    CutEnds(a, |a| - 1);
    JoinAtTheCut(a, b);
    Whole(b);
  }

  lemma {:induction false} FoundOne(a: string)
    requires a != "" && SegmentEnd(a) == |a| && CutAfter(a, |a| - 1)
    ensures Found(a) == NonEmpty(Strip(a)) && Kept(a) == ""
  {
    FoundNone("");
    hide *;
    FoundStep(a);
    Whole(a);
    Whole(NonEmpty(Strip(a)));
  }

  lemma {:induction false} EndIsCut(s: string)
    requires s != "" && NoCut(s)
    ensures !SentenceEnd(s[|s| - 1])
  {
    assert !CutAfter(s, |s| - 1);
  }

  lemma {:induction false} CutEnds(s: string, i: nat)
    requires i < |s| && CutAfter(s, i)
    ensures SentenceEnd(s[i])
  {
  }

  lemma {:induction false} JoinLater(a: string, b: string)
    requires a != "" && SegmentEnd(a) < |a|
    ensures var m := SegmentEnd(a); Pieces(a + b) == NonEmpty(Strip(a[..m])) + Pieces(a[m..] + b)
    ensures Breaks(a, b) <==> Breaks(a[SegmentEnd(a)..], b)
  {
    hide CutAfter, SegmentEnd, Strip, Pieces, NonEmpty, SentenceEnd, Blank;
    var m := SegmentEnd(a);
    SegmentEndIs(a);
    CutInPrefix(a, b, m - 1);
    forall i | 0 <= i < m - 1
      ensures !CutAfter(a + b, i)
    {
      CutInPrefix(a, b, i);
    }
    SegmentEndUnique(a + b, m);
    PiecesStep(a + b);
    assert (a + b)[..m] == a[..m] && (a + b)[m..] == a[m..] + b;
    CutInSuffix(a + b, m, |a| - 1);
  }

  /** Leading white space that ends no sentence does not matter. */
  lemma {:induction false} DropBlank(s: string)
    requires s != "" && IsSpace(s[0]) && !CutAfter(s, 0)
    ensures Pieces(s) == Pieces(s[1..])
  {
    hide CutAfter, Strip, NonEmpty, IsSpace;
    var t := s[1..];
    if t == "" {
      assert Blank(s);
      StripOfBlank(s);
      assert s[..1] == s;
      NonEmptyNothing();
    } else {
      PiecesStep(s);
      PiecesStep(t);
      var n := SegmentEnd(t);
      hide Pieces, SegmentEnd;
      assert s[..1 + n][1..] == t[..n] && s[1 + n..] == t[n..];
      StripSkips(s[..1 + n]);
    }
  }

  lemma {:induction false} NonEmptyNothing()
    ensures NonEmpty("") == []
  {
  }

  lemma {:induction false} StripSkips(s: string)
    requires s != "" && IsSpace(s[0])
    ensures Strip(s) == Strip(s[1..])
  {
  }

  lemma {:induction false} DropBlanks(s: string, b: string)
    requires NoCut(s)
    ensures Pieces(LStrip(s) + b) == Pieces(s + b)
    decreases |s|
  {
    hide CutAfter, Pieces, IsSpace;
    if s != "" && IsSpace(s[0]) {
      CutInPrefix(s, b, 0);
      DropBlank(s + b);
      assert (s + b)[1..] == s[1..] + b;
      NoCutSuffix(s, 1);
      DropBlanks(s[1..], b);
    }
  }

  // --- whole replies -----------------------------------------------------------------

  predicate SentenceEndsWithin(s: string, a: nat)
    requires a + FORCE_AT <= |s|
  {
    exists i :: a <= i < a + FORCE_AT && CutAfter(s, i)
  }

  /** Every `FORCE_AT` characters in a row hold the end of a sentence, so none is ever cut by force. */
  predicate ShortSentences(s: string) {
    forall a :: 0 <= a <= |s| - FORCE_AT ==> SentenceEndsWithin(s, a)
  }

  lemma {:induction false} ShortSuffix(s: string, k: nat)
    requires k <= |s| && ShortSentences(s)
    ensures ShortSentences(s[k..])
  {
    hide CutAfter;
    var t := s[k..];
    forall a | 0 <= a <= |t| - FORCE_AT
      ensures SentenceEndsWithin(t, a)
    {
      assert SentenceEndsWithin(s, k + a);
      var i :| k + a <= i < k + a + FORCE_AT && CutAfter(s, i);
      CutInSuffix(s, k, i);
      assert CutAfter(t, i - k);
    }
  }

  lemma {:induction false} KeptIsUncut(s: string)
    ensures NoCut(Kept(s)) && NoCut(LStrip(Kept(s)))
  {
    hide CutAfter, LStrip, Sentences;
    NoCutRemains(s, 0, 0);
    NoCutStripped(Kept(s));
  }

  lemma {:induction false} UncutIsShort(s: string, b: string)
    requires NoCut(s) && ShortSentences(s + b)
    ensures |s| < FORCE_AT
  {
    hide CutAfter;
    if |s| >= FORCE_AT {
      assert SentenceEndsWithin(s + b, 0);
      var i :| 0 <= i < FORCE_AT && CutAfter(s + b, i);
      CutInPrefix(s, b, i);
    }
  }

  lemma {:induction false} ShortSuffixOf(a: string, b: string, k: string)
    requires ShortSentences(a + b) && |k| <= |a| && k == a[|a| - |k|..]
    ensures ShortSentences(k + b)
  {
    hide ShortSentences;
    assert (a + b)[|a| - |k|..] == k + b;
    ShortSuffix(a + b, |a| - |k|);
  }

  /** Without force, a split takes what is found and keeps the rest. */
  lemma {:induction false} SplitUnforced(a: string, b: string)
    requires ShortSentences(a + b)
    ensures Split(a, FORCE_AT).0 == Found(a)
    ensures Split(a, FORCE_AT).1 == if Found(a) != [] then LStrip(Kept(a)) else Kept(a)
    ensures ShortSentences(Kept(a) + b) && ShortSentences(LStrip(Kept(a)) + b)
  {
    hide CutAfter, LStrip, Sentences, ShortSentences, NoCut, Strip, NonEmpty, ForcedCut;
    KeptIsUncut(a);
    LStripKeepsWords(Kept(a));
    var k, l := Kept(a), LStrip(Kept(a));
    ShortSuffixOf(a, b, k);
    ShortSuffixOf(a, b, l);
    UncutIsShort(k, b);
    SplitCases(a, FORCE_AT);
  }

  /** No cut between what came before and what comes after breaks a sentence. */
  predicate CleanFrom(before: string, deltas: seq<string>)
    decreases |deltas|
  {
    deltas == [] || (!Breaks(before + deltas[0], Flatten(deltas[1..])) && CleanFrom(before + deltas[0], deltas[1..]))
  }

  /** Whether a cut breaks a sentence depends only on the last character before it. */
  lemma {:induction false} BreaksByLast(a: string, a': string, b: string)
    requires a != "" && a' != "" && a[|a| - 1] == a'[|a'| - 1]
    ensures Breaks(a, b) <==> Breaks(a', b)
  {
    assert b != "" ==> (a + b)[|a|] == b[0] && (a' + b)[|a'|] == b[0];
  }

  lemma {:induction false} CleanByLast(a: string, a': string, deltas: seq<string>)
    requires a != "" && a' != "" && a[|a| - 1] == a'[|a'| - 1]
    ensures CleanFrom(a, deltas) <==> CleanFrom(a', deltas)
    decreases |deltas|
  {
    hide Breaks;
    if deltas != [] {
      BreaksByLast(a + deltas[0], a' + deltas[0], Flatten(deltas[1..]));
      CleanByLast(a + deltas[0], a' + deltas[0], deltas[1..]);
    }
  }

  lemma {:induction false} CleanFromStart(a: string, deltas: seq<string>)
    requires a != "" && !Breaks(a, Flatten(deltas))
    ensures CleanFrom(a, deltas) <==> CleanFrom("", deltas)
    decreases |deltas|
  {
    hide Breaks;
    if deltas != [] {
      var d := deltas[0];
      if d == "" {
        assert a + d == a && "" + d == "" && d + Flatten(deltas[1..]) == Flatten(deltas[1..]);
        NothingBreaks(Flatten(deltas[1..]));
        CleanFromStart(a, deltas[1..]);
      } else {
        assert "" + d == d;
        BreaksByLast(a + d, d, Flatten(deltas[1..]));
        CleanByLast(a + d, d, deltas[1..]);
      }
    }
  }

  lemma {:induction false} NothingBreaks(b: string)
    ensures !Breaks("", b)
  {
  }

  /** The text kept after a delta meets the same cuts as the text it is kept from. */
  lemma {:induction false} CleanAfterSplit(a: string, kept: string, deltas: seq<string>)
    requires !Breaks(a, Flatten(deltas)) && |kept| <= |a| && kept == a[|a| - |kept|..]
    ensures CleanFrom(kept, deltas) <==> CleanFrom(a, deltas)
  {
    if kept != "" {
      CleanByLast(a, kept, deltas);
    } else if a != "" {
      CleanFromStart(a, deltas);
    }
  }

  /** Streaming gives the sentences of the whole text when no cut breaks one, and more of them otherwise. */
  lemma {:induction false} ProducedAgainstPieces(buf: string, deltas: seq<string>)
    requires NoCut(buf) && ShortSentences(buf + Flatten(deltas))
    ensures |Produced(buf, deltas)| >= |Pieces(buf + Flatten(deltas))|
    ensures CleanFrom(buf, deltas) ==> Produced(buf, deltas) == Pieces(buf + Flatten(deltas))
    ensures !CleanFrom(buf, deltas) ==> |Produced(buf, deltas)| > |Pieces(buf + Flatten(deltas))|
    decreases |deltas|
  {
    hide NoCut, ShortSentences, Breaks, Pieces, Found, Kept, LStrip, Split, Strip, NonEmpty;
    if deltas == [] {
      assert buf + Flatten(deltas) == buf;
      PiecesOfNoCut(buf);
    } else {
      var a, b := buf + deltas[0], Flatten(deltas[1..]);
      assert buf + Flatten(deltas) == a + b;
      SplitUnforced(a, b);
      KeptIsUncut(a);
      DropBlanks(Kept(a), b);
      Join(a, b);
      var rest := Split(a, FORCE_AT).1;
      ProducedAgainstPieces(rest, deltas[1..]);
      LStripKeepsWords(Kept(a));
      if !Breaks(a, b) {
        CleanAfterSplit(a, rest, deltas[1..]);
      }
    }
  }

  /** Every cut of the reply falls where no sentence is broken. */
  predicate CutCleanly(deltas: seq<string>) {
    forall k :: 0 <= k <= |deltas| ==> !Breaks(Flatten(deltas[..k]), Flatten(deltas[k..]))
  }

  lemma {:induction false} CleanIsEverywhere(before: seq<string>, deltas: seq<string>)
    ensures CleanFrom(Flatten(before), deltas)
       <==> forall k :: |before| < k <= |before + deltas| ==>
              !Breaks(Flatten((before + deltas)[..k]), Flatten((before + deltas)[k..]))
    decreases |deltas|
  {
    hide Breaks, Flatten;
    var all := before + deltas;
    if deltas != [] {
      var next := before + [deltas[0]];
      assert next + deltas[1..] == all;
      CleanIsEverywhere(next, deltas[1..]);
      FlattenAppend(before, [deltas[0]]);
      FlattenOne(deltas[0]);
      assert all[..|next|] == next && all[|next|..] == deltas[1..];
    }
  }

  lemma {:induction false} CleanIsCutCleanly(deltas: seq<string>)
    ensures CleanFrom("", deltas) <==> CutCleanly(deltas)
  {
    hide Breaks, Flatten;
    CleanIsEverywhere([], deltas);
    assert [] + deltas == deltas && deltas[..0] == [];
    FlattenNothing<char>();
    NothingBreaks(Flatten(deltas[0..]));
  }

  /** The sentences of a streamed reply are those of the same reply in one piece exactly when no cut breaks
      a sentence, for every reply whose sentences are short enough never to be cut by force. */
  lemma {:induction false} SentencesIgnoreTheDeltasExactlyWhen(deltas: seq<string>)
    requires ShortSentences(Flatten(deltas))
    ensures Produced("", deltas) == Produced("", [Flatten(deltas)]) <==> CutCleanly(deltas)
  {
    hide Breaks, Produced, ShortSentences, NoCut, Pieces;
    var reply := Flatten(deltas);
    NothingUncut();
    assert "" + reply == reply;
    ProducedAgainstPieces("", deltas);
    CleanIsCutCleanly(deltas);
    FlattenOne(reply);
    OnePieceIsClean(reply);
    ProducedAgainstPieces("", [reply]);
  }

  lemma {:induction false} NothingUncut()
    ensures NoCut("")
  {
  }

  lemma {:induction false} OnePieceIsClean(reply: string)
    ensures CleanFrom("", [reply])
  {
    assert [reply][1..] == [];
  }

  /** In text whose only white space is blanks, tabs and line breaks: a cut breaks a sentence exactly when
      '.', '!' or '?' stands before it and no white space after it. */
  lemma {:induction false} BreaksInPlainText(a: string, b: string)
    requires forall i :: 0 <= i < |b| && IsSpace(b[i]) ==> b[i] == ' ' || b[i] == '\t' || b[i] == '\n'
    ensures Breaks(a, b) <==> a != "" && b != "" && a[|a| - 1] in {'.', '!', '?'} && !IsSpace(b[0])
  {
    if a != "" && b != "" {
      assert (a + b)[|a| - 1] == a[|a| - 1] && (a + b)[|a|] == b[0];
      assert b[..SegmentEnd(b)][0] == b[0];
    }
  }

  lemma {:induction false} ShortRepliesHaveShortSentences(reply: string)
    requires |reply| < FORCE_AT
    ensures ShortSentences(reply)
  {
  }

  /** The witness: in one piece "3.5" is one sentence, cut after the point it is two. */
  lemma {:induction false} SentencesDependOnTheDeltas()
    ensures Produced("", ["3.5"]) == ["3.5"]
    ensures Produced("", ["3.", "5"]) == ["3.", "5"]
    ensures !CutCleanly(["3.", "5"])
  {
    ProducedTwo();
    var deltas := ["3.", "5"];
    assert Flatten(deltas) == "3.5" by { FlattenOne("5"); assert deltas[1..] == ["5"]; }
    ShortRepliesHaveShortSentences("3.5");
    SentencesIgnoreTheDeltasExactlyWhen(deltas);
  }
}
