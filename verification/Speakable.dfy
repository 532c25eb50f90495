/** Cutting a growing reply into speakable sentences (owen-voice/app/dsp.py, split_speakable) and the
    producer that feeds them to speech (owen-voice/app/pipeline.py, `produce`). */
module Speakable {
  import opened Bytes

  /** The characters Python's `strip` removes. */
  predicate IsSpace(c: char) {
    || c == ' ' || '\t' <= c <= '\r' || '\U{1C}' <= c <= '\U{1F}' || c == '\U{85}' || c == '\U{A0}'
    || c == '\U{1680}' || '\U{2000}' <= c <= '\U{200A}' || c == '\U{2028}' || c == '\U{2029}'
    || c == '\U{202F}' || c == '\U{205F}' || c == '\U{3000}'
  }

  function LStrip(s: string): string {
    if s != "" && IsSpace(s[0]) then LStrip(s[1..]) else s
  }

  function RStrip(s: string): string {
    if s != "" && IsSpace(s[|s| - 1]) then RStrip(s[..|s| - 1]) else s
  }

  function Strip(s: string): string { RStrip(LStrip(s)) }

  predicate Trimmed(s: string) { s != "" ==> !IsSpace(s[0]) && !IsSpace(s[|s| - 1]) }

  /** The words, without the white space between them. */
  function Words(s: string): string {
    if s == "" then "" else (if IsSpace(s[0]) then "" else [s[0]]) + Words(s[1..])
  }

  lemma {:induction false} WordsAppend(a: string, b: string)
    ensures Words(a + b) == Words(a) + Words(b)
  {
    if a == "" {
      assert a + b == b;
    } else {
      assert (a + b)[1..] == a[1..] + b && (a + b)[0] == a[0];
      WordsAppend(a[1..], b);
      var one := if IsSpace(a[0]) then "" else [a[0]];
      assert (one + Words(a[1..])) + Words(b) == one + (Words(a[1..]) + Words(b));
    }
  }

  lemma {:induction false} LStripKeepsWords(s: string)
    ensures Words(LStrip(s)) == Words(s)
    ensures LStrip(s) != "" ==> !IsSpace(LStrip(s)[0])
    ensures |LStrip(s)| <= |s| && LStrip(s) == s[|s| - |LStrip(s)|..]
  {
    if s != "" && IsSpace(s[0]) {
      LStripKeepsWords(s[1..]);
    }
  }

  lemma {:induction false} RStripKeepsWords(s: string)
    ensures Words(RStrip(s)) == Words(s)
    ensures RStrip(s) != "" ==> !IsSpace(RStrip(s)[|RStrip(s)| - 1])
    ensures RStrip(s) <= s
  {
    if s != "" && IsSpace(s[|s| - 1]) {
      var init := s[..|s| - 1];
      RStripKeepsWords(init);
      assert s == init + [s[|s| - 1]];
      WordsAppend(init, [s[|s| - 1]]);
      assert Words([s[|s| - 1]]) == Words([s[|s| - 1]][1..]) == "";
    }
  }

  lemma {:induction false} StripKeepsWords(s: string)
    ensures Words(Strip(s)) == Words(s) && Trimmed(Strip(s)) && |Strip(s)| <= |s|
  {
    LStripKeepsWords(s);
    RStripKeepsWords(LStrip(s));
  }

  // --- split_speakable ---------------------------------------------------------------

  predicate SentenceEnd(c: char) { c == '.' || c == '!' || c == '?' || c == '\n' }

  /** A sentence ends after position `i`: ending punctuation before white space or at the very end, or
      a line break. */
  predicate CutAfter(buffer: string, i: nat)
    requires i < |buffer|
  {
    && SentenceEnd(buffer[i])
    && (i + 1 == |buffer| || buffer[i + 1] == ' ' || buffer[i + 1] == '\n' || buffer[i + 1] == '\t' || buffer[i] == '\n')
  }

  function NonEmpty(piece: string): seq<string> { if piece == "" then [] else [piece] }

  /** The sentences of buffer[start..] found from position `i` on, and where the remainder starts. */
  function Sentences(buffer: string, start: nat, i: nat): (seq<string>, nat)
    requires start <= i <= |buffer|
    decreases |buffer| - i
  {
    if i == |buffer| then ([], start)
    else if CutAfter(buffer, i) then
      var (later, rest) := Sentences(buffer, i + 1, i + 1);
      (NonEmpty(Strip(buffer[start..i + 1])) + later, rest)
    else Sentences(buffer, start, i + 1)
  }

  /** `s.rfind(" ", 0, limit)` */
  function LastSpace(s: string, limit: nat): int
    requires limit <= |s|
  {
    if limit == 0 then -1 else if s[limit - 1] == ' ' then limit - 1 else LastSpace(s, limit - 1)
  }

  function ForcedCut(rest: string, forceAt: nat): (cut: nat)
    requires forceAt <= |rest|
    ensures cut <= forceAt
  {
    LastSpaceBound(rest, forceAt);
    var cut := LastSpace(rest, forceAt);
    if cut > 0 then cut else forceAt
  }

  lemma {:induction false} LastSpaceBound(s: string, limit: nat)
    requires limit <= |s|
    ensures -1 <= LastSpace(s, limit) < limit || (limit == 0 && LastSpace(s, limit) == -1)
  {
    if limit > 0 {
      LastSpaceBound(s, limit - 1);
    }
  }

  /** The chunks that can be spoken now and the text to keep. */
  function Split(buffer: string, forceAt: nat): (seq<string>, string) {
    SentencesBound(buffer, 0, 0);
    var (found, start) := Sentences(buffer, 0, 0);
    var rest := buffer[start..];
    if found == [] && |rest| >= forceAt then
      var cut := ForcedCut(rest, forceAt);
      var out := NonEmpty(Strip(rest[..cut]));
      (out, if out != [] then LStrip(rest[cut..]) else rest[cut..])
    else (found, if found != [] then LStrip(rest) else rest)
  }

  lemma {:induction false} SentencesBound(buffer: string, start: nat, i: nat)
    requires start <= i <= |buffer|
    ensures start <= Sentences(buffer, start, i).1 <= |buffer|
    decreases |buffer| - i
  {
    if i < |buffer| {
      if CutAfter(buffer, i) {
        SentencesBound(buffer, i + 1, i + 1);
      } else {
        SentencesBound(buffer, start, i + 1);
      }
    }
  }

  predicate Speakable(pieces: seq<string>) { forall k :: 0 <= k < |pieces| ==> pieces[k] != "" && Trimmed(pieces[k]) }

  function WordsOfAll(pieces: seq<string>): string {
    if pieces == [] then "" else Words(pieces[0]) + WordsOfAll(pieces[1..])
  }

  lemma {:induction false} WordsOfAllAppend(a: seq<string>, b: seq<string>)
    ensures WordsOfAll(a + b) == WordsOfAll(a) + WordsOfAll(b)
  {
    if a == [] {
      assert a + b == b;
    } else {
      assert (a + b)[1..] == a[1..] + b && (a + b)[0] == a[0];
      WordsOfAllAppend(a[1..], b);
      assert (Words(a[0]) + WordsOfAll(a[1..])) + WordsOfAll(b) == Words(a[0]) + (WordsOfAll(a[1..]) + WordsOfAll(b));
    }
  }

  lemma {:induction false} NonEmptyKeepsWords(piece: string)
    requires Trimmed(piece)
    ensures WordsOfAll(NonEmpty(piece)) == Words(piece) && Speakable(NonEmpty(piece))
  {
    if piece != "" {
      assert [piece][1..] == [];
      assert Words(piece) + "" == Words(piece);
    }
  }

  lemma {:induction false} SentencesKeepWords(buffer: string, start: nat, i: nat)
    requires start <= i <= |buffer|
    ensures var (found, rest) := Sentences(buffer, start, i);
      start <= rest <= |buffer| && WordsOfAll(found) + Words(buffer[rest..]) == Words(buffer[start..]) && Speakable(found)
    decreases |buffer| - i
  {
    hide CutAfter, Words, Strip, WordsOfAll, Trimmed, NonEmpty;
    SentencesBound(buffer, start, i);
    if i == |buffer| {
      NoWords();
      assert "" + Words(buffer[start..]) == Words(buffer[start..]);
    } else if CutAfter(buffer, i) {
      SentencesKeepWords(buffer, i + 1, i + 1);
      SentencesBound(buffer, i + 1, i + 1);
      var (later, rest) := Sentences(buffer, i + 1, i + 1);
      var raw := buffer[start..i + 1];
      StripKeepsWords(raw);
      NonEmptyKeepsWords(Strip(raw));
      WordsOfAllAppend(NonEmpty(Strip(raw)), later);
      WordsAppend(raw, buffer[i + 1..]);
      assert raw + buffer[i + 1..] == buffer[start..];
      assert (Words(raw) + WordsOfAll(later)) + Words(buffer[rest..]) == Words(raw) + (WordsOfAll(later) + Words(buffer[rest..]));
    } else {
      SentencesKeepWords(buffer, start, i + 1);
    }
  }

  lemma {:induction false} NoWords()
    ensures WordsOfAll([]) == ""
  {
  }

  /** Splitting loses no word and invents none; every chunk is trimmed and non-empty. */
  lemma {:induction false} SplitKeepsWords(buffer: string, forceAt: nat)
    ensures var (out, rest) := Split(buffer, forceAt);
      WordsOfAll(out) + Words(rest) == Words(buffer) && Speakable(out)
  {
    hide Sentences, Words, Strip, LStrip, WordsOfAll, Trimmed, NonEmpty, ForcedCut;
    SentencesKeepWords(buffer, 0, 0);
    var (found, start) := Sentences(buffer, 0, 0);
    assert buffer[0..] == buffer;
    var rest := buffer[start..];
    LStripKeepsWords(rest);
    if found == [] && |rest| >= forceAt {
      var cut := ForcedCut(rest, forceAt);
      LStripKeepsWords(rest[cut..]);
      StripKeepsWords(rest[..cut]);
      NonEmptyKeepsWords(Strip(rest[..cut]));
      WordsAppend(rest[..cut], rest[cut..]);
      assert rest[..cut] + rest[cut..] == rest;
      NoWords();
      assert "" + Words(rest) == Words(rest);
    }
  }

  predicate NoCut(s: string) { forall i :: 0 <= i < |s| ==> !CutAfter(s, i) }

  lemma {:induction false} NoCutRemains(buffer: string, start: nat, i: nat)
    requires start <= i <= |buffer| && forall k :: start <= k < i ==> !CutAfter(buffer, k)
    ensures var rest := Sentences(buffer, start, i).1; start <= rest <= |buffer| && NoCut(buffer[rest..])
    decreases |buffer| - i
  {
    SentencesBound(buffer, start, i);
    if i == |buffer| {
      NoCutSuffix(buffer, start);
    } else if CutAfter(buffer, i) {
      NoCutRemains(buffer, i + 1, i + 1);
    } else {
      NoCutRemains(buffer, start, i + 1);
    }
  }

  lemma {:induction false} NoCutSuffix(s: string, k: nat)
    requires k <= |s| && forall i :: k <= i < |s| ==> !CutAfter(s, i)
    ensures NoCut(s[k..])
  {
    forall i | 0 <= i < |s[k..]|
      ensures !CutAfter(s[k..], i)
    {
      assert s[k..][i] == s[k + i];
      assert i + 1 < |s[k..]| ==> s[k..][i + 1] == s[k + i + 1];
      assert !CutAfter(s, k + i);
    }
  }

  lemma {:induction false} NoCutStripped(s: string)
    requires NoCut(s)
    ensures NoCut(LStrip(s))
  {
    hide LStrip, CutAfter;
    LStripKeepsWords(s);
    NoCutSuffix(s, |s| - |LStrip(s)|);
  }

  /** Every sentence that is finished is taken: what is kept contains no cut, so nothing that could be
      spoken now is held back. */
  lemma {:induction false} SplitTakesEverySentence(buffer: string, forceAt: nat)
    ensures NoCut(Split(buffer, forceAt).1)
  {
    hide Sentences, Strip, LStrip, CutAfter, ForcedCut, NoCut;
    NoCutRemains(buffer, 0, 0);
    var rest := buffer[Sentences(buffer, 0, 0).1..];
    NoCutStripped(rest);
    if |rest| >= forceAt {
      var cut := ForcedCut(rest, forceAt);
      NoCutSuffix(rest, cut);
      NoCutStripped(rest[cut..]);
    }
  }

  /** No sentence ends before the last character of `s`. */
  predicate OneSentence(s: string) { forall i :: 0 <= i < |s| - 1 ==> !CutAfter(s, i) }

  lemma {:induction false} OneSentenceSlice(s: string, a: nat, b: nat)
    requires a <= b <= |s| && forall k :: a <= k < b - 1 ==> !CutAfter(s, k)
    ensures OneSentence(s[a..b])
  {
    forall i | 0 <= i < b - a - 1
      ensures !CutAfter(s[a..b], i)
    {
      assert s[a..b][i] == s[a + i] && s[a..b][i + 1] == s[a + i + 1];
      assert !CutAfter(s, a + i);
    }
  }

  lemma {:induction false} OneSentenceStripped(s: string)
    requires OneSentence(s)
    ensures OneSentence(Strip(s))
  {
    hide LStrip, RStrip, CutAfter;
    LStripKeepsWords(s);
    RStripKeepsWords(LStrip(s));
    var a := |s| - |LStrip(s)|;
    var b := a + |Strip(s)|;
    assert Strip(s) == s[a..b];
    OneSentenceSlice(s, a, b);
  }

  predicate AllSingle(pieces: seq<string>) { forall k :: 0 <= k < |pieces| ==> OneSentence(pieces[k]) }

  lemma {:induction false} SentencesAreSingle(buffer: string, start: nat, i: nat)
    requires start <= i <= |buffer| && forall k :: start <= k < i ==> !CutAfter(buffer, k)
    ensures AllSingle(Sentences(buffer, start, i).0)
    decreases |buffer| - i
  {
    hide CutAfter, Strip, OneSentence;
    if i < |buffer| {
      if CutAfter(buffer, i) {
        SentencesAreSingle(buffer, i + 1, i + 1);
        OneSentenceSlice(buffer, start, i + 1);
        OneSentenceStripped(buffer[start..i + 1]);
      } else {
        SentencesAreSingle(buffer, start, i + 1);
      }
    }
  }

  /** No chunk runs past the end of a sentence. */
  lemma {:induction false} SplitGivesSingleSentences(buffer: string, forceAt: nat)
    ensures AllSingle(Split(buffer, forceAt).0)
  {
    hide Sentences, Strip, LStrip, CutAfter, ForcedCut, OneSentence, NoCut;
    SentencesAreSingle(buffer, 0, 0);
    NoCutRemains(buffer, 0, 0);
    var rest := buffer[Sentences(buffer, 0, 0).1..];
    if |rest| >= forceAt {
      ForcedPieceIsSingle(rest, ForcedCut(rest, forceAt));
    }
  }

  lemma {:induction false} ForcedPieceIsSingle(rest: string, cut: nat)
    requires cut <= |rest| && NoCut(rest)
    ensures OneSentence(Strip(rest[..cut]))
  {
    hide CutAfter, Strip;
    OneSentenceSlice(rest, 0, cut);
    assert rest[0..cut] == rest[..cut];
    OneSentenceStripped(rest[..cut]);
  }

  lemma {:induction false} LastSpaceIs(s: string, limit: nat)
    requires limit <= |s|
    ensures var at := LastSpace(s, limit);
      && -1 <= at < limit + 1
      && (at >= 0 ==> at < limit && s[at] == ' ')
      && forall k :: 0 <= k < limit && at < k ==> s[k] != ' '
  {
    if limit > 0 {
      LastSpaceIs(s, limit - 1);
    }
  }

  /** A forced cut breaks a word only when the first `forceAt` characters hold no space to cut at;
      otherwise it falls on the last such space. */
  lemma {:induction false} ForcedCutSparesWords(rest: string, forceAt: nat)
    requires forceAt <= |rest|
    ensures var cut := ForcedCut(rest, forceAt);
      if exists k :: 0 < k < forceAt && rest[k] == ' '
      then 0 < cut < forceAt && rest[cut] == ' ' && forall k :: cut < k < forceAt ==> rest[k] != ' '
      else cut == forceAt
  {
    hide LastSpace;
    LastSpaceIs(rest, forceAt);
  }

  /** A chunk forced out without punctuation is alone and at most `forceAt` characters long. */
  lemma {:induction false} ForcedChunkIsShort(buffer: string, forceAt: nat)
    requires Sentences(buffer, 0, 0).0 == [] && Split(buffer, forceAt).0 != []
    ensures |Split(buffer, forceAt).0| == 1 && |Split(buffer, forceAt).0[0]| <= forceAt
  {
    hide Sentences, Strip, LStrip, CutAfter, ForcedCut;
    SentencesBound(buffer, 0, 0);
    var rest := buffer[Sentences(buffer, 0, 0).1..];
    if |rest| >= forceAt {
      StripKeepsWords(rest[..ForcedCut(rest, forceAt)]);
    }
  }

  /** A cut is forced exactly when no sentence has ended and the text has reached the limit; then something is
      taken if what stands before the cut is not all white space, and in any case the text gets shorter. */
  lemma {:induction false} ForcedExactlyWhen(buffer: string, forceAt: nat)
    requires NoCut(buffer)
    ensures var (out, rest) := Split(buffer, forceAt);
      if |buffer| < forceAt then out == [] && rest == buffer
      else
        var cut := ForcedCut(buffer, forceAt);
        && (out != [] <==> Words(buffer[..cut]) != "")
        && WordsOfAll(out) == Words(buffer[..cut])
        && (forceAt > 0 ==> cut > 0 && |rest| < |buffer|)
  {
    hide Strip, LStrip, CutAfter, ForcedCut, Words, LastSpace;
    NoSentence(buffer, 0);
    assert buffer[0..] == buffer;
    if |buffer| >= forceAt {
      var cut := ForcedCut(buffer, forceAt);
      ForcedCutSparesWords(buffer, forceAt);
      StripKeepsWords(buffer[..cut]);
      NonEmptyKeepsWords(Strip(buffer[..cut]));
      LStripKeepsWords(buffer[cut..]);
      TrimmedHasWords(Strip(buffer[..cut]));
    }
  }

  lemma {:induction false} TrimmedHasWords(s: string)
    requires Trimmed(s)
    ensures Words(s) == "" <==> s == ""
  {
  }

  predicate IsEndOf(s: string, whole: string) { |s| <= |whole| && s == whole[|whole| - |s|..] }

  lemma {:induction false} EndOfEnd(a: string, b: string, c: string)
    requires IsEndOf(a, b) && IsEndOf(b, c)
    ensures IsEndOf(a, c)
  {
  }

  lemma {:induction false} DropIsEnd(s: string, k: nat)
    requires k <= |s|
    ensures IsEndOf(s[k..], s)
  {
  }

  /** What is kept is the end of the buffer, and starts with a word once anything has been taken. */
  lemma {:induction false} SplitKeepsTheEnd(buffer: string, forceAt: nat)
    ensures var (out, rest) := Split(buffer, forceAt);
      IsEndOf(rest, buffer) && (out != [] && rest != "" ==> !IsSpace(rest[0]))
  {
    SplitCases(buffer, forceAt);
    hide Sentences, Split, Strip, LStrip, CutAfter, ForcedCut, NonEmpty, IsSpace, IsEndOf;
    var start := Sentences(buffer, 0, 0).1;
    var rest := buffer[start..];
    DropIsEnd(buffer, start);
    StripIsEnd(rest);
    EndOfEnd(LStrip(rest), rest, buffer);
    if |rest| >= forceAt {
      var cut := ForcedCut(rest, forceAt);
      DropIsEnd(rest, cut);
      EndOfEnd(rest[cut..], rest, buffer);
      StripIsEnd(rest[cut..]);
      EndOfEnd(LStrip(rest[cut..]), rest[cut..], buffer);
    }
  }

  lemma {:induction false} StripIsEnd(s: string)
    ensures IsEndOf(LStrip(s), s) && (LStrip(s) != "" ==> !IsSpace(LStrip(s)[0]))
  {
    hide LStrip;
    LStripKeepsWords(s);
  }

  /** The loop of `split_speakable`. */
  method SplitSpeakable(buffer: string, forceAt: nat := 140) returns (out: seq<string>, rest: string)
    ensures (out, rest) == Split(buffer, forceAt)
  {
    hide Strip, LStrip, CutAfter, ForcedCut, Split, LastSpace;
    out := [];
    var start, i := 0, 0;
    SentencesBound(buffer, 0, 0);
    ghost var all := Sentences(buffer, 0, 0);
    assert [] + all.0 == all.0;
    while i < |buffer|
      invariant 0 <= start <= i <= |buffer|
      invariant all == (out + Sentences(buffer, start, i).0, Sentences(buffer, start, i).1)
    {
      if CutAfter(buffer, i) {
        var piece := Strip(buffer[start..i + 1]);
        ghost var later := Sentences(buffer, i + 1, i + 1).0;
        assert out + (NonEmpty(piece) + later) == (out + NonEmpty(piece)) + later;
        assert out + [] == out;
        if piece != "" {
          out := out + [piece];
        }
        start := i + 1;
      }
      i := i + 1;
    }
    assert out + [] == out;
    rest := buffer[start..];
    SplitCases(buffer, forceAt);
    if out == [] && |rest| >= forceAt {
      var cut := ForcedCut(rest, forceAt);
      var piece := Strip(rest[..cut]);
      if piece != "" {
        out := out + [piece];
      }
      assert out == NonEmpty(piece);
      rest := rest[cut..];
    }
    if out != [] {
      rest := LStrip(rest);
    }
  }

  lemma {:induction false} SplitCases(buffer: string, forceAt: nat)
    ensures var (found, start) := Sentences(buffer, 0, 0);
      && start <= |buffer|
      && var rest := buffer[start..];
         if found == [] && |rest| >= forceAt then
           var cut := ForcedCut(rest, forceAt);
           var out := NonEmpty(Strip(rest[..cut]));
           Split(buffer, forceAt) == (out, if out != [] then LStrip(rest[cut..]) else rest[cut..])
         else Split(buffer, forceAt) == (found, if found != [] then LStrip(rest) else rest)
  {
    SentencesBound(buffer, 0, 0);
  }

  // --- the producer ------------------------------------------------------------------

  const FORCE_AT: nat := 140

  /** The sentences queued for a reply that arrives as `deltas` after `buf` has been kept. */
  function Produced(buf: string, deltas: seq<string>): seq<string>
    decreases |deltas|
  {
    if deltas == [] then NonEmpty(Strip(buf))
    else
      var (ready, rest) := Split(buf + deltas[0], FORCE_AT);
      ready + Produced(rest, deltas[1..])
  }

  /** However the reply is cut into deltas, the words queued for speech are exactly the words of the
      reply, in order. */
  lemma {:induction false} NoWordsLost(buf: string, deltas: seq<string>)
    ensures WordsOfAll(Produced(buf, deltas)) == Words(buf + Flatten(deltas))
    ensures Speakable(Produced(buf, deltas))
    decreases |deltas|
  {
    hide Words, Strip, Split, WordsOfAll, Trimmed, NonEmpty;
    if deltas == [] {
      assert buf + [] == buf;
      StripKeepsWords(buf);
      NonEmptyKeepsWords(Strip(buf));
    } else {
      var (ready, rest) := Split(buf + deltas[0], FORCE_AT);
      var later := Flatten(deltas[1..]);
      SplitKeepsWords(buf + deltas[0], FORCE_AT);
      NoWordsLost(rest, deltas[1..]);
      WordsOfAllAppend(ready, Produced(rest, deltas[1..]));
      WordsAppend(rest, later);
      WordsAppend(buf + deltas[0], later);
      assert buf + Flatten(deltas) == (buf + deltas[0]) + later;
      assert WordsOfAll(ready) + (Words(rest) + Words(later)) == (WordsOfAll(ready) + Words(rest)) + Words(later);
    }
  }

  /** `produce`: drains the model's text into the sentence queue. */
  method Produce(deltas: seq<string>) returns (queued: seq<string>)
    ensures queued == Produced("", deltas)
    ensures WordsOfAll(queued) == Words(Flatten(deltas)) && Speakable(queued)
  {
    hide Words, Strip, Split, WordsOfAll, Trimmed, NonEmpty, Speakable;
    var buf := "";
    queued := [];
    assert deltas[0..] == deltas && [] + Produced("", deltas) == Produced("", deltas);
    for i := 0 to |deltas|
      invariant queued + Produced(buf, deltas[i..]) == Produced("", deltas)
    {
      ghost var was := buf;
      buf := buf + deltas[i];
      var ready, rest := SplitSpeakable(buf, FORCE_AT);
      assert deltas[i..][0] == deltas[i] && deltas[i..][1..] == deltas[i + 1..];
      assert queued + (ready + Produced(rest, deltas[i + 1..])) == queued + ready + Produced(rest, deltas[i + 1..]);
      queued := queued + ready;
      buf := rest;
    }
    assert deltas[|deltas|..] == [];
    var last := Strip(buf);
    queued := queued + NonEmpty(last);
    NoWordsLost("", deltas);
    assert "" + Flatten(deltas) == Flatten(deltas);
  }

  lemma {:induction false} ProducedTwo()
    ensures Produced("", ["3.5"]) == ["3.5"]
    ensures Produced("", ["3.", "5"]) == ["3.", "5"]
  {
    ProducedOne("3.5");
    assert "" + "3." == "3.";
    assert "3."[0..2] == "3.";
    assert Sentences("3.", 0, 0) == (["3."], 2) by {
      assert Sentences("3.", 2, 2) == ([], 2);
      assert CutAfter("3.", 1) && !CutAfter("3.", 0);
      assert RStrip("3.") == "3." && LStrip("3.") == "3.";
      assert ["3."] + [] == ["3."];
      assert Sentences("3.", 0, 1) == (["3."], 2);
    }
    assert Split("3.", FORCE_AT) == (["3."], "");
    assert ["3.", "5"][1..] == ["5"];
    ProducedOne("5");
    assert Produced("", ["3.", "5"]) == ["3."] + Produced("", ["5"]);
  }

  lemma {:induction false} ProducedOne(s: string)
    requires s == "3.5" || s == "5"
    ensures Produced("", [s]) == [s]
  {
    assert "" + s == s;
    assert [s][1..] == [];
    assert forall i :: 0 <= i < |s| ==> !CutAfter(s, i);
    assert Sentences(s, 0, |s|) == ([], 0);
    NoSentence(s, 0);
    assert Split(s, FORCE_AT) == ([], s);
    assert Produced(s, []) == [s];
  }

  lemma {:induction false} NoSentence(s: string, i: nat)
    requires i <= |s| && NoCut(s)
    ensures Sentences(s, 0, i) == ([], 0)
    decreases |s| - i
  {
    if i < |s| {
      NoSentence(s, i + 1);
    }
  }
}
