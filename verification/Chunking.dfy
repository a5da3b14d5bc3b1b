/** Splitting one response text into Discord-sized chunks
    (`_chunk_discord_message` in apps/discord_bot_worker.py). */
module Chunking {
  import opened PyText

  /** The cut position chosen for a remainder longer than `max`: the last newline if it lies in
      the second half, otherwise the last space, otherwise a hard cut. */
  function Cut(remaining: string, max: nat): (cut: nat)
    requires 1 <= max < |remaining|
    ensures 1 <= cut <= max
    ensures cut < max / 2 ==> remaining[cut] == ' ' && forall k :: cut < k <= max ==> remaining[k] != ' '
  {
    var newline := RFind(remaining, '\n', max + 1);
    var soft := if newline < max / 2 then RFind(remaining, ' ', max + 1) else newline;
    if soft <= 0 then max else soft
  }

  /** A late newline wins, then the last space; a cut below the maximum is always at a boundary. */
  lemma CutPrefersBoundaries(text: string, max: nat, k: nat)
    requires 1 <= k <= max < |text|
    ensures Cut(text, max) < max ==> text[Cut(text, max)] in "\n "
    ensures text[k] == '\n' && k >= max / 2 ==> k <= Cut(text, max) && text[Cut(text, max)] == '\n'
    ensures text[k] == ' ' && (forall j :: max / 2 <= j <= max ==> text[j] != '\n')
        ==> k <= Cut(text, max) && text[Cut(text, max)] == ' '
  {
  }

  function Chunks(remaining: string, max: nat): (chunks: seq<string>)
    requires max >= 1
    decreases |remaining|
  {
    if remaining == [] then []
    else if |remaining| <= max then [remaining]
    else
      var cut := Cut(remaining, max);
      [RStrip(remaining[..cut])] + Chunks(LStrip(remaining[cut..]), max)
  }

  /** `text` is the chunks in order, with nothing but whitespace between consecutive ones. */
  ghost predicate Glued(text: string, chunks: seq<string>) {
    if |chunks| == 0 then text == []
    else if |chunks| == 1 then text == chunks[0]
    else exists next: nat :: GluedAt(text, chunks[0], next) && Glued(text[next..], chunks[1..])
  }

  ghost predicate GluedAt(text: string, head: string, next: nat) {
    && |head| <= next <= |text|
    && head == text[..|head|]
    && forall i :: |head| <= i < next ==> IsSpace(text[i])
  }

  ghost predicate WellSized(chunks: seq<string>, max: nat) {
    forall i :: 0 <= i < |chunks| ==> 0 < |chunks[i]| <= max && Trimmed(chunks[i])
  }

  /** Splitting a trimmed text anywhere inside leaves both stripped sides trimmed and non-empty,
      so the source's empty-chunk fallback is unreachable, and loses only whitespace. */
  lemma SplitKeepsBothSides(text: string, cut: nat)
    requires 0 < cut < |text| && Trimmed(text)
    ensures var head, rest := RStrip(text[..cut]), LStrip(text[cut..]);
            && 0 < |head| <= cut && Trimmed(head)
            && 0 < |rest| <= |text| - cut && Trimmed(rest)
            && rest == text[|text| - |rest|..]
            && GluedAt(text, head, |text| - |rest|)
  {
    var left, tail := text[..cut], text[cut..];
    var end, start := DropSpace(left, cut), SkipSpace(tail, 0);
    assert left[0] == text[0] && tail[|tail| - 1] == text[|text| - 1];
    assert left[..end] == text[..end];
    assert tail[start..] == text[cut + start..];
    forall i | end <= i < cut + start ensures IsSpace(text[i]) {
      assert if i < cut then text[i] == left[i] else text[i] == tail[i - cut];
    }
  }

  lemma GluedCons(text: string, head: string, next: nat, chunks: seq<string>)
    requires GluedAt(text, head, next) && chunks != [] && Glued(text[next..], chunks)
    ensures Glued(text, [head] + chunks)
  {
    assert ([head] + chunks)[1..] == chunks;
  }

  lemma WellSizedCons(head: string, chunks: seq<string>, max: nat)
    requires 0 < |head| <= max && Trimmed(head) && WellSized(chunks, max)
    ensures WellSized([head] + chunks, max)
  {
    hide Trimmed;
  }

  lemma ChunksOfNothing(max: nat)
    requires max >= 1
    ensures Chunks([], max) == []
  {
  }

  lemma ChunksOfShortText(text: string, max: nat)
    requires 0 < |text| <= max && Trimmed(text)
    ensures Chunks(text, max) == [text]
    ensures Glued(text, [text]) && WellSized([text], max)
  {
    hide Trimmed;
  }

  lemma CutIs(remaining: string, max: nat)
    requires 1 <= max < |remaining|
    ensures var newline := RFind(remaining, '\n', max + 1);
            var soft := if newline < max / 2 then RFind(remaining, ' ', max + 1) else newline;
            Cut(remaining, max) == if soft <= 0 then max else soft
  {
  }

  lemma ChunksStep(text: string, max: nat)
    requires 1 <= max < |text|
    ensures Chunks(text, max)
         == [RStrip(text[..Cut(text, max)])] + Chunks(LStrip(text[Cut(text, max)..]), max)
  {
  }

  /** Nothing but whitespace is lost, every chunk fits and has no outer whitespace. */
  lemma {:induction false} ChunksPreserveText(text: string, max: nat)
    requires max >= 1 && Trimmed(text) && text != []
    ensures Chunks(text, max) != []
    ensures Glued(text, Chunks(text, max))
    ensures WellSized(Chunks(text, max), max)
    decreases |text|
  {
    hide *;
    if |text| <= max {
      ChunksOfShortText(text, max);
    } else {
      var cut := Cut(text, max);
      SplitKeepsBothSides(text, cut);
      var rest := LStrip(text[cut..]);
      ChunksPreserveText(rest, max);
      ChunksStep(text, max);
      WellSizedCons(RStrip(text[..cut]), Chunks(rest, max), max);
      GluedCons(text, RStrip(text[..cut]), |text| - |rest|, Chunks(rest, max));
    }
  }

  /** Two consecutive non-final cuts together consume at least half a chunk. */
  lemma TwoCutsConsumeHalf(text: string, rest: string, max: nat)
    requires 1 <= max < |text| && max < |rest|
    requires |rest| <= |text| - Cut(text, max) && rest == text[|text| - |rest|..]
    ensures |text| - |rest| + Cut(rest, max) >= max / 2
  {
    var cut, second, shift := Cut(text, max), Cut(rest, max), |text| - |rest|;
    if cut < max / 2 && second < max / 2 {
      // Both are space cuts; the second space lies beyond the first window.
      assert rest[second] == text[shift + second];
    }
  }

  /** The number of chunks is linear in the length of the text over the chunk size. */
  lemma {:induction false} ChunkCountBound(text: string, max: nat)
    requires max >= 1 && Trimmed(text) && text != []
    ensures (|Chunks(text, max)| - 1) / 2 * (max / 2) < |text|
    decreases |text|
  {
    hide *;
    if |text| <= max {
      ChunksOfShortText(text, max);
    } else {
      var cut := Cut(text, max);
      SplitKeepsBothSides(text, cut);
      var rest := LStrip(text[cut..]);
      ChunksStep(text, max);
      if |rest| > max {
        var cut2 := Cut(rest, max);
        SplitKeepsBothSides(rest, cut2);
        ChunksStep(rest, max);
        TwoCutsConsumeHalf(text, rest, max);
        var rest2 := LStrip(rest[cut2..]);
        var n := |Chunks(rest2, max)|;
        assert |Chunks(text, max)| == n + 2;
        ChunkCountBound(rest2, max);
        PairStep(n, max / 2, |rest2|, |text|);
      } else {
        ChunksOfShortText(rest, max);
      }
    }
  }

  lemma PairStep(n: nat, half: nat, after: nat, before: nat)
    requires (n - 1) / 2 * half < after && after + half <= before
    ensures (n + 2 - 1) / 2 * half < before
  {
    assert (n + 1) / 2 == (n - 1) / 2 + 1;
  }

  /** `_chunk_discord_message`, for the chunk sizes with which it terminates (`TerminatesIff`). */
  method ChunkDiscordMessage(text: string, max: int) returns (chunks: seq<string>)
    requires max >= 1 || Strip(text) == []
    ensures Strip(text) == [] ==> chunks == ["[no content]"]
    ensures Strip(text) != [] ==> chunks == Chunks(Strip(text), max)
    ensures Strip(text) != [] ==> Glued(Strip(text), chunks) && WellSized(chunks, max)
    ensures Strip(text) != [] ==> (|chunks| - 1) / 2 * (max / 2) < |Strip(text)|
  {
    hide *;
    var normalized := Strip(text);
    if normalized == [] {
      return ["[no content]"];
    }
    ChunksPreserveText(normalized, max);
    ChunkCountBound(normalized, max);
    if |normalized| <= max {
      ChunksOfShortText(normalized, max);
      return [normalized];
    }
    ChunksOfNothing(max);
    chunks := [];
    var remaining := normalized;
    while remaining != []
      invariant Trimmed(remaining) && Chunks([], max) == []
      invariant chunks + Chunks(remaining, max) == Chunks(normalized, max)
      decreases |remaining|
    {
      if |remaining| <= max {
        ChunksOfShortText(remaining, max);
        chunks := chunks + [remaining];
        break;
      }
      var cut := RFind(remaining, '\n', max + 1);
      if cut < max / 2 {
        cut := RFind(remaining, ' ', max + 1);
      }
      if cut <= 0 {
        cut := max;
      }
      CutIs(remaining, max);
      SplitKeepsBothSides(remaining, cut);
      ChunksStep(remaining, max);
      var chunk := RStrip(remaining[..cut]);
      assert chunk != [];  // the source's fallback for an empty chunk is never taken
      chunks := chunks + [chunk];
      remaining := LStrip(remaining[cut..]);
    }
  }

  // ----- other chunk sizes -----

  /** Where Python puts the end of `s[:k]`, the start of `s[k:]` and the end of `rfind(c, 0, k)`. */
  function PyIndex(s: string, k: int): (r: nat)
    ensures r <= |s|
    ensures k < 0 && s != [] ==> r < |s|
  {
    if k < 0 then (if |s| + k < 0 then 0 else |s| + k)
    else if k <= |s| then k else |s|
  }

  /** One pass of the loop over what remains, for any chunk size. */
  function LoopBody(remaining: string, max: int): string {
    var newline := RFind(remaining, '\n', PyIndex(remaining, max + 1));
    var soft := if newline < max / 2 then RFind(remaining, ' ', PyIndex(remaining, max + 1)) else newline;
    var first := if soft <= 0 then max else soft;
    var cut := if RStrip(remaining[..PyIndex(remaining, first)]) == [] then max else first;
    LStrip(remaining[PyIndex(remaining, cut)..])
  }

  predicate LoopEnds(remaining: string, max: int) {
    remaining == [] || |remaining| <= max
  }

  function Passes(text: string, max: int, n: nat): string {
    if n == 0 then text else LoopBody(Passes(text, max, n - 1), max)
  }

  /** For the sizes the method is proved for, a pass is the cut it makes. */
  lemma BodyIsCut(remaining: string, max: nat)
    requires 1 <= max < |remaining| && Trimmed(remaining)
    ensures LoopBody(remaining, max) == LStrip(remaining[Cut(remaining, max)..])
    ensures LoopBody(remaining, max) != [] && Trimmed(LoopBody(remaining, max)) && |LoopBody(remaining, max)| < |remaining|
  {
    hide RStrip, LStrip, Trimmed;
    CutIs(remaining, max);
    SplitKeepsBothSides(remaining, Cut(remaining, max));
  }

  /** With a size of zero or less there is always something left. */
  lemma BodyLeavesSomething(remaining: string, max: int)
    requires max <= 0 && remaining != [] && Trimmed(remaining)
    ensures LoopBody(remaining, max) != [] && Trimmed(LoopBody(remaining, max))
  {
    hide IsSpace, RStrip;
    forall p: nat | p < |remaining|
      ensures LStrip(remaining[p..]) != [] && Trimmed(LStrip(remaining[p..]))
    {
      var tail := remaining[p..];
      assert tail[|tail| - 1] == remaining[|remaining| - 1];
    }
  }

  lemma {:induction false} NeverEnds(text: string, max: int, n: nat)
    requires max <= 0 && text != [] && Trimmed(text)
    ensures Passes(text, max, n) != [] && Trimmed(Passes(text, max, n))
  {
    hide LoopBody, Trimmed;
    if n > 0 {
      NeverEnds(text, max, n - 1);
      BodyLeavesSomething(Passes(text, max, n - 1), max);
    }
  }

  lemma {:induction false} PassesShift(text: string, max: int, n: nat)
    ensures Passes(LoopBody(text, max), max, n) == Passes(text, max, n + 1)
  {
    hide LoopBody;
    if n > 0 {
      PassesShift(text, max, n - 1);
    }
  }

  lemma {:induction false} EndsSomewhere(text: string, max: nat) returns (n: nat)
    requires max >= 1 && text != [] && Trimmed(text)
    ensures LoopEnds(Passes(text, max, n), max)
    decreases |text|
  {
    hide LoopBody, Trimmed;
    if |text| <= max {
      n := 0;
    } else {
      BodyIsCut(text, max);
      var k := EndsSomewhere(LoopBody(text, max), max);
      PassesShift(text, max, k);
      n := k + 1;
    }
  }

  /** The loop over a non-blank text ends exactly for sizes of at least one; with any other size it
      goes on for ever. */
  lemma TerminatesIff(text: string, max: int)
    requires Strip(text) != []
    ensures (exists n: nat :: LoopEnds(Passes(Strip(text), max, n), max)) <==> max >= 1
  {
    hide LoopBody, Strip, Trimmed;
    if max >= 1 {
      var n := EndsSomewhere(Strip(text), max);
    } else if n: nat :| LoopEnds(Passes(Strip(text), max, n), max) {
      NeverEnds(Strip(text), max, n);
    }
  }
}
