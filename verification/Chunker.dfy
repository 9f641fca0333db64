/** Splitting a text into overlapping chunks for AI context. */
module Chunker {
  import opened Basics
  import opened Text

  const OVERLAP_CHARS := 240

  function Overlap(limit: nat): nat {
    if limit / 5 < OVERLAP_CHARS then limit / 5 else OVERLAP_CHARS
  }

  /** Line ends unified. */
  function Unify(s: string): string {
    if s == [] then []
    else if s[0] == '\r' then ['\n'] + if |s| > 1 && s[1] == '\n' then Unify(s[2..]) else Unify(s[1..])
    else [s[0]] + Unify(s[1..])
  }

  function Normalized(text: string): string {
    Strip(Unify(text))
  }

  function Concat(parts: seq<string>): string {
    if parts == [] then [] else Concat(parts[..|parts| - 1]) + parts[|parts| - 1]
  }

  function SpaceRun(s: string): (n: nat)
    ensures n <= |s|
  {
    if s != [] && IsSpace(s[0]) then 1 + SpaceRun(s[1..]) else 0
  }

  function Run(s: string, c: char): (n: nat)
    ensures n <= |s| && forall i :: 0 <= i < n ==> s[i] == c
  {
    if s != [] && s[0] == c then 1 + Run(s[1..], c) else 0
  }

  /** A heading starts here: up to three spaces, one to six hashes, space, and something after it. */
  predicate Heading(s: string) {
    var indent := SpaceRun(s);
    var hashes := Run(s[indent..], '#');
    var rest := s[indent + hashes..];
    var gap := SpaceRun(rest);
    indent <= 3 && 1 <= hashes <= 6 && gap >= 1 && gap < |rest|
  }

  predicate LineStart(text: string, i: nat)
    requires i <= |text|
  {
    i == 0 || text[i - 1] == '\n'
  }

  /** The pieces from `last` on, cut before headings and at runs of two or more line ends, scanning from `i`.
      `cut` says that the text was just cut at `i`. */
  function Pieces(text: string, last: nat, i: nat, cut: bool): seq<string>
    requires last <= i <= |text|
    decreases |text| - i, if cut then 0 else 1
  {
    var n := Run(text[i..], '\n');
    if !cut && LineStart(text, i) && Heading(text[i..]) then [text[last..i]] + Pieces(text, i, i, true)
    else if n >= 2 then [text[last..i]] + Pieces(text, i + n, i + n, false)
    else if i == |text| then [text[last..]]
    else Pieces(text, last, i + 1, false)
  }

  function Blocks(text: string): seq<string> {
    var blocks := StrippedParts(Pieces(text, 0, 0, false));
    if blocks == [] then [text] else blocks
  }

  function StrippedParts(parts: seq<string>): seq<string> {
    if parts == [] then []
    else
      var last := Strip(parts[|parts| - 1]);
      StrippedParts(parts[..|parts| - 1]) + if last != [] then [last] else []
  }

  /** What is left to chunk once the first `limit` characters are taken, with the overlap put in front. */
  function Advance(pending: string, limit: nat, overlap: nat): string
    requires limit < |pending| && overlap <= limit
  {
    var remainder := StripLeft(pending[limit..]);
    if remainder == [] then []
    else if overlap > 0 then
      var again := Strip(pending[limit - overlap..limit]);
      if again != [] then again + "\n\n" + remainder else remainder
    else remainder
  }

  /** Main result: each round shortens what is pending, by at least the limit less the overlap and its separator,
      and by at least the limit when there is no overlap. */
  lemma AdvanceShrinks(pending: string, limit: nat)
    requires 1 <= limit < |pending|
    ensures var next := Advance(pending, limit, Overlap(limit));
            && (Overlap(limit) == 0 ==> |next| <= |pending| - limit)
            && (Overlap(limit) > 0 ==> |next| <= |pending| - (limit - limit / 5 - 2))
            && |next| < |pending|
  {
    StripLeftInk(pending[limit..]);
    StripInk(pending[limit - Overlap(limit)..limit]);
    hide Strip, StripLeft;
  }

  /** What is waiting: the chunks written so far and the text not yet written. */
  datatype Work = Work(chunks: seq<string>, rest: string)

  /** A block cut down until its rest fits. */
  function Drained(chunks: seq<string>, pending: string, limit: nat): Work
    requires limit >= 1
    decreases |pending|
  {
    if |pending| <= limit then Work(chunks, pending)
    else
      AdvanceShrinks(pending, limit);
      Drained(chunks + [Strip(pending[..limit])], Advance(pending, limit, Overlap(limit)), limit)
  }

  function WithBlock(w: Work, block: string, limit: nat): Work
    requires limit >= 1
  {
    var candidate := if w.rest == "" then block else w.rest + "\n\n" + block;
    if |candidate| <= limit then Work(w.chunks, candidate)
    else Drained(if w.rest == "" then w.chunks else w.chunks + [Strip(w.rest)], block, limit)
  }

  function WithBlocks(blocks: seq<string>, limit: nat): Work
    requires limit >= 1
  {
    if blocks == [] then Work([], "") else WithBlock(WithBlocks(blocks[..|blocks| - 1], limit), blocks[|blocks| - 1], limit)
  }

  /** The chunks of a text. */
  function Chunks(text: string, limit: nat): seq<string>
    requires limit >= 1
  {
    var normalized := Normalized(text);
    if normalized == [] then []
    else if |normalized| <= limit then [normalized]
    else
      var w := WithBlocks(Blocks(normalized), limit);
      if w.rest == "" then w.chunks else w.chunks + [Strip(w.rest)]
  }

  /** A chunk cut off the front is followed by a text that begins with its overlap. */
  lemma OverlapCarried(pending: string, limit: nat)
    requires 1 <= limit < |pending| && StripLeft(pending[limit..]) != []
    ensures Overlap(limit) <= limit
    ensures var again := if Overlap(limit) == 0 then "" else Strip(pending[limit - Overlap(limit)..limit]);
            var next := Advance(pending, limit, Overlap(limit));
            |again| <= limit && again <= next && again <= next[..if |next| < limit then |next| else limit]
  {
    StripInk(pending[limit - Overlap(limit)..limit]);
    hide Strip, StripLeft, Ink, IsSpace;
  }

  // Coverage.

  /** What the chunks say once the first `cuts[i]` inked characters of each are dropped as overlap. */
  function Fresh(chunks: seq<string>, cuts: seq<nat>): string
    requires |chunks| == |cuts| && forall i :: 0 <= i < |chunks| ==> cuts[i] <= |Ink(chunks[i])|
  {
    if chunks == [] then []
    else Fresh(chunks[..|chunks| - 1], cuts[..|cuts| - 1]) + Ink(chunks[|chunks| - 1])[cuts[|cuts| - 1]..]
  }

  /** The overlap of chunk `i` repeats the end of the chunk before it. */
  ghost predicate Repeats(chunks: seq<string>, cuts: seq<nat>, overlap: nat, i: nat)
    requires i < |chunks| == |cuts| && cuts[i] <= |Ink(chunks[i])|
  {
    cuts[i] > 0 ==> i > 0 && cuts[i] <= overlap && EndsWith(Ink(chunks[i - 1]), Ink(chunks[i])[..cuts[i]])
  }

  predicate EndsWith(s: string, t: string) {
    |t| <= |s| && s[|s| - |t|..] == t
  }

  ghost predicate Cuts(chunks: seq<string>, cuts: seq<nat>, overlap: nat, ink: string) {
    && |chunks| == |cuts| && (forall i :: 0 <= i < |chunks| ==> cuts[i] <= |Ink(chunks[i])|)
    && (forall i :: 0 <= i < |chunks| ==> Repeats(chunks, cuts, overlap, i))
    && Fresh(chunks, cuts) == ink
  }

  /** The chunks, overlaps dropped, say exactly `ink`. */
  ghost predicate Covers(chunks: seq<string>, overlap: nat, ink: string) {
    exists cuts :: Cuts(chunks, cuts, overlap, ink)
  }

  /** Non-empty, within the limit, and stripped. */
  predicate GoodChunk(c: string, limit: nat) {
    c != [] && |c| <= limit && !IsSpace(c[0]) && !IsSpace(c[|c| - 1])
  }

  predicate GoodChunks(chunks: seq<string>, limit: nat) {
    forall i :: 0 <= i < |chunks| ==> GoodChunk(chunks[i], limit)
  }

  lemma CutsAppend(chunks: seq<string>, cuts: seq<nat>, overlap: nat, ink: string, c: string, k: nat)
    requires Cuts(chunks, cuts, overlap, ink) && k <= |Ink(c)|
    requires k > 0 ==> chunks != [] && k <= overlap && EndsWith(Ink(chunks[|chunks| - 1]), Ink(c)[..k])
    ensures Cuts(chunks + [c], cuts + [k], overlap, ink + Ink(c)[k..])
  {
    var more, ks := chunks + [c], cuts + [k];
    hide Ink, EndsWith, Repeats, Fresh;
    FreshAppend(chunks, cuts, c, k);
    forall i | 0 <= i < |more|
      ensures Repeats(more, ks, overlap, i)
    {
      RepeatsAppend(chunks, cuts, overlap, c, k, i);
    }
  }

  lemma FreshAppend(chunks: seq<string>, cuts: seq<nat>, c: string, k: nat)
    requires |chunks| == |cuts| && (forall i :: 0 <= i < |chunks| ==> cuts[i] <= |Ink(chunks[i])|) && k <= |Ink(c)|
    ensures forall i :: 0 <= i < |chunks + [c]| ==> (cuts + [k])[i] <= |Ink((chunks + [c])[i])|
    ensures Fresh(chunks + [c], cuts + [k]) == Fresh(chunks, cuts) + Ink(c)[k..]
  {
    assert (chunks + [c])[..|chunks|] == chunks && (cuts + [k])[..|cuts|] == cuts;
    hide Ink;
  }

  lemma RepeatsAppend(chunks: seq<string>, cuts: seq<nat>, overlap: nat, c: string, k: nat, i: nat)
    requires |chunks| == |cuts| && k <= |Ink(c)| && i <= |chunks|
    requires i < |chunks| ==> cuts[i] <= |Ink(chunks[i])| && Repeats(chunks, cuts, overlap, i)
    requires k > 0 ==> chunks != [] && k <= overlap && EndsWith(Ink(chunks[|chunks| - 1]), Ink(c)[..k])
    ensures (cuts + [k])[i] <= |Ink((chunks + [c])[i])| && Repeats(chunks + [c], cuts + [k], overlap, i)
  {
    hide Ink, EndsWith;
  }

  /** What is waiting to be written: its first `width` characters repeat the last chunk, the rest is new. */
  ghost predicate Waiting(chunks: seq<string>, overlap: nat, waiting: string, width: nat, done: string, ink: string) {
    && width <= |waiting| && width <= overlap && Covers(chunks, overlap, done)
    && (width > 0 ==> chunks != [] && EndsWith(Ink(chunks[|chunks| - 1]), Ink(waiting[..width])))
    && done + Ink(waiting[width..]) == ink
  }

  /** A waiting text that begins with ink, unless there is none. */
  predicate Inked(s: string) {
    s != [] ==> !IsSpace(s[0])
  }

  lemma InkLength(s: string)
    ensures |Ink(s)| <= |s|
  {
    if s != [] { InkLength(s[1..]); }
  }

  lemma InkSplit(s: string, k: nat)
    requires k <= |s|
    ensures Ink(s) == Ink(s[..k]) + Ink(s[k..])
  {
    hide *;
    InkAppend(s[..k], s[k..]);
    assert s == s[..k] + s[k..];
  }

  lemma InkedInk(s: string)
    requires Inked(s) && s != []
    ensures Ink(s) != []
  {
    hide IsSpace;
  }

  /** Writing a chunk out of the front of what is waiting. */
  lemma Written(chunks: seq<string>, overlap: nat, front: string, width: nat, done: string)
    requires Covers(chunks, overlap, done) && width <= |front| && width <= overlap
    requires width > 0 ==> chunks != [] && EndsWith(Ink(chunks[|chunks| - 1]), Ink(front[..width]))
    ensures Covers(chunks + [Strip(front)], overlap, done + Ink(front[width..]))
  {
    var cuts :| Cuts(chunks, cuts, overlap, done);
    hide Ink, Strip, Cuts, EndsWith;
    InkParts(front, width);
    CutsAppend(chunks, cuts, overlap, done, Strip(front), |Ink(front[..width])|);
  }

  lemma InkParts(front: string, width: nat)
    requires width <= |front|
    ensures var (s, k) := (Ink(Strip(front)), |Ink(front[..width])|);
            k <= width && k <= |s| && s[..k] == Ink(front[..width]) && s[k..] == Ink(front[width..])
    ensures width == 0 ==> Ink(front[..width]) == []
  {
    StripInk(front);
    InkSplit(front, width);
    InkLength(front[..width]);
    hide Ink, Strip;
  }

  lemma StripGood(front: string, limit: nat)
    requires front != [] && Inked(front) && |front| <= limit
    ensures GoodChunk(Strip(front), limit)
  {
    StripInk(front);
    InkedInk(front);
    hide Strip, Ink, IsSpace;
  }

  /** Flushing everything that is waiting. */
  lemma Flushed(chunks: seq<string>, overlap: nat, waiting: string, width: nat, done: string, ink: string)
    requires Waiting(chunks, overlap, waiting, width, done, ink)
    ensures Covers(chunks + [Strip(waiting)], overlap, ink)
  {
    Written(chunks, overlap, waiting, width, done);
    hide Ink, Strip, Covers, EndsWith;
  }

  /** Writing the front leaves the rest to be said. */
  lemma FrontWritten(chunks: seq<string>, limit: nat, pending: string, width: nat, done: string, ink: string) returns (said: string)
    requires 1 <= limit < |pending| && Waiting(chunks, Overlap(limit), pending, width, done, ink)
    ensures Covers(chunks + [Strip(pending[..limit])], Overlap(limit), said) && said + Ink(StripLeft(pending[limit..])) == ink
  {
    hide *;
    var front, rest := pending[..limit], pending[limit..];
    OverlapFits(limit);
    WaitingParts(chunks, Overlap(limit), pending, width, done, ink);
    assert front[..width] == pending[..width];
    Written(chunks, Overlap(limit), front, width, done);
    said := done + Ink(front[width..]);
    StripLeftInk(rest);
    InkSplit(pending[width..], limit - width);
    assert pending[width..][..limit - width] == front[width..] && pending[width..][limit - width..] == rest;
  }

  /** Waiting with an overlap put in front of the remainder. */
  lemma WaitingAgain(chunks: seq<string>, overlap: nat, again: string, remainder: string, said: string, ink: string)
    requires Covers(chunks, overlap, said) && said + Ink(remainder) == ink && |again| <= overlap
    requires again != [] ==> chunks != [] && EndsWith(Ink(chunks[|chunks| - 1]), Ink(again))
    ensures Waiting(chunks, overlap, again + "\n\n" + remainder, |again|, said, ink)
  {
    var waiting := again + "\n\n" + remainder;
    hide *;
    CatSlices(again, "\n\n", remainder);
    InkBlank(remainder);
    MakeWaiting(chunks, overlap, waiting, |again|, said, ink);
  }

  lemma CatSlices<T>(a: seq<T>, b: seq<T>, c: seq<T>)
    ensures (a + b + c)[|a|..] == b + c && (a + b + c)[..|a|] == a
  {
  }

  lemma InkBlank(s: string)
    ensures Ink("\n\n" + s) == Ink(s)
  {
    InkAppend("\n\n", s);
    BlankLine();
    hide Ink;
  }

  lemma MakeWaiting(chunks: seq<string>, overlap: nat, waiting: string, width: nat, done: string, ink: string)
    requires width <= |waiting| && width <= overlap && Covers(chunks, overlap, done)
    requires width > 0 ==> chunks != [] && EndsWith(Ink(chunks[|chunks| - 1]), Ink(waiting[..width]))
    requires done + Ink(waiting[width..]) == ink
    ensures Waiting(chunks, overlap, waiting, width, done, ink)
  {
  }

  lemma WaitingParts(chunks: seq<string>, overlap: nat, waiting: string, width: nat, done: string, ink: string)
    requires Waiting(chunks, overlap, waiting, width, done, ink)
    ensures width <= |waiting| && width <= overlap && Covers(chunks, overlap, done)
    ensures width > 0 ==> chunks != [] && EndsWith(Ink(chunks[|chunks| - 1]), Ink(waiting[..width]))
    ensures done + Ink(waiting[width..]) == ink
  {
  }

  lemma WaitingPlain(chunks: seq<string>, overlap: nat, remainder: string, said: string, ink: string)
    requires Covers(chunks, overlap, said) && said + Ink(remainder) == ink
    ensures Waiting(chunks, overlap, remainder, 0, said, ink)
  {
    assert remainder[0..] == remainder;
  }

  /** One round of the inner loop: the front is written and the rest waits behind its overlap. */
  lemma Advanced(chunks: seq<string>, limit: nat, pending: string, width: nat, done: string, ink: string) returns (next: nat, said: string)
    requires 1 <= limit < |pending| && Waiting(chunks, Overlap(limit), pending, width, done, ink)
    ensures Waiting(chunks + [Strip(pending[..limit])], Overlap(limit), Advance(pending, limit, Overlap(limit)), next, said, ink)
    ensures Inked(Advance(pending, limit, Overlap(limit)))
  {
    hide Waiting, Ink, Strip, StripLeft, Covers, EndsWith, IsSpace, Overlap;
    var overlap := Overlap(limit);
    OverlapFits(limit);
    var front, remainder := pending[..limit], StripLeft(pending[limit..]);
    var more := chunks + [Strip(front)];
    said := FrontWritten(chunks, limit, pending, width, done, ink);
    StripLeftInk(pending[limit..]);
    StripInk(pending[limit - overlap..limit]);
    var again := Strip(pending[limit - overlap..limit]);
    if remainder != [] && overlap > 0 && again != [] {
      next := |again|;
      OverlapEnds(front, overlap);
      assert pending[limit - overlap..limit] == front[limit - overlap..];
      WaitingAgain(more, overlap, again, remainder, said, ink);
    } else {
      next := 0;
      WaitingPlain(more, overlap, remainder, said, ink);
    }
  }

  lemma OverlapFits(limit: nat)
    ensures Overlap(limit) <= limit
  {
  }

  lemma BlankLine()
    ensures Ink("\n\n") == ""
  {
    assert "\n\n"[1..] == "\n" && "\n"[1..] == "";
  }

  /** The overlap is the end of the chunk it repeats. */
  lemma OverlapEnds(front: string, overlap: nat)
    requires overlap <= |front|
    ensures EndsWith(Ink(Strip(front)), Ink(Strip(front[|front| - overlap..])))
    ensures |Strip(front[|front| - overlap..])| <= overlap
  {
    var tail := front[|front| - overlap..];
    StripInk(front);
    StripInk(tail);
    InkSplit(front, |front| - overlap);
    hide Ink, Strip;
  }

  /** Appending a block to what waits. */
  lemma Joined(chunks: seq<string>, overlap: nat, current: string, width: nat, done: string, ink: string, block: string)
    requires Waiting(chunks, overlap, current, width, done, ink)
    ensures Waiting(chunks, overlap, current + "\n\n" + block, width, done, ink + Ink(block))
  {
    hide *;
    var candidate := current + "\n\n" + block;
    WaitingParts(chunks, overlap, current, width, done, ink);
    assert candidate[..width] == current[..width] && candidate[width..] == current[width..] + ("\n\n" + block);
    InkAppend(current[width..], "\n\n" + block);
    InkBlank(block);
    assert done + Ink(candidate[width..]) == ink + Ink(block);
    MakeWaiting(chunks, overlap, candidate, width, done, ink + Ink(block));
  }

  lemma {:induction false} UnifyInk(s: string)
    ensures Ink(Unify(s)) == Ink(s)
    decreases |s|
  {
    hide Ink, IsSpace;
    if s != [] {
      InkCons(s[0], s[1..]);
      assert s == [s[0]] + s[1..];
      if s[0] == '\r' {
        if |s| > 1 && s[1] == '\n' {
          UnifyInk(s[2..]);
          InkCons('\n', s[2..]);
          InkCons('\n', Unify(s[2..]));
          assert s[1..] == ['\n'] + s[2..];
        } else {
          UnifyInk(s[1..]);
          InkCons('\n', Unify(s[1..]));
        }
        LineEndsAreSpace();
      } else {
        UnifyInk(s[1..]);
        InkCons(s[0], Unify(s[1..]));
      }
    }
  }

  lemma LineEndsAreSpace()
    ensures IsSpace('\r') && IsSpace('\n')
  {
  }

  lemma {:induction false} StrippedPartsSay(parts: seq<string>)
    ensures Ink(Concat(StrippedParts(parts))) == Ink(Concat(parts))
    ensures forall b :: b in StrippedParts(parts) ==> b != [] && Inked(b)
  {
    hide Ink, Strip, IsSpace;
    if parts == [] {
      assert StrippedParts(parts) == [];
    } else {
      var init, part := parts[..|parts| - 1], parts[|parts| - 1];
      StrippedPartsSay(init);
      StripInk(part);
      InkAppend(Concat(init), part);
      assert StrippedParts(init) + [] == StrippedParts(init);
      if Strip(part) != [] {
        var blocks := StrippedParts(init) + [Strip(part)];
        assert blocks[..|blocks| - 1] == StrippedParts(init);
        InkAppend(Concat(StrippedParts(init)), Strip(part));
      }
    }
  }

  lemma {:induction false} ConcatCons(p: string, parts: seq<string>)
    ensures Ink(Concat([p] + parts)) == Ink(p) + Ink(Concat(parts))
    decreases |parts|
  {
    hide Ink;
    var all := [p] + parts;
    if parts == [] {
      assert all[..0] == [] && Concat(all) == p;
      NoInk();
    } else {
      var init, last := parts[..|parts| - 1], parts[|parts| - 1];
      ConcatCons(p, init);
      assert all[..|all| - 1] == [p] + init;
      InkAppend(Concat([p] + init), last);
      InkAppend(Concat(init), last);
    }
  }

  lemma {:induction false} LineEndsBlank(s: string)
    requires forall i :: 0 <= i < |s| ==> s[i] == '\n'
    ensures Ink(s) == []
  {
    if s != [] { LineEndsBlank(s[1..]); }
  }

  lemma LineEndsDropped(text: string, i: nat, n: nat)
    requires i + n <= |text| && n <= Run(text[i..], '\n')
    ensures Ink(text[i..]) == Ink(text[i + n..])
  {
    hide Ink;
    InkSplit(text[i..], n);
    LineEndsBlank(text[i..][..n]);
    assert text[i..][n..] == text[i + n..];
  }

  /** Cutting drops nothing but line ends. */
  lemma {:induction false} PiecesSay(text: string, last: nat, i: nat, cut: bool)
    requires last <= i <= |text|
    ensures Ink(Concat(Pieces(text, last, i, cut))) == Ink(text[last..])
    decreases |text| - i, if cut then 0 else 1
  {
    hide Ink, Heading, Concat, LineStart;
    var n := Run(text[i..], '\n');
    InkSplit(text[last..], i - last);
    assert text[last..][..i - last] == text[last..i] && text[last..][i - last..] == text[i..];
    if !cut && LineStart(text, i) && Heading(text[i..]) {
      PiecesSay(text, i, i, true);
      ConcatCons(text[last..i], Pieces(text, i, i, true));
    } else if n >= 2 {
      PiecesSay(text, i + n, i + n, false);
      ConcatCons(text[last..i], Pieces(text, i + n, i + n, false));
      LineEndsDropped(text, i, n);
    } else if i == |text| {
      ConcatOne(text[last..]);
    } else {
      PiecesSay(text, last, i + 1, false);
    }
  }

  lemma ConcatOne(p: string)
    ensures Concat([p]) == p
  {
    assert [p][..0] == [];
  }

  /** The blocks are not blank and say what the text says. */
  lemma BlocksSay(text: string)
    requires text != [] && Inked(text)
    ensures Ink(Concat(Blocks(text))) == Ink(text)
    ensures Blocks(text) != [] && forall b :: b in Blocks(text) ==> b != [] && Inked(b)
  {
    var parts := Pieces(text, 0, 0, false);
    PiecesSay(text, 0, 0, false);
    assert text[0..] == text;
    StrippedPartsSay(parts);
    hide Ink, Strip, IsSpace, StrippedParts, Pieces;
    if StrippedParts(parts) == [] { ConcatOne(text); }
  }

  lemma NothingWaiting(overlap: nat)
    ensures Covers([], overlap, []) && Waiting([], overlap, [], 0, [], [])
  {
    assert Cuts([], [], overlap, []);
  }

  /** A block that starts afresh. */
  lemma StartsAfresh(chunks: seq<string>, overlap: nat, ink: string, block: string)
    requires Covers(chunks, overlap, ink)
    ensures Waiting(chunks, overlap, block, 0, ink, ink + Ink(block))
  {
    hide *;
    assert block[0..] == block;
    MakeWaiting(chunks, overlap, block, 0, ink, ink + Ink(block));
  }

  lemma EmptyFlushed(chunks: seq<string>, overlap: nat, width: nat, done: string, ink: string)
    requires Waiting(chunks, overlap, [], width, done, ink)
    ensures Covers(chunks, overlap, ink)
  {
    var none: string := [];
    assert none[width..] == none && Ink(none) == none && done + none == done;
    hide Covers, EndsWith;
  }

  lemma GoodAppend(chunks: seq<string>, limit: nat, front: string)
    requires GoodChunks(chunks, limit) && front != [] && Inked(front) && |front| <= limit
    ensures GoodChunks(chunks + [Strip(front)], limit) && Strip(front) != []
  {
    StripGood(front, limit);
    hide GoodChunk, Strip;
  }

  lemma InkedFront(s: string, n: nat)
    requires Inked(s) && 1 <= n <= |s|
    ensures Inked(s[..n]) && s[..n] != []
  {
  }

  lemma InkedMore(s: string, t: string)
    requires Inked(s) && s != []
    ensures Inked(s + t)
  {
  }

  /** The normalised text says what the text says. */
  lemma NormalizedSays(text: string)
    ensures Ink(Normalized(text)) == Ink(text) && Inked(Normalized(text))
    ensures Normalized(text) != [] ==> !IsSpace(Normalized(text)[|Normalized(text)| - 1])
    ensures Normalized(text) == [] <==> Ink(text) == []
  {
    UnifyInk(text);
    StripInk(Unify(text));
    hide Strip, Unify, Ink, IsSpace;
  }

  lemma WholeCovers(text: string, overlap: nat)
    ensures Covers([text], overlap, Ink(text))
  {
    assert [text][..0] == [] && [0 as nat][..0] == [];
    assert Cuts([text], [0], overlap, Ink(text));
  }

  lemma ConcatNext(blocks: seq<string>, i: nat)
    requires i < |blocks|
    ensures Ink(Concat(blocks[..i + 1])) == Ink(Concat(blocks[..i])) + Ink(blocks[i])
  {
    assert blocks[..i + 1][..i] == blocks[..i] && blocks[..i + 1][i] == blocks[i];
    InkAppend(Concat(blocks[..i]), blocks[i]);
    hide Ink;
  }

  lemma NoBlocks(blocks: seq<string>)
    ensures Ink(Concat(blocks[..0])) == []
  {
  }

  lemma NoChunksSayNothing(chunks: seq<string>, overlap: nat, ink: string)
    requires Covers(chunks, overlap, ink) && ink != []
    ensures chunks != []
  {
  }

  lemma BlockAt(blocks: seq<string>, i: nat)
    requires i < |blocks| && forall b :: b in blocks ==> b != [] && Inked(b)
    ensures blocks[i] != [] && Inked(blocks[i])
  {
  }

  /** The inner loop: cuts chunks off the front of a block until the rest fits. */
  method Drain(before: seq<string>, block: string, limit: nat, ghost said: string)
    returns (chunks: seq<string>, pending: string, ghost width: nat, ghost done: string)
    requires limit >= 1 && GoodChunks(before, limit) && Inked(block) && Covers(before, Overlap(limit), said)
    ensures GoodChunks(chunks, limit) && Inked(pending) && |pending| <= limit
    ensures Waiting(chunks, Overlap(limit), pending, width, done, said + Ink(block))
    ensures Work(chunks, pending) == Drained(before, block, limit)
  {
    hide *;
    var overlap := Overlap(limit);
    ghost var ink := said + Ink(block);
    chunks, pending, width, done := before, block, 0, said;
    StartsAfresh(before, overlap, said, block);
    OverlapFits(limit);
    while |pending| > limit
      invariant GoodChunks(chunks, limit) && Inked(pending)
      invariant Waiting(chunks, overlap, pending, width, done, ink)
      invariant Drained(chunks, pending, limit) == Drained(before, block, limit)
      decreases |pending|
    {
      ghost var start := pending;
      DrainedMore(chunks, pending, limit);
      AdvanceShrinks(pending, limit);
      AdvanceIs(pending, limit, overlap);
      InkedFront(pending, limit);
      GoodAppend(chunks, limit, pending[..limit]);
      width, done := Advanced(chunks, limit, pending, width, done, ink);
      chunks := chunks + [Strip(pending[..limit])];
      var remainder := StripLeft(pending[limit..]);
      if remainder == "" {
        pending := "";
        assert pending == Advance(start, limit, overlap);
        break;
      }
      if overlap > 0 {
        var again := Strip(pending[limit - overlap..limit]);
        pending := if again != "" then again + "\n\n" + remainder else remainder;
      } else {
        pending := remainder;
      }
      assert pending == Advance(start, limit, overlap);
    }
    DrainedDone(chunks, pending, limit);
  }

  lemma DrainedMore(chunks: seq<string>, pending: string, limit: nat)
    requires 1 <= limit < |pending|
    ensures Overlap(limit) <= limit
    ensures Drained(chunks, pending, limit) == Drained(chunks + [Strip(pending[..limit])], Advance(pending, limit, Overlap(limit)), limit)
  {
    hide Strip, Advance;
  }

  lemma DrainedDone(chunks: seq<string>, pending: string, limit: nat)
    requires 1 <= limit && |pending| <= limit
    ensures Drained(chunks, pending, limit) == Work(chunks, pending)
  {
  }

  /** The outer loop's step: a block joins what is waiting if it fits, else what is waiting is written out first. */
  method AddBlock(before: seq<string>, current: string, block: string, limit: nat, ghost was: nat, ghost had: string, ghost ink: string)
    returns (chunks: seq<string>, rest: string, ghost width: nat, ghost done: string)
    requires limit >= 1 && GoodChunks(before, limit) && Inked(current) && |current| <= limit && Inked(block)
    requires Waiting(before, Overlap(limit), current, was, had, ink)
    ensures GoodChunks(chunks, limit) && Inked(rest) && |rest| <= limit
    ensures Waiting(chunks, Overlap(limit), rest, width, done, ink + Ink(block))
    ensures Work(chunks, rest) == WithBlock(Work(before, current), block, limit)
  {
    WithBlockIs(Work(before, current), block, limit);
    hide *;
    var overlap := Overlap(limit);
    chunks := before;
    var candidate := if current == "" then block else current + "\n\n" + block;
    if |candidate| <= limit {
      if current == "" {
        EmptyFlushed(chunks, overlap, was, had, ink);
        StartsAfresh(chunks, overlap, ink, block);
        return chunks, candidate, 0, ink;
      }
      Joined(chunks, overlap, current, was, had, ink, block);
      assert current + "\n\n" + block == current + ("\n\n" + block);
      InkedMore(current, "\n\n" + block);
      return chunks, candidate, was, had;
    }
    if current != "" {
      Flushed(chunks, overlap, current, was, had, ink);
      GoodAppend(chunks, limit, current);
      chunks := chunks + [Strip(current)];
    } else {
      EmptyFlushed(chunks, overlap, was, had, ink);
    }
    chunks, rest, width, done := Drain(chunks, block, limit, ink);
  }

  lemma WithBlockIs(w: Work, block: string, limit: nat)
    requires limit >= 1
    ensures var candidate := if w.rest == "" then block else w.rest + "\n\n" + block;
            WithBlock(w, block, limit) ==
              if |candidate| <= limit then Work(w.chunks, candidate)
              else Drained(if w.rest == "" then w.chunks else w.chunks + [Strip(w.rest)], block, limit)
  {
    hide Drained, Strip;
  }

  lemma WithBlocksNext(blocks: seq<string>, i: nat, limit: nat)
    requires limit >= 1 && i < |blocks|
    ensures WithBlocks(blocks[..0], limit) == Work([], "")
    ensures WithBlocks(blocks[..i + 1], limit) == WithBlock(WithBlocks(blocks[..i], limit), blocks[i], limit)
  {
    assert blocks[..i + 1][..i] == blocks[..i] && blocks[..i + 1][i] == blocks[i];
    hide WithBlock;
  }

  lemma ChunksAre(text: string, limit: nat)
    requires limit >= 1
    ensures var normalized := Normalized(text);
            && (normalized == [] ==> Chunks(text, limit) == [])
            && (0 < |normalized| <= limit ==> Chunks(text, limit) == [normalized])
            && (|normalized| > limit ==>
                  var w := WithBlocks(Blocks(normalized), limit);
                  Chunks(text, limit) == if w.rest == "" then w.chunks else w.chunks + [Strip(w.rest)])
  {
    hide Normalized, WithBlocks, Blocks, Strip;
  }

  /** Main result: for every text and every limit the splitter ends; every chunk is non-empty, stripped and within
      the limit; and with overlaps dropped the chunks say exactly what the text says, in order. */
  method SplitChunks(text: string, limit: nat) returns (chunks: seq<string>)
    requires limit >= 1
    ensures GoodChunks(chunks, limit) && Covers(chunks, Overlap(limit), Ink(text))
    ensures chunks == [] <==> Ink(text) == []
    ensures chunks == Chunks(text, limit)
  {
    hide *;
    ChunksAre(text, limit);
    var normalized := Normalized(text);
    var overlap := Overlap(limit);
    NormalizedSays(text);
    NothingWaiting(overlap);
    NoGoodChunks(limit);
    if normalized == [] {
      return [];
    }
    if |normalized| <= limit {
      WholeCovers(normalized, overlap);
      OneGoodChunk(normalized, limit);
      return [normalized];
    }
    var blocks := Blocks(normalized);
    BlocksSay(normalized);
    chunks := [];
    var current := "";
    ghost var width, done := 0, "";
    NoBlocks(blocks);
    WithBlocksNext(blocks, 0, limit);
    for i := 0 to |blocks|
      invariant GoodChunks(chunks, limit) && Inked(current) && |current| <= limit
      invariant Work(chunks, current) == WithBlocks(blocks[..i], limit)
      invariant Waiting(chunks, overlap, current, width, done, Ink(Concat(blocks[..i])))
    {
      BlockAt(blocks, i);
      ConcatNext(blocks, i);
      WithBlocksNext(blocks, i, limit);
      chunks, current, width, done := AddBlock(chunks, current, blocks[i], limit, width, done, Ink(Concat(blocks[..i])));
    }
    assert blocks[..|blocks|] == blocks;
    if current != "" {
      Flushed(chunks, overlap, current, width, done, Ink(text));
      GoodAppend(chunks, limit, current);
      chunks := chunks + [Strip(current)];
    } else {
      EmptyFlushed(chunks, overlap, width, done, Ink(text));
    }
    NoChunksSayNothing(chunks, overlap, Ink(text));
  }

  lemma OneGoodChunk(text: string, limit: nat)
    requires text != [] && Inked(text) && !IsSpace(text[|text| - 1]) && |text| <= limit
    ensures GoodChunks([text], limit)
  {
    hide IsSpace;
  }

  lemma NoGoodChunks(limit: nat)
    ensures GoodChunks([], limit) && Inked("")
  {
  }

  lemma AdvanceIs(pending: string, limit: nat, overlap: nat)
    requires 1 <= limit < |pending| && overlap <= limit
    ensures var remainder := StripLeft(pending[limit..]);
            Advance(pending, limit, overlap) ==
              if remainder == [] then []
              else if overlap > 0 && Strip(pending[limit - overlap..limit]) != []
              then Strip(pending[limit - overlap..limit]) + "\n\n" + remainder
              else remainder
  {
    hide Strip, StripLeft;
  }
}
