/** Where a text is cut: line ends, headings, blocks and how blocks are put together again. */
module ChunkerCuts {
  import opened Basics
  import opened Text
  import opened Chunker

  /** The overlap is the largest number up to 240 and up to a fifth of the limit. */
  lemma OverlapIs(limit: nat)
    ensures var n := Overlap(limit);
            n <= 240 && 5 * n <= limit && (n == 240 || 5 * (n + 1) > limit)
  {
  }

  // Line ends.

  /** Every carriage return with its line feed replaced by a line feed, from the left. */
  function PairsReplaced(s: string): string {
    if s == "" then ""
    else if |s| >= 2 && s[0] == '\r' && s[1] == '\n' then "\n" + PairsReplaced(s[2..])
    else [s[0]] + PairsReplaced(s[1..])
  }

  /** Every carriage return replaced by a line feed. */
  function ReturnsReplaced(s: string): (t: string)
    ensures |t| == |s| && forall i :: 0 <= i < |s| ==> t[i] == if s[i] == '\r' then '\n' else s[i]
  {
    if s == "" then "" else [if s[0] == '\r' then '\n' else s[0]] + ReturnsReplaced(s[1..])
  }

  lemma ReturnsCons(c: char, s: string)
    ensures ReturnsReplaced([c] + s) == [if c == '\r' then '\n' else c] + ReturnsReplaced(s)
  {
    assert ([c] + s)[1..] == s;
  }

  /** Unifying line ends is replacing the pairs and then the single returns. */
  lemma {:induction false} UnifyIs(s: string)
    ensures Unify(s) == ReturnsReplaced(PairsReplaced(s))
    decreases |s|
  {
    if s != "" {
      if |s| >= 2 && s[0] == '\r' && s[1] == '\n' {
        UnifyIs(s[2..]);
        ReturnsCons('\n', PairsReplaced(s[2..]));
      } else {
        UnifyIs(s[1..]);
        ReturnsCons(s[0], PairsReplaced(s[1..]));
      }
    }
  }

  // Headings.

  predicate AllSpace(s: string) {
    forall i :: 0 <= i < |s| ==> IsSpace(s[i])
  }

  predicate AllHash(s: string) {
    forall i :: 0 <= i < |s| ==> s[i] == '#'
  }

  /** Up to three blanks, one to six hashes, at least one blank, and then ink. */
  predicate HeadingAs(s: string, i: nat, j: nat, k: nat) {
    && i <= 3 && i < j <= i + 6 && j < k < |s|
    && AllSpace(s[..i]) && AllHash(s[i..j]) && AllSpace(s[j..k]) && !IsSpace(s[k])
  }

  lemma {:induction false} SpacesIs(s: string, n: nat)
    requires n <= |s| && AllSpace(s[..n]) && (n < |s| ==> !IsSpace(s[n]))
    ensures SpaceRun(s) == n
  {
    hide IsSpace;
    if n > 0 {
      assert s[..n][0] == s[0] && IsSpace(s[0]);
      assert s[1..][..n - 1] == s[..n][1..];
      SpacesIs(s[1..], n - 1);
    }
  }

  lemma {:induction false} HashesIs(s: string, n: nat)
    requires n <= |s| && AllHash(s[..n]) && (n < |s| ==> s[n] != '#')
    ensures Run(s, '#') == n
  {
    if n > 0 {
      assert s[..n][0] == s[0];
      assert s[1..][..n - 1] == s[..n][1..];
      HashesIs(s[1..], n - 1);
    }
  }

  lemma {:induction false} SpaceRunIs(s: string)
    ensures AllSpace(s[..SpaceRun(s)]) && (SpaceRun(s) < |s| ==> !IsSpace(s[SpaceRun(s)]))
  {
    hide IsSpace;
    if s != "" && IsSpace(s[0]) {
      SpaceRunIs(s[1..]);
      var n := SpaceRun(s);
      assert forall i :: 0 < i < n ==> s[..n][i] == s[1..][..n - 1][i - 1];
    }
  }

  lemma {:induction false} HashRunEnds(s: string)
    ensures Run(s, '#') < |s| ==> s[Run(s, '#')] != '#'
  {
    if s != "" && s[0] == '#' { HashRunEnds(s[1..]); }
  }

  lemma SliceOfTail(s: string, i: nat, j: nat)
    requires i <= j <= |s|
    ensures s[i..][..j - i] == s[i..j] && s[i..][j - i..] == s[j..] && (j < |s| ==> s[i..][j - i] == s[j])
  {
  }

  lemma HashesThenSpace(s: string, i: nat, j: nat, k: nat)
    requires HeadingAs(s, i, j, k)
    ensures !IsSpace(s[i]) && s[j] != '#'
  {
    assert s[i..j][0] == s[i] && s[j..k][0] == s[j];
    HashIsInk();
    hide IsSpace;
  }

  lemma RunsMakeHeading(s: string, i: nat, j: nat, k: nat)
    requires i < j < k < |s| && SpaceRun(s) == i && Run(s[i..], '#') == j - i && SpaceRun(s[j..]) == k - j
    requires i <= 3 && j <= i + 6
    ensures Heading(s)
  {
    hide SpaceRun, Run;
    assert i + (j - i) == j;
  }

  lemma GapRun(s: string, j: nat, k: nat)
    requires j <= k < |s| && AllSpace(s[j..k]) && !IsSpace(s[k])
    ensures SpaceRun(s[j..]) == k - j
  {
    hide IsSpace, SpaceRun, AllSpace;
    SliceOfTail(s, j, k);
    SpacesIs(s[j..], k - j);
  }

  lemma HashesRun(s: string, i: nat, j: nat)
    requires i <= j < |s| && AllHash(s[i..j]) && s[j] != '#'
    ensures Run(s[i..], '#') == j - i
  {
    hide Run, AllHash;
    SliceOfTail(s, i, j);
    HashesIs(s[i..], j - i);
  }

  lemma HeadingFound(s: string, i: nat, j: nat, k: nat)
    requires HeadingAs(s, i, j, k)
    ensures Heading(s)
  {
    hide IsSpace, Heading, SpaceRun, Run, AllSpace, AllHash;
    HashesThenSpace(s, i, j, k);
    SpacesIs(s, i);
    HashesRun(s, i, j);
    GapRun(s, j, k);
    RunsMakeHeading(s, i, j, k);
  }

  lemma HeadingParts(s: string) returns (i: nat, j: nat, k: nat)
    requires Heading(s)
    ensures HeadingAs(s, i, j, k)
  {
    hide IsSpace, SpaceRun, Run, AllSpace;
    i := SpaceRun(s);
    j := i + Run(s[i..], '#');
    k := j + SpaceRun(s[j..]);
    SpaceRunIs(s);
    SpaceRunIs(s[j..]);
    SliceOfTail(s, i, j);
    SliceOfTail(s, j, k);
    assert s[i..j] == s[i..][..j - i];
  }

  /** A heading is recognised exactly where one stands. */
  lemma HeadingIff(s: string)
    ensures Heading(s) <==> exists i: nat, j: nat, k: nat :: HeadingAs(s, i, j, k)
  {
    hide *;
    if Heading(s) { var i, j, k := HeadingParts(s); }
    if i: nat, j: nat, k: nat :| HeadingAs(s, i, j, k) { HeadingFound(s, i, j, k); }
  }

  lemma HashIsInk()
    ensures !IsSpace('#')
  {
  }

  // Cuts.

  /** A blank line starts here. */
  predicate BlankLine(text: string, i: nat) {
    i + 2 <= |text| && text[i] == '\n' && text[i + 1] == '\n'
  }

  predicate HeadingAt(text: string, i: nat)
    requires i <= |text|
  {
    (i == 0 || text[i - 1] == '\n') && Heading(text[i..])
  }

  /** Nothing in the part calls for a cut but perhaps its very start. */
  ghost predicate Whole(text: string, a: nat, b: nat)
    requires b <= |text|
  {
    forall i :: a <= i < b ==> !BlankLine(text, i) && (i > a ==> !HeadingAt(text, i))
  }

  /** Between the end of a part and the start of the next there is a heading or there are only line ends, at least two and all of them. */
  predicate CutBetween(text: string, b: nat, a: nat)
    requires b <= |text| && a <= |text|
  {
    if a == b then HeadingAt(text, b)
    else b + 2 <= a && (forall i :: b <= i < a ==> text[i] == '\n') && (a < |text| ==> text[a] != '\n')
  }

  /** The parts of the text from `last` on lie at `spans`, one after the other to the end, whole, with a cut between each two. */
  ghost predicate CutInto(text: string, last: nat, parts: seq<string>, spans: seq<(nat, nat)>) {
    && |parts| == |spans| && spans != [] && spans[0].0 == last && spans[|spans| - 1].1 == |text|
    && (forall k :: 0 <= k < |spans| ==> spans[k].0 <= spans[k].1 <= |text| && parts[k] == text[spans[k].0..spans[k].1] && Whole(text, spans[k].0, spans[k].1))
    && (forall k :: 0 <= k < |spans| - 1 ==> CutBetween(text, spans[k].1, spans[k + 1].0))
  }

  lemma {:induction false} RunEnds(s: string, c: char)
    ensures Run(s, c) < |s| ==> s[Run(s, c)] != c
    ensures Run(s, c) >= 2 <==> |s| >= 2 && s[0] == c && s[1] == c
  {
    if s != "" && s[0] == c { RunEnds(s[1..], c); }
  }

  lemma CutIntoCons(text: string, last: nat, b: nat, a: nat, parts: seq<string>, spans: seq<(nat, nat)>)
    requires last <= b <= |text| && a <= |text| && Whole(text, last, b) && CutBetween(text, b, a) && CutInto(text, a, parts, spans)
    ensures CutInto(text, last, [text[last..b]] + parts, [(last, b)] + spans)
  {
    hide Whole, CutBetween;
  }

  lemma WholeMore(text: string, last: nat, i: nat)
    requires last <= i < |text| && Whole(text, last, i) && !BlankLine(text, i) && (i > last ==> !HeadingAt(text, i))
    ensures Whole(text, last, i + 1)
  {
    hide Heading;
  }

  lemma GapIs(text: string, i: nat)
    requires i <= |text|
    ensures var n := Run(text[i..], '\n');
            && (BlankLine(text, i) <==> n >= 2) && i + n <= |text|
            && (n >= 2 ==> CutBetween(text, i, i + n) && Whole(text, i + n, i + n))
  {
    RunEnds(text[i..], '\n');
    var n := Run(text[i..], '\n');
    assert forall k :: i <= k < i + n ==> text[k] == text[i..][k - i];
    assert i + n < |text| ==> text[i + n] == text[i..][n];
    hide Heading;
  }

  lemma LastPart(text: string, last: nat)
    requires last <= |text| && Whole(text, last, |text|)
    ensures CutInto(text, last, [text[last..]], [(last, |text|)])
  {
    assert text[last..] == text[last..|text|];
    hide Whole, CutBetween;
  }

  lemma AtHeading(text: string, i: nat)
    requires i <= |text| && LineStart(text, i) && Heading(text[i..])
    ensures HeadingAt(text, i) && CutBetween(text, i, i) && Whole(text, i, i)
  {
    hide Heading;
  }

  lemma NotHeading(text: string, i: nat)
    requires i <= |text| && !(LineStart(text, i) && Heading(text[i..]))
    ensures !HeadingAt(text, i)
  {
    hide Heading;
  }

  /** Main result: a text is cut exactly at its blank lines and before its headings: the parts lie one after the other, no part holds a
      blank line or a heading after its start, and what is dropped between two parts is a whole run of line ends. */
  lemma {:induction false} PiecesAre(text: string, last: nat, i: nat, cut: bool) returns (spans: seq<(nat, nat)>)
    requires last <= i <= |text| && Whole(text, last, i) && (cut ==> last == i)
    ensures CutInto(text, last, Pieces(text, last, i, cut), spans)
    decreases |text| - i, if cut then 0 else 1
  {
    hide Heading, LineStart, Whole, CutBetween, CutInto, BlankLine, HeadingAt;
    var n := Run(text[i..], '\n');
    GapIs(text, i);
    if !cut && LineStart(text, i) && Heading(text[i..]) {
      AtHeading(text, i);
      var rest := PiecesAre(text, i, i, true);
      CutIntoCons(text, last, i, i, Pieces(text, i, i, true), rest);
      spans := [(last, i)] + rest;
    } else if n >= 2 {
      var rest := PiecesAre(text, i + n, i + n, false);
      CutIntoCons(text, last, i, i + n, Pieces(text, i + n, i + n, false), rest);
      spans := [(last, i)] + rest;
    } else if i == |text| {
      LastPart(text, last);
      spans := [(last, i)];
    } else {
      if !cut { NotHeading(text, i); }
      WholeMore(text, last, i);
      spans := PiecesAre(text, last, i + 1, false);
    }
  }

  // Putting blocks together.

  /** Blocks with a blank line between each two. */
  function Joined(blocks: seq<string>): string {
    if blocks == [] then ""
    else if |blocks| == 1 then blocks[0]
    else Joined(blocks[..|blocks| - 1]) + "\n\n" + blocks[|blocks| - 1]
  }

  lemma {:induction false} JoinedNonEmpty(blocks: seq<string>)
    requires blocks != [] && forall b :: b in blocks ==> b != ""
    ensures Joined(blocks) != ""
  {
    assert blocks[0] in blocks;
  }

  /** Main result: blocks stay together as long as they fit: if all of them with blank lines between fit the limit, they wait as one
      text and no chunk is written. */
  lemma {:induction false} BlocksTogether(blocks: seq<string>, limit: nat)
    requires limit >= 1 && |Joined(blocks)| <= limit && forall b :: b in blocks ==> b != ""
    ensures WithBlocks(blocks, limit) == Work([], Joined(blocks))
    decreases |blocks|
  {
    if blocks != [] {
      var init, last := blocks[..|blocks| - 1], blocks[|blocks| - 1];
      assert forall b :: b in init ==> b in blocks;
      BlocksTogether(init, limit);
      if init != [] { JoinedNonEmpty(init); }
      WithBlockIs(WithBlocks(init, limit), last, limit);
    }
  }

  /** A block that does not fit with what waits starts a new chunk. */
  lemma BlockApart(w: Work, block: string, limit: nat)
    requires limit >= 1 && w.rest != "" && |w.rest + "\n\n" + block| > limit && |block| <= limit
    ensures WithBlock(w, block, limit) == Work(w.chunks + [Strip(w.rest)], block)
  {
    WithBlockIs(w, block, limit);
    DrainedDone(w.chunks + [Strip(w.rest)], block, limit);
    hide Strip;
  }
}
