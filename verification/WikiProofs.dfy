/** Rewriting links and extracting them commute. */
module WikiProofs {
  import opened Basics
  import opened Text
  import opened WikiLinks

  /** A text that can stand between the brackets. */
  predicate GroupOk(g: string) {
    g != "" && forall c :: c in g ==> c != ']' && c != '\n'
  }

  /** A title that can be a link target as it stands. */
  predicate TitleOk(title: string) {
    GroupOk(title) && forall c :: c in title ==> c != '|' && c != '#'
  }

  lemma {:induction false} ReachIs(s: string, n: nat)
    requires n <= |s| && (forall i :: 0 <= i < n ==> s[i] != ']' && s[i] != '\n') && (n < |s| ==> s[n] == ']' || s[n] == '\n')
    ensures Reach(s) == n
  {
    if n > 0 { ReachIs(s[1..], n - 1); }
  }

  lemma {:induction false} ReachClean(s: string)
    ensures forall c :: c in s[..Reach(s)] ==> c != ']' && c != '\n'
  {
    if Reach(s) > 0 {
      ReachClean(s[1..]);
      assert s[..Reach(s)] == [s[0]] + s[1..][..Reach(s[1..])];
    }
  }

  /** A printed link is scanned back as that link. */
  lemma LinkScans(g: string, rest: string)
    requires GroupOk(g)
    ensures Scan("[[" + g + "]]" + rest) == [Link(g)] + Scan(rest)
  {
    var s := "[[" + g + "]]" + rest;
    assert s[2..] == g + "]]" + rest;
    assert forall i :: 0 <= i < |g| ==> s[2..][i] == g[i] && g[i] in g;
    ReachIs(s[2..], |g|);
    assert s[2..2 + |g|] == g && s[|g| + 4..] == rest;
    assert LinkAt(s);
    hide Reach, Closes, LinkAt;
  }

  /** Two texts that scan alike up to link groups look alike to the scanner. */
  ghost predicate Alike(a: string, b: string) {
    && (a == [] <==> b == [])
    && (a != [] ==> a[0] == b[0])
    && (Closes(a) <==> Closes(b))
  }

  /** Tokens of the same shape; changed links stay proper links. */
  ghost predicate Reshaped(ts: seq<Token>, us: seq<Token>) {
    && |ts| == |us|
    && forall i :: 0 <= i < |ts| ==> if ts[i].Link? then us[i].Link? && GroupOk(us[i].group) else us[i] == ts[i]
  }

  lemma ClosesLink(g: string, rest: string)
    requires GroupOk(g)
    ensures Closes("[[" + g + "]]" + rest)
  {
    var s := "[[" + g + "]]" + rest;
    forall i | 0 <= i < |g| + 2
      ensures s[i] != ']' && s[i] != '\n'
    {
      assert i >= 2 ==> s[i] == g[i - 2] && g[i - 2] in g;
    }
    ReachIs(s, |g| + 2);
  }

  lemma ClosesPlain(c: char, a: string)
    ensures c != ']' && c != '\n' ==> (Closes([c] + a) <==> Closes(a))
    ensures c == '\n' ==> !Closes([c] + a)
    ensures c == ']' ==> (Closes([c] + a) <==> a != [] && a[0] == ']')
  {
    assert ([c] + a)[1..] == a;
    ReachIsOneMore(c, a);
  }

  lemma ReachIsOneMore(c: char, a: string)
    ensures Reach([c] + a) == if c == ']' || c == '\n' then 0 else 1 + Reach(a)
  {
    assert ([c] + a)[1..] == a;
  }

  lemma AlikePlain(c: char, a: string, b: string)
    requires Alike(a, b)
    ensures Alike([c] + a, [c] + b)
  {
    ClosesPlain(c, a);
    ClosesPlain(c, b);
    hide Closes;
  }

  lemma AlikeLinks(g: string, a: string, h: string, b: string)
    requires GroupOk(g) && GroupOk(h)
    ensures Alike("[[" + g + "]]" + a, "[[" + h + "]]" + b)
  {
    ClosesLink(g, a);
    ClosesLink(h, b);
    hide Closes;
  }

  /** Where no link starts, none starts in an alike text either. */
  lemma NoLinkEither(c: char, a: string, b: string, ra: string, rb: string)
    requires !LinkAt([c] + a) && Alike(a, b)
    requires a != [] && a[0] == '[' ==> a == "[" + ra && b == "[" + rb && Alike(ra, rb)
    ensures !LinkAt([c] + b)
  {
    if c == '[' && b != [] && b[0] == '[' {
      assert ([c] + a)[2..] == ra && ([c] + b)[2..] == rb;
      ReachPositive(ra);
      ReachPositive(rb);
    }
    hide Closes, Reach;
  }

  lemma ReachPositive(a: string)
    ensures Reach(a) > 0 <==> a != [] && a[0] != ']' && a[0] != '\n'
  {
  }

  lemma PlainScans(c: char, b: string)
    requires !LinkAt([c] + b)
    ensures Scan([c] + b) == [Plain(c)] + Scan(b)
  {
    assert ([c] + b)[1..] == b;
    hide LinkAt;
  }

  lemma ScanLink(s: string)
    requires LinkAt(s)
    ensures var n := Reach(s[2..]);
            n + 4 <= |s| && GroupOk(s[2..2 + n]) && s == "[[" + s[2..2 + n] + "]]" + s[n + 4..]
  {
    LinkFits(s);
    var n := Reach(s[2..]);
    ReachClean(s[2..]);
    assert s[2..2 + n] == s[2..][..n] && n > 0;
    hide Reach, LinkAt;
    assert s == s[..n + 4] + s[n + 4..];
  }

  /** What a scan of a non-empty text begins with. */
  lemma ScanHead(s: string)
    requires s != []
    ensures if LinkAt(s) then
              var n := Reach(s[2..]);
              n + 4 <= |s| && GroupOk(s[2..2 + n]) && s == "[[" + s[2..2 + n] + "]]" + s[n + 4..] && Scan(s) == [Link(s[2..2 + n])] + Scan(s[n + 4..])
            else Scan(s) == [Plain(s[0])] + Scan(s[1..]) && s == [s[0]] + s[1..]
  {
    if LinkAt(s) { ScanLink(s); }
    hide Reach, LinkAt, GroupOk;
  }

  /** Scanning then printing gives the text back. */
  lemma {:induction false} PrintScan(s: string)
    ensures Print(Scan(s)) == s
    decreases |s|
  {
    if s != [] {
      ScanHead(s);
      hide LinkAt, Reach, GroupOk;
      if LinkAt(s) {
        PrintScan(s[Reach(s[2..]) + 4..]);
      } else {
        PrintScan(s[1..]);
      }
    }
  }

  lemma PrintCons(t: Token, ts: seq<Token>)
    ensures Print([t] + ts) == Show(t) + Print(ts)
  {
    assert ([t] + ts)[1..] == ts;
  }

  lemma ReshapedTail(ts: seq<Token>, us: seq<Token>)
    requires Reshaped(ts, us) && ts != []
    ensures Reshaped(ts[1..], us[1..]) && us == [us[0]] + us[1..]
    ensures if ts[0].Link? then us[0].Link? && GroupOk(us[0].group) else us[0] == ts[0]
  {
    hide GroupOk;
  }

  /** Printing reshaped tokens gives a text alike to the scanned one. */
  lemma {:induction false} ReshapedAlike(s: string, us: seq<Token>)
    requires Reshaped(Scan(s), us)
    ensures Alike(s, Print(us))
    decreases |s|
  {
    hide LinkAt, Reach, Closes, GroupOk, Scan, Print, Reshaped, Alike;
    if s == [] {
      EmptyAlike(us);
    } else {
      ScanHead(s);
      ReshapedTail(Scan(s), us);
      PrintCons(us[0], us[1..]);
      if LinkAt(s) {
        AlikeLinks(s[2..2 + Reach(s[2..])], s[Reach(s[2..]) + 4..], us[0].group, Print(us[1..]));
      } else {
        assert Scan(s)[1..] == Scan(s[1..]);
        ReshapedAlike(s[1..], us[1..]);
        AlikePlain(s[0], s[1..], Print(us[1..]));
      }
    }
  }

  lemma EmptyAlike(us: seq<Token>)
    requires Reshaped(Scan([]), us)
    ensures us == [] && Alike([], Print(us))
  {
  }

  /** Main result: changing link groups and printing keeps every token: scanning the result finds exactly the changed tokens. */
  lemma {:induction false} ReshapedScans(s: string, us: seq<Token>)
    requires Reshaped(Scan(s), us)
    ensures Scan(Print(us)) == us
    decreases |s|
  {
    hide LinkAt, Reach, Closes, GroupOk, Scan, Print, Reshaped, Alike;
    if s == [] {
      EmptyScans(us);
    } else {
      ScanHead(s);
      ReshapedTail(Scan(s), us);
      PrintCons(us[0], us[1..]);
      if LinkAt(s) {
        var rest := s[Reach(s[2..]) + 4..];
        assert Scan(s)[1..] == Scan(rest);
        ReshapedScans(rest, us[1..]);
        LinkScans(us[0].group, Print(us[1..]));
      } else {
        var rest := s[1..];
        assert Scan(s)[1..] == Scan(rest);
        ReshapedScans(rest, us[1..]);
        ReshapedAlike(rest, us[1..]);
        PlainStays(s, us);
        PlainScans(s[0], Print(us[1..]));
      }
    }
  }

  lemma EmptyScans(us: seq<Token>)
    requires Reshaped(Scan([]), us)
    ensures Scan(Print(us)) == us
  {
  }

  /** A plain character starts no link after the change. */
  lemma PlainStays(s: string, us: seq<Token>)
    requires s != [] && !LinkAt(s) && Reshaped(Scan(s), us)
    ensures us != [] && !LinkAt([s[0]] + Print(us[1..]))
  {
    hide LinkAt, Reach, Closes, GroupOk, Scan, Print, Reshaped, Alike;
    ScanHead(s);
    ReshapedTail(Scan(s), us);
    var a, vs := s[1..], us[1..];
    assert Scan(s)[1..] == Scan(a);
    ReshapedAlike(a, vs);
    if a != [] && a[0] == '[' {
      if LinkAt(a) {
        BracketBeforeLink(s);
        NotBracket(s, Print(vs));
      } else {
        ScanHead(a);
        ReshapedTail(Scan(a), vs);
        PrintCons(vs[0], vs[1..]);
        assert Scan(a)[1..] == Scan(a[1..]);
        ReshapedAlike(a[1..], vs[1..]);
        NoLinkEither(s[0], a, Print(vs), a[1..], Print(vs[1..]));
      }
    } else {
      NoLinkEither(s[0], a, Print(vs), [], []);
    }
  }

  /** An opening bracket right before a link is the link's start. */
  lemma BracketBeforeLink(s: string)
    requires s != [] && LinkAt(s[1..])
    ensures s[0] == '[' ==> LinkAt(s)
  {
    var a := s[1..];
    assert s[2..] == a[1..] == ['['] + a[2..];
    ReachIsOneMore('[', a[2..]);
    ClosesPlain('[', a[2..]);
    hide Closes, Reach;
  }

  lemma NotBracket(s: string, b: string)
    requires s != [] && s[0] != '['
    ensures !LinkAt([s[0]] + b)
  {
  }

  // Parts of a link.

  lemma {:induction false} BeforeAppend(a: string, b: string, c: char)
    requires c !in a
    ensures Before(a + b, c) == a + Before(b, c)
    ensures After(a + b, c) == After(b, c)
  {
    if a == [] {
      assert a + b == b;
    } else {
      assert (a + b)[1..] == a[1..] + b;
      BeforeAppend(a[1..], b, c);
    }
  }

  lemma {:induction false} BeforeClean(s: string, c: char)
    ensures c !in Before(s, c) && (forall d :: d in Before(s, c) ==> d in s)
    ensures After(s, c).Some? ==> forall d :: d in After(s, c).value ==> d in s
  {
    if s != [] && s[0] != c { BeforeClean(s[1..], c); }
  }

  /** Main result: a retargeted link has the new target and the old anchor and alias, and is still a link. */
  lemma RetargetParts(g: string, title: string)
    requires TitleOk(title) && GroupOk(g)
    ensures var h := Retarget(g, title);
            Target(h) == title && Anchor(h) == Anchor(g) && Alias(h) == Alias(g) && GroupOk(h)
  {
    var anchor, alias := Suffix('#', Anchor(g)), Suffix('|', Alias(g));
    BeforeClean(g, '|');
    BeforeClean(Before(g, '|'), '#');
    assert '|' !in title + anchor;
    BeforeAppend(title + anchor, alias, '|');
    BeforeAppend(title, anchor, '#');
    SuffixParts('|', Alias(g));
    SuffixParts('#', Anchor(g));
    assert title + anchor + [] == title + anchor && title + [] == title;
    hide Before, After, Suffix;
    assert Before(Retarget(g, title), '|') == title + anchor;
    assert forall c :: c in Retarget(g, title) ==> c in title || c in anchor || c in alias;
  }

  lemma SuffixParts(c: char, part: Option<string>)
    ensures Before(Suffix(c, part), c) == [] && After(Suffix(c, part), c) == part
  {
    if part.Some? { assert ([c] + part.value)[1..] == part.value; }
  }

  lemma {:induction false} ScanGroups(s: string)
    ensures forall i :: 0 <= i < |Scan(s)| && Scan(s)[i].Link? ==> GroupOk(Scan(s)[i].group)
    decreases |s|
  {
    hide LinkAt, Reach, GroupOk;
    if s != [] {
      ScanHead(s);
      ScanGroups(if LinkAt(s) then s[Reach(s[2..]) + 4..] else s[1..]);
    }
  }

  lemma {:induction false} SubstituteReshapes(lower: Lower, ts: seq<Token>, former: string, title: string)
    requires TitleOk(title) && forall i :: 0 <= i < |ts| && ts[i].Link? ==> GroupOk(ts[i].group)
    ensures Reshaped(ts, Substitute(lower, ts, former, title))
  {
    hide Names, Retarget, GroupOk, TitleOk;
    if ts != [] {
      SubstituteReshapes(lower, ts[1..], former, title);
      if ts[0].Link? { RetargetParts(ts[0].group, title); }
    }
  }

  /** Main result: extracting the tokens after the rewrite is substituting in the tokens extracted before,
      for any text and any proper title; so plain text, other links, anchors and aliases are untouched. */
  lemma RewriteCommutesWithScan(lower: Lower, text: string, former: string, title: string)
    requires TitleOk(title)
    ensures Scan(Rewritten(lower, text, former, title)) == Substitute(lower, Scan(text), former, title)
  {
    ScanGroups(text);
    SubstituteReshapes(lower, Scan(text), former, title);
    ReshapedScans(text, Substitute(lower, Scan(text), former, title));
    hide Scan, Print, Substitute, Reshaped;
  }

  /** Rewriting to a title that is not the old one leaves no link with the old name. */
  lemma NoneLeft(lower: Lower, text: string, former: string, title: string)
    requires TitleOk(title) && lower(Strip(title)) != lower(Strip(former))
    ensures Hits(lower, Scan(Rewritten(lower, text, former, title)), former) == 0
  {
    RewriteCommutesWithScan(lower, text, former, title);
    ScanGroups(text);
    SubstitutedMisses(lower, Scan(text), former, title);
  }

  lemma {:induction false} SubstitutedMisses(lower: Lower, ts: seq<Token>, former: string, title: string)
    requires TitleOk(title) && lower(Strip(title)) != lower(Strip(former))
    requires forall i :: 0 <= i < |ts| && ts[i].Link? ==> GroupOk(ts[i].group)
    ensures Hits(lower, Substitute(lower, ts, former, title), former) == 0
  {
    hide Retarget, GroupOk, TitleOk, Strip, Target;
    if ts != [] {
      SubstitutedMisses(lower, ts[1..], former, title);
      if ts[0].Link? { RetargetParts(ts[0].group, title); }
    }
  }
}
