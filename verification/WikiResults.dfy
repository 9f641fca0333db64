/** Links and their rewriting told in terms of the text itself: which links there are, and what each becomes. */
module WikiResults {
  import opened Basics
  import opened Text
  import opened WikiLinks
  import opened WikiProofs

  /** `s` begins with a link to `g`. */
  predicate Opens(s: string, g: string) {
    g != "" && ']' !in g && '\n' !in g && "[[" + g + "]]" <= s
  }

  lemma OpensIs(s: string, g: string)
    ensures Opens(s, g) ==> LinkAt(s) && g == s[2..2 + Reach(s[2..])]
    ensures LinkAt(s) ==> Opens(s, s[2..2 + Reach(s[2..])])
  {
    if Opens(s, g) {
      var k := |g|;
      assert s[2..][..k] == g && s[2..][k] == ']';
      assert forall i :: 0 <= i < k ==> s[2..][i] == g[i] && g[i] in g;
      ReachIs(s[2..], k);
      assert s[2 + k] == ("[[" + g + "]]")[2 + k] && s[3 + k] == ("[[" + g + "]]")[3 + k];
    }
    if LinkAt(s) {
      ScanLink(s);
      hide Reach, LinkAt;
    }
  }

  /** Main result: reading a text from the left, where a link opens it is taken whole, to the first closing brackets of a non-empty
      run without line end, and what stands between the brackets is its group; any other character stands for itself. */
  lemma ScanIs(s: string, g: string)
    requires s != ""
    ensures Opens(s, g) ==> Scan(s) == [Link(g)] + Scan(s[|g| + 4..])
    ensures (forall h :: !Opens(s, h)) ==> Scan(s) == [Plain(s[0])] + Scan(s[1..])
  {
    OpensIs(s, g);
    ScanHead(s);
    hide LinkAt, Reach, GroupOk;
    if LinkAt(s) { assert Opens(s, s[2..2 + Reach(s[2..])]); }
  }

  /** The characters of `core` are those of `s` without the whitespace around them. */
  ghost predicate Stripped(s: string, core: string) {
    exists i, j :: 0 <= i <= j <= |s| && StrippedAt(s, core, i, j)
  }

  predicate StrippedAt(s: string, core: string, i: nat, j: nat)
    requires i <= j <= |s|
  {
    && s[i..j] == core && (forall k :: 0 <= k < |s| && (k < i || k >= j) ==> IsSpace(s[k]))
    && (core == "" || (!IsSpace(core[0]) && !IsSpace(core[|core| - 1])))
  }

  lemma {:induction false} LeftIs(s: string) returns (i: nat)
    ensures i <= |s| && StripLeft(s) == s[i..] && (forall k :: 0 <= k < i ==> IsSpace(s[k])) && (i < |s| ==> !IsSpace(s[i]))
  {
    hide IsSpace;
    if s != [] && IsSpace(s[0]) {
      var j := LeftIs(s[1..]);
      i := j + 1;
      assert forall k :: 0 < k < i ==> s[k] == s[1..][k - 1];
      assert s[1..][j..] == s[i..];
    } else {
      i := 0;
    }
  }

  lemma {:induction false} RightIs(s: string) returns (j: nat)
    ensures j <= |s| && StripRight(s) == s[..j] && (forall k :: j <= k < |s| ==> IsSpace(s[k])) && (j > 0 ==> !IsSpace(s[j - 1]))
    decreases |s|
  {
    hide IsSpace;
    if s != [] && IsSpace(s[|s| - 1]) {
      j := RightIs(s[..|s| - 1]);
      assert s[..|s| - 1][..j] == s[..j];
    } else {
      j := |s|;
    }
  }

  lemma StripIs(s: string)
    ensures Stripped(s, Strip(s))
  {
    var i := LeftIs(s);
    var t := s[i..];
    var j := RightIs(t);
    hide IsSpace, StripLeft, StripRight;
    assert s[i..i + j] == t[..j];
    assert forall k :: j <= k < |t| ==> s[i + k] == t[k];
    forall k | i + j <= k < |s|
      ensures IsSpace(s[k])
    {
      assert s[k] == t[k - i];
    }
    assert StrippedAt(s, Strip(s), i, i + j);
  }

  /** The group is made of a target, an anchor and an alias, as far as there are such parts. */
  predicate Parts(g: string, target: string, anchor: Option<string>, alias: Option<string>) {
    && g == target + (if anchor.Some? then "#" + anchor.value else "") + (if alias.Some? then "|" + alias.value else "")
    && '#' !in target && '|' !in target && (anchor.Some? ==> '|' !in anchor.value)
  }

  lemma {:induction false} CutAt(s: string, c: char)
    ensures s == Before(s, c) + (if After(s, c).Some? then [c] + After(s, c).value else "") && c !in Before(s, c)
  {
    if s != [] && s[0] != c { CutAt(s[1..], c); }
  }

  /** Every group has such parts, and they are what the code reads off it. */
  lemma PartsAre(g: string)
    ensures Parts(g, Target(g), Anchor(g), Alias(g))
  {
    CutAt(g, '|');
    CutAt(Before(g, '|'), '#');
    BeforeClean(Before(g, '|'), '#');
    hide Before, After;
  }

  /** The link is named like the former title: their stripped names are the same in lower case. */
  ghost predicate Named(lower: Lower, g: string, former: string) {
    exists target, anchor, alias, name, was ::
      Parts(g, target, anchor, alias) && Stripped(target, name) && Stripped(former, was) && lower(name) == lower(was)
  }

  /** Parts are unique. */
  lemma PartsUnique(g: string, target: string, anchor: Option<string>, alias: Option<string>)
    requires Parts(g, target, anchor, alias)
    ensures target == Target(g) && anchor == Anchor(g) && alias == Alias(g)
  {
    var front := target + Suffix('#', anchor);
    BeforeAppend(front, Suffix('|', alias), '|');
    BeforeAppend(target, Suffix('#', anchor), '#');
    SuffixParts('|', alias);
    SuffixParts('#', anchor);
    assert front + [] == front && target + [] == target;
    hide Before, After;
  }

  lemma StrippedUnique(s: string, core: string)
    requires Stripped(s, core)
    ensures core == Strip(s)
  {
    StripIs(s);
    var i, j :| 0 <= i <= j <= |s| && StrippedAt(s, core, i, j);
    var k, l :| 0 <= k <= l <= |s| && StrippedAt(s, Strip(s), k, l);
    hide Strip, IsSpace;
    SameCore(s, core, i, j, Strip(s), k, l);
    SameCore(s, Strip(s), k, l, core, i, j);
  }

  lemma SameCore(s: string, core: string, i: nat, j: nat, other: string, k: nat, l: nat)
    requires i <= j <= |s| && k <= l <= |s| && StrippedAt(s, core, i, j) && StrippedAt(s, other, k, l)
    ensures core != "" ==> k <= i && j <= l
    ensures core == "" && other != "" ==> false
  {
    if core != "" {
      assert s[i] == core[0] && s[j - 1] == core[|core| - 1];
    }
    if other != "" {
      assert s[k] == other[0];
    }
  }

  lemma NamedIs(lower: Lower, g: string, former: string)
    ensures Named(lower, g, former) <==> Names(lower, g, former)
  {
    PartsAre(g);
    StripIs(Target(g));
    StripIs(former);
    hide Parts, Stripped, Target, Anchor, Alias, Strip;
    if target, anchor, alias, name, was :|
      Parts(g, target, anchor, alias) && Stripped(target, name) && Stripped(former, was) && lower(name) == lower(was)
    {
      PartsUnique(g, target, anchor, alias);
      StrippedUnique(target, name);
      StrippedUnique(former, was);
    }
  }

  /** What a rewrite makes of one token. */
  ghost predicate Becomes(lower: Lower, t: Token, u: Token, former: string, title: string) {
    if t.Link? && Named(lower, t.group, former)
    then u.Link? && exists target, anchor, alias :: Parts(t.group, target, anchor, alias) && Parts(u.group, title, anchor, alias)
    else u == t
  }

  /** Main result: scanning the rewritten text finds the tokens of the old one, each link to the former title with the new title in
      place of its target and the anchor and the alias it had, everything else as it was. */
  lemma RewriteIs(lower: Lower, text: string, former: string, title: string, i: nat)
    requires TitleOk(title)
    ensures var (ts, us) := (Scan(text), Scan(Rewritten(lower, text, former, title)));
            |us| == |ts| && (i < |ts| ==> Becomes(lower, ts[i], us[i], former, title))
  {
    RewriteCommutesWithScan(lower, text, former, title);
    ScanGroups(text);
    if i < |Scan(text)| { SubstituteAt(lower, Scan(text), former, title, i); }
    hide Scan, Rewritten, Substitute, TitleOk, GroupOk, Becomes, Names;
    if i < |Scan(text)| { TokenBecomes(lower, Scan(text)[i], former, title); }
  }

  lemma {:induction false} SubstituteAt(lower: Lower, ts: seq<Token>, former: string, title: string, i: nat)
    requires i < |ts|
    ensures Substitute(lower, ts, former, title)[i] ==
              if ts[i].Link? && Names(lower, ts[i].group, former) then Link(Retarget(ts[i].group, title)) else ts[i]
  {
    hide Names, Retarget;
    if i > 0 { SubstituteAt(lower, ts[1..], former, title, i - 1); }
  }

  lemma TokenBecomes(lower: Lower, t: Token, former: string, title: string)
    requires TitleOk(title) && (t.Link? ==> GroupOk(t.group))
    ensures Becomes(lower, t, if t.Link? && Names(lower, t.group, former) then Link(Retarget(t.group, title)) else t, former, title)
  {
    if t.Link? {
      NamedIs(lower, t.group, former);
      PartsAre(t.group);
      RetargetParts(t.group, title);
      PartsAre(Retarget(t.group, title));
    }
    hide Named, Names, Parts, Retarget, TitleOk, GroupOk, Target, Anchor, Alias;
  }


  /** Main result: the reported number is the number of links to the former title. */
  lemma {:induction false} HitsCount(lower: Lower, ts: seq<Token>, former: string, at: set<nat>)
    requires forall i: nat :: i in at <==> i < |ts| && ts[i].Link? && Named(lower, ts[i].group, former)
    ensures Hits(lower, ts, former) == |at|
    decreases |ts|
  {
    hide Names, Named;
    if ts == [] {
      assert at == {};
    } else {
      var n := |ts| - 1;
      var init, last := ts[..n], ts[n];
      HitsLast(lower, ts, former);
      if last.Link? { NamedIs(lower, last.group, former); }
      HitsCount(lower, init, former, at - {n});
      assert n in at ==> at == (at - {n}) + {n};
      assert n !in at ==> at - {n} == at;
    }
  }

  lemma {:induction false} HitsLast(lower: Lower, ts: seq<Token>, former: string)
    requires ts != []
    ensures var n := |ts| - 1;
            Hits(lower, ts, former) == Hits(lower, ts[..n], former) + if ts[n].Link? && Names(lower, ts[n].group, former) then 1 else 0
  {
    hide Names;
    if |ts| > 1 {
      HitsLast(lower, ts[1..], former);
      assert ts[1..][..|ts| - 2] == ts[..|ts| - 1][1..];
    }
  }
}
