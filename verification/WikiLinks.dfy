/** Wiki links in notes: scanning them and rewriting their targets. */
module WikiLinks {
  import opened Basics
  import opened Text

  /** A text read as plain characters and links with what stands between the brackets. */
  datatype Token = Plain(c: char) | Link(group: string)

  /** How many characters come before the first closing bracket or line end. */
  function Reach(s: string): (n: nat)
    ensures n <= |s|
  {
    if s == [] || s[0] == ']' || s[0] == '\n' then 0 else 1 + Reach(s[1..])
  }

  /** The text runs, within its line, into two closing brackets. */
  predicate Closes(s: string) {
    var n := Reach(s);
    n + 2 <= |s| && s[n] == ']' && s[n + 1] == ']'
  }

  /** A link starts here. */
  predicate LinkAt(s: string) {
    |s| >= 2 && s[0] == '[' && s[1] == '[' && Reach(s[2..]) > 0 && Closes(s[2..])
  }

  function Scan(s: string): seq<Token>
    decreases |s|
  {
    if s == [] then []
    else if LinkAt(s) then
      var n := Reach(s[2..]);
      [Link(s[2..2 + n])] + Scan(s[n + 4..])
    else [Plain(s[0])] + Scan(s[1..])
  }

  function Show(t: Token): string {
    match t case Plain(c) => [c] case Link(g) => "[[" + g + "]]"
  }

  function Print(ts: seq<Token>): string {
    if ts == [] then [] else Show(ts[0]) + Print(ts[1..])
  }

  function Before(s: string, c: char): string {
    if s == [] || s[0] == c then [] else [s[0]] + Before(s[1..], c)
  }

  /** What follows the first `c`, if there is one. */
  function After(s: string, c: char): Option<string> {
    if s == [] then None else if s[0] == c then Some(s[1..]) else After(s[1..], c)
  }

  function Target(group: string): string {
    Before(Before(group, '|'), '#')
  }

  function Anchor(group: string): Option<string> {
    After(Before(group, '|'), '#')
  }

  function Alias(group: string): Option<string> {
    After(group, '|')
  }

  function Normalize(group: string): string {
    Strip(Target(group))
  }

  function Suffix(c: char, part: Option<string>): string {
    if part.Some? then [c] + part.value else []
  }

  /** The link text with its target replaced. */
  function Retarget(group: string, title: string): string {
    title + Suffix('#', Anchor(group)) + Suffix('|', Alias(group))
  }

  /** Lower-casing, whatever the Unicode tables say. */
  type Lower = string -> string

  predicate Names(lower: Lower, group: string, former: string) {
    lower(Normalize(group)) == lower(Strip(former))
  }

  function Substitute(lower: Lower, ts: seq<Token>, former: string, title: string): (r: seq<Token>)
    ensures |r| == |ts|
  {
    if ts == [] then []
    else
      [if ts[0].Link? && Names(lower, ts[0].group, former) then Link(Retarget(ts[0].group, title)) else ts[0]]
      + Substitute(lower, ts[1..], former, title)
  }

  function Hits(lower: Lower, ts: seq<Token>, former: string): nat {
    if ts == [] then 0 else (if ts[0].Link? && Names(lower, ts[0].group, former) then 1 else 0) + Hits(lower, ts[1..], former)
  }

  function Rewritten(lower: Lower, s: string, former: string, title: string): string {
    Print(Substitute(lower, Scan(s), former, title))
  }

  /** The rewriter: one pass over the text, link by link. */
  method Rewrite(lower: Lower, text: string, former: string, title: string) returns (r: string, count: nat)
    ensures r == Rewritten(lower, text, former, title)
    ensures count == Hits(lower, Scan(text), former)
  {
    hide *;
    r, count := "", 0;
    var i := 0;
    assert text[0..] == text;
    while i < |text|
      invariant i <= |text|
      invariant r + Rewritten(lower, text[i..], former, title) == Rewritten(lower, text, former, title)
      invariant count + Hits(lower, Scan(text[i..]), former) == Hits(lower, Scan(text), former)
      decreases |text| - i
    {
      var rest := text[i..];
      RewriteHead(lower, rest, former, title);
      if LinkAt(rest) {
        LinkFits(rest);
        var n := Reach(rest[2..]);
        var group := rest[2..2 + n];
        assert rest[n + 4..] == text[i + n + 4..];
        if Names(lower, group, former) {
          count := count + 1;
          r := r + ("[[" + Retarget(group, title) + "]]");
        } else {
          r := r + rest[..n + 4];
        }
        i := i + n + 4;
      } else {
        assert rest[1..] == text[i + 1..];
        r := r + [rest[0]];
        i := i + 1;
      }
    }
    NothingLeft(lower, former, title);
    assert text[|text|..] == [];
  }

  lemma NothingLeft(lower: Lower, former: string, title: string)
    ensures Rewritten(lower, [], former, title) == [] && Hits(lower, Scan([]), former) == 0
  {
  }

  lemma LinkFits(s: string)
    requires LinkAt(s)
    ensures Reach(s[2..]) + 4 <= |s| && s[..Reach(s[2..]) + 4] == "[[" + s[2..2 + Reach(s[2..])] + "]]"
  {
  }

  /** One step of the rewriter. */
  lemma RewriteHead(lower: Lower, s: string, former: string, title: string)
    requires s != []
    ensures if LinkAt(s) then
              var n := Reach(s[2..]);
              n + 4 <= |s|
              && Rewritten(lower, s, former, title) ==
                   (if Names(lower, s[2..2 + n], former) then "[[" + Retarget(s[2..2 + n], title) + "]]" else s[..n + 4])
                   + Rewritten(lower, s[n + 4..], former, title)
              && Hits(lower, Scan(s), former) == (if Names(lower, s[2..2 + n], former) then 1 else 0) + Hits(lower, Scan(s[n + 4..]), former)
            else
              Rewritten(lower, s, former, title) == [s[0]] + Rewritten(lower, s[1..], former, title)
              && Hits(lower, Scan(s), former) == Hits(lower, Scan(s[1..]), former)
  {
    if LinkAt(s) {
      LinkFits(s);
    }
    hide Names, Retarget, LinkAt, Reach;
  }
}
