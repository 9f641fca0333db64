/** Whitespace, as string stripping sees it. */
module Text {

  /** The characters that stripping removes. */
  predicate IsSpace(c: char) {
    var n := c as int;
    9 <= n <= 13 || 28 <= n <= 32 || n == 133 || n == 160 || n == 5760 || 8192 <= n <= 8202
    || n == 8232 || n == 8233 || n == 8239 || n == 8287 || n == 12288
  }

  /** The code points of the characters that stripping removes, one by one. */
  const SPACES: set<int> := {9, 10, 11, 12, 13, 28, 29, 30, 31, 32, 133, 160, 5760, 8192, 8193, 8194, 8195, 8196, 8197, 8198, 8199, 8200, 8201,
                             8202, 8232, 8233, 8239, 8287, 12288}

  lemma SpacesAre(c: char)
    ensures IsSpace(c) <==> c as int in SPACES
  {
  }

  function StripLeft(s: string): string {
    if s != [] && IsSpace(s[0]) then StripLeft(s[1..]) else s
  }

  function StripRight(s: string): string {
    if s != [] && IsSpace(s[|s| - 1]) then StripRight(s[..|s| - 1]) else s
  }

  function Strip(s: string): string {
    StripRight(StripLeft(s))
  }

  /** The characters that are not whitespace, in order. */
  function Ink(s: string): string {
    if s == [] then [] else (if IsSpace(s[0]) then [] else [s[0]]) + Ink(s[1..])
  }

  lemma {:induction false} InkAppend(a: string, b: string)
    ensures Ink(a + b) == Ink(a) + Ink(b)
  {
    hide *;
    if a == [] {
      NoInk();
      assert a + b == b;
    } else {
      InkAppend(a[1..], b);
      InkCons(a[0], a[1..]);
      InkCons(a[0], a[1..] + b);
      assert a == [a[0]] + a[1..] && a + b == [a[0]] + (a[1..] + b);
    }
  }

  lemma NoInk()
    ensures Ink([]) == []
  {
  }

  lemma InkCons(c: char, s: string)
    ensures Ink([c] + s) == (if IsSpace(c) then [] else [c]) + Ink(s)
  {
    hide IsSpace;
    assert ([c] + s)[1..] == s;
  }

  lemma {:induction false} StripLeftInk(s: string)
    ensures Ink(StripLeft(s)) == Ink(s) && |StripLeft(s)| <= |s|
    ensures StripLeft(s) != [] ==> !IsSpace(StripLeft(s)[0])
  {
    hide IsSpace;
    if s != [] && IsSpace(s[0]) { StripLeftInk(s[1..]); }
  }

  lemma {:induction false} StripRightInk(s: string)
    ensures Ink(StripRight(s)) == Ink(s) && |StripRight(s)| <= |s|
    ensures StripRight(s) != [] ==> !IsSpace(StripRight(s)[|StripRight(s)| - 1]) && StripRight(s)[0] == s[0]
    decreases |s|
  {
    hide IsSpace, Ink;
    if s != [] && IsSpace(s[|s| - 1]) {
      StripRightInk(s[..|s| - 1]);
      InkLast(s);
    }
  }

  /** Trailing whitespace has no ink. */
  lemma InkLast(s: string)
    requires s != [] && IsSpace(s[|s| - 1])
    ensures Ink(s[..|s| - 1]) == Ink(s)
  {
    var last := [s[|s| - 1]];
    InkAppend(s[..|s| - 1], last);
    assert s == s[..|s| - 1] + last && last[1..] == [];
    assert Ink(last) == [];
    hide Ink, IsSpace;
  }

  /** Stripping loses no ink, and leaves ink at both ends. */
  lemma StripInk(s: string)
    ensures Ink(Strip(s)) == Ink(s) && |Strip(s)| <= |s|
    ensures Strip(s) != [] ==> !IsSpace(Strip(s)[0]) && !IsSpace(Strip(s)[|Strip(s)| - 1])
    ensures Strip(s) == [] <==> Ink(s) == []
  {
    StripLeftInk(s);
    StripRightInk(StripLeft(s));
    hide IsSpace, StripLeft, StripRight;
    if Strip(s) != [] { InkAppend([Strip(s)[0]], Strip(s)[1..]); }
  }
}
