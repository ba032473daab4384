/** Lines and whitespace, as Python's string methods and regular expressions see them. */
module Text {

  /** The characters that `str.isspace`, `str.strip` and `\s` agree on. */
  predicate IsSpace(c: char) {
    || '\t' <= c <= '\r' || '\U{1c}' <= c <= ' ' || c == '\U{85}' || c == '\U{a0}'
    || c == '\U{1680}' || '\U{2000}' <= c <= '\U{200a}' || c == '\U{2028}' || c == '\U{2029}'
    || c == '\U{202f}' || c == '\U{205f}' || c == '\U{3000}'
  }

  predicate Blank(s: string) {
    forall i :: 0 <= i < |s| ==> IsSpace(s[i])
  }

  /** How many whitespace characters the text begins with. */
  function Leading(s: string): (n: nat)
    ensures n <= |s| && Blank(s[..n]) && (n < |s| ==> !IsSpace(s[n]))
  {
    if s == "" || !IsSpace(s[0]) then 0
    else
      var n := 1 + Leading(s[1..]);
      assert s[..n] == [s[0]] + s[1..][..n - 1];
      n
  }

  function TrimLeft(s: string): string {
    s[Leading(s)..]
  }

  function TrimRight(s: string): (t: string)
    ensures t <= s && Blank(s[|t|..]) && (t != "" ==> !IsSpace(t[|t| - 1]))
  {
    if s == "" || !IsSpace(s[|s| - 1]) then s
    else
      var t := TrimRight(s[..|s| - 1]);
      assert s[|t|..] == s[..|s| - 1][|t|..] + [s[|s| - 1]];
      t
  }

  function Strip(s: string): string {
    TrimRight(TrimLeft(s))
  }

  /** Neither end is whitespace. */
  predicate Trimmed(s: string) {
    s == "" || (!IsSpace(s[0]) && !IsSpace(s[|s| - 1]))
  }

  lemma {:induction false} LeadingOf(blank: string, s: string)
    requires Blank(blank) && (s == "" || !IsSpace(s[0]))
    ensures Leading(blank + s) == |blank|
    decreases |blank|
  {
    if blank == "" {
      assert blank + s == s;
    } else {
      assert (blank + s)[1..] == blank[1..] + s;
      LeadingOf(blank[1..], s);
    }
  }

  lemma {:induction false} TrimRightOf(s: string, blank: string)
    requires Blank(blank) && (s == "" || !IsSpace(s[|s| - 1]))
    ensures TrimRight(s + blank) == s
    decreases |blank|
  {
    if blank == "" {
      assert s + blank == s;
    } else {
      assert (s + blank)[..|s + blank| - 1] == s + blank[..|blank| - 1];
      TrimRightOf(s, blank[..|blank| - 1]);
    }
  }

  /** Stripping removes surrounding whitespace and nothing else. */
  lemma StripOf(before: string, s: string, after: string)
    requires Blank(before) && Trimmed(s) && Blank(after)
    ensures Strip(before + s + after) == s
  {
    if s == "" {
      assert Blank(before + s + after);
      var all := before + s + after;
      LeadingOf(all, "");
      assert all + "" == all;
    } else {
      assert before + s + after == before + (s + after);
      LeadingOf(before, s + after);
      assert TrimLeft(before + s + after) == s + after;
      TrimRightOf(s, after);
    }
  }

  /** Any text is whitespace, its stripped form, and whitespace. */
  lemma StripParts(s: string) returns (before: string, after: string)
    ensures s == before + Strip(s) + after && Blank(before) && Blank(after) && Trimmed(Strip(s))
    ensures before == s[..Leading(s)]
  {
    before := s[..Leading(s)];
    var t := TrimLeft(s);
    after := t[|TrimRight(t)|..];
    TrimRightIsFront(t);
    Glue(before, TrimRight(t), after, t, s);
  }

  lemma TrimRightIsFront(t: string)
    requires t == "" || !IsSpace(t[0])
    ensures t == TrimRight(t) + t[|TrimRight(t)|..] && Blank(t[|TrimRight(t)|..]) && Trimmed(TrimRight(t))
  {
  }

  lemma Glue(a: string, b: string, c: string, t: string, s: string)
    requires t == b + c && a <= s && t == s[|a|..]
    ensures s == a + b + c
  {
  }

  // ---------------------------------------------------------------- lines

  predicate OneLine(s: string) {
    '\n' !in s
  }

  predicate AreLines(ls: seq<string>) {
    |ls| >= 1 && forall i :: 0 <= i < |ls| ==> OneLine(ls[i])
  }

  /** Length of the first line. */
  function LineLength(s: string): (n: nat)
    ensures n <= |s| && OneLine(s[..n]) && (n < |s| ==> s[n] == '\n')
  {
    if s == "" || s[0] == '\n' then 0
    else
      var n := 1 + LineLength(s[1..]);
      assert s[..n] == [s[0]] + s[1..][..n - 1];
      n
  }

  function Split(s: string): (ls: seq<string>)
    ensures AreLines(ls)
    decreases |s|
  {
    var n := LineLength(s);
    if n == |s| then
      assert s[..n] == s;
      [s]
    else
      [s[..n]] + Split(s[n + 1..])
  }

  function Join(ls: seq<string>): string {
    if ls == [] then "" else if |ls| == 1 then ls[0] else ls[0] + "\n" + Join(ls[1..])
  }

  lemma {:induction false} LineLengthOf(line: string, rest: string)
    requires OneLine(line)
    ensures LineLength(line) == |line|
    ensures LineLength(line + "\n" + rest) == |line|
    decreases |line|
  {
    if line != "" {
      LineLengthOf(line[1..], rest);
      assert line[0] in line;
      assert (line + "\n" + rest)[1..] == line[1..] + "\n" + rest;
    }
  }

  lemma {:induction false} SplitJoin(ls: seq<string>)
    requires AreLines(ls)
    ensures Split(Join(ls)) == ls
    decreases |ls|
  {
    if |ls| == 1 {
      LineLengthOf(ls[0], "");
    } else {
      LineLengthOf(ls[0], Join(ls[1..]));
      var s := Join(ls);
      assert s[..|ls[0]|] == ls[0];
      assert s[|ls[0]| + 1..] == Join(ls[1..]);
      SplitJoin(ls[1..]);
    }
  }

  lemma JoinFirst(line: string, ls: seq<string>)
    requires ls != []
    ensures Join([line] + ls) == line + "\n" + Join(ls)
  {
    assert ([line] + ls)[1..] == ls;
  }

  lemma {:induction false} JoinSplit(s: string)
    ensures Join(Split(s)) == s
    decreases |s|
  {
    var n := LineLength(s);
    if n < |s| {
      JoinSplit(s[n + 1..]);
      JoinFirst(s[..n], Split(s[n + 1..]));
      assert s == s[..n] + "\n" + s[n + 1..];
    } else {
      assert s[..n] == s;
    }
  }

  lemma {:induction false} JoinConcat(a: seq<string>, b: seq<string>)
    requires a != [] && b != []
    ensures Join(a + b) == Join(a) + "\n" + Join(b)
    decreases |a|
  {
    if |a| == 1 {
      assert (a + b)[1..] == b;
    } else {
      assert (a + b)[1..] == a[1..] + b;
      JoinConcat(a[1..], b);
      assert Join(a) == a[0] + "\n" + Join(a[1..]);
    }
  }
}
