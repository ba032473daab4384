/**
  A global patch where the template names the key but gives it no value: the match runs on to the
  next line that has any text and replaces that text. When this changes the AI slots, and a
  template that passes the check and yet makes a session name another AI.
*/
module Swallowing {
  import opened Sequences
  import opened Options
  import opened Text
  import opened Ini
  import opened GlobalPatch
  import opened SessionConfig

  // ---------------------------------------------------------------- the lines afterwards

  predicate AllOneLine(ls: seq<string>) {
    forall i :: 0 <= i < |ls| ==> OneLine(ls[i])
  }

  lemma FirstOf<T>(ls: seq<T>, more: seq<T>)
    requires ls != []
    ensures ls + more == [ls[0]] + (ls[1..] + more)
  {
  }

  function Tail(rest: seq<string>): string {
    if rest == [] then "" else "\n" + Join(rest)
  }

  lemma JoinTail(first: string, rest: seq<string>)
    ensures Join([first] + rest) == first + Tail(rest)
  {
    if rest == [] {
      assert [first] + rest == [first] && first + "" == first;
    } else {
      JoinFirst(first, rest);
      Regroup(first, "\n", Join(rest));
    }
  }

  lemma SubLinesFirst(key: string, value: string, ls: seq<string>)
    requires ls != []
    ensures SubLines(key, value, ls) != [] && SubLines(key, value, ls)[0] == Substitute(key, value, ls[0])
    ensures SubLines(key, value, ls)[1..] == SubLines(key, value, ls[1..])
  {
  }

  /** Tidy lines in front are patched line by line, whatever follows. */
  lemma {:induction false} SubAllInFront(key: string, value: string, front: seq<string>, text: string)
    requires CleanKey(key) && AllOneLine(front) && Tidy(key, front)
    ensures SubAll(key, value, Join(front + [text])) == Join(SubLines(key, value, front) + [SubAll(key, value, text)])
    decreases |front|
  {
    if front == [] {
      assert front + [text] == [text];
      assert SubLines(key, value, front) + [SubAll(key, value, text)] == [SubAll(key, value, text)];
    } else {
      var line, rest := front[0], front[1..] + [text];
      assert TidyLine(key, line) && OneLine(line);
      FirstOf(front, [text]);
      JoinFirst(line, rest);
      MatchStaysOnLine(key, line, Join(rest));
      FirstLine(key, value, line, Join(rest));
      SubAllInFront(key, value, front[1..], text);
      SubLinesFirst(key, value, front);
      FirstOf(SubLines(key, value, front), [SubAll(key, value, text)]);
      JoinFirst(Substitute(key, value, line), SubLines(key, value, front[1..]) + [SubAll(key, value, text)]);
    }
  }

  lemma {:induction false} FoundBehind(key: string, front: seq<string>, text: string)
    requires CleanKey(key) && AllOneLine(front) && Tidy(key, front) && FoundIn(key, text)
    ensures FoundIn(key, Join(front + [text]))
    decreases |front|
  {
    if front == [] {
      assert front + [text] == [text];
    } else {
      var line, rest := front[0], front[1..] + [text];
      assert TidyLine(key, line) && OneLine(line);
      assert front + [text] == [line] + rest;
      JoinFirst(line, rest);
      FoundBehind(key, front[1..], text);
      LineLengthOf(line, Join(rest));
      assert (line + "\n" + Join(rest))[|line| + 1..] == Join(rest);
    }
  }

  predicate AllBlank(ls: seq<string>) {
    forall i :: 0 <= i < |ls| ==> Blank(ls[i]) && OneLine(ls[i])
  }

  function Indent(line: string): string {
    line[..Leading(line)]
  }

  function Dedented(line: string): string {
    line[Leading(line)..]
  }

  lemma LeadingOfLine(line: string, rest: string)
    requires !Blank(line)
    ensures Leading(line + rest) == Leading(line) < |line|
  {
    assert line[..Leading(line)] + line[Leading(line)..] == line;
    LeadingStops(line, rest);
  }

  lemma IndentAhead(line: string, back: seq<string>)
    requires !Blank(line)
    ensures var before, after := Indent(line), Join([Dedented(line)] + back);
            before + after == Join([line] + back) && Leading(before + after) == |before| && Blank(before) && after != "" && !IsSpace(after[0])
  {
    JoinTail(line, back);
    JoinTail(Dedented(line), back);
    IndentedText(line, Tail(back));
  }

  lemma IndentedText(line: string, tail: string)
    requires !Blank(line)
    ensures Indent(line) + (Dedented(line) + tail) == line + tail && Leading(line + tail) == |Indent(line)| && Blank(Indent(line))
    ensures Dedented(line) != "" && !IsSpace(Dedented(line)[0])
  {
    LeadingOfLine(line, tail);
    assert line == Indent(line) + Dedented(line);
    Regroup(Indent(line), Dedented(line), tail);
  }

  lemma BlankLineAhead(line: string, before: string, after: string)
    requires Blank(line) && Blank(before) && after != "" && !IsSpace(after[0])
    ensures var b := line + "\n" + before; Blank(b) && b + after == line + "\n" + (before + after) && Leading(b + after) == |b|
  {
    LeadingOf(line + "\n" + before, after);
  }

  /** The whitespace in front of a text reaches over blank lines into the first other one. */
  lemma {:induction false} WhitespaceAhead(gap: seq<string>, line: string, back: seq<string>) returns (before: string, after: string)
    requires AllBlank(gap) && !Blank(line)
    ensures before + after == Join(gap + ([line] + back)) && Leading(before + after) == |before|
    ensures before == Join(gap + [Indent(line)]) && after == Join([Dedented(line)] + back)
    ensures after != "" && !IsSpace(after[0]) && Blank(before)
    decreases |gap|
  {
    if gap == [] {
      assert gap + ([line] + back) == [line] + back && gap + [Indent(line)] == [Indent(line)];
      before, after := Indent(line), Join([Dedented(line)] + back);
      IndentAhead(line, back);
    } else {
      var b, a := WhitespaceAhead(gap[1..], line, back);
      before, after := gap[0] + "\n" + b, a;
      FirstOf(gap, [line] + back);
      FirstOf(gap, [Indent(line)]);
      JoinFirst(gap[0], gap[1..] + ([line] + back));
      JoinFirst(gap[0], gap[1..] + [Indent(line)]);
      BlankLineAhead(gap[0], b, a);
    }
  }

  /** What follows a replaced text in a line, with tidy lines behind. */
  lemma FollowingLines(key: string, value: string, line: string, back: seq<string>)
    requires CleanKey(key) && OneLine(line) && AllOneLine(back) && Tidy(key, back)
    ensures var text := Join([line] + back);
            Following(key, value, text[LineLength(text)..]) == Tail(SubLines(key, value, back))
  {
    JoinTail(line, back);
    if back == [] {
      LineLengthOf(line, "");
    } else {
      LineLengthOf(line, Join(back));
      var text := line + "\n" + Join(back);
      assert text[|line|..] == "\n" + Join(back);
      assert text[|line|..][1..] == Join(back);
      SubAllIsLinewise(key, value, back);
    }
  }

  lemma Nested(a: string, b: string, c: string, d: string)
    ensures a + b + c + d == a + (b + (c + d))
  {
  }

  /** The lines from the one without a value on. */
  lemma SwallowedText(key: string, value: string, line: string, gap: seq<string>, swallowed: string, back: seq<string>)
    requires CleanKey(key) && LacksValue(key, line) && OneLine(line) && AllBlank(gap)
    requires !Blank(swallowed) && OneLine(swallowed) && AllOneLine(back) && Tidy(key, back)
    ensures var text := Join([line] + (gap + ([swallowed] + back)));
            && MatchLength(key, text) >= 0
            && SubAll(key, value, text)
               == line + "\n" + (Join(gap + [Indent(swallowed)]) + (value + Tail(SubLines(key, value, back))))
  {
    var before, after := WhitespaceAhead(gap, swallowed, back);
    var rest := Join(gap + ([swallowed] + back));
    JoinFirst(line, gap + ([swallowed] + back));
    SwallowsBreak(key, value, line, rest);
    MissingValueMatches(key, line, before, after);
    assert rest[..|before|] == before && rest[|before|..] == after;
    Regroup(line + "\n", before, after);
    FollowingLines(key, value, Dedented(swallowed), back);
    Nested(line + "\n", before, value, Tail(SubLines(key, value, back)));
  }

  lemma {:induction false} JoinEndsIn(ls: seq<string>, last: string, more: string, rest: seq<string>)
    ensures Join(ls + [last]) + (more + Tail(rest)) == Join(ls + ([last + more] + rest))
    decreases |ls|
  {
    if ls == [] {
      assert ls + [last] == [last] && ls + ([last + more] + rest) == [last + more] + rest;
      JoinTail(last + more, rest);
    } else {
      JoinEndsIn(ls[1..], last, more, rest);
      FirstOf(ls, [last]);
      FirstOf(ls, [last + more] + rest);
      JoinFirst(ls[0], ls[1..] + [last]);
      JoinFirst(ls[0], ls[1..] + ([last + more] + rest));
      assert ls[0] + "\n" + Join(ls[1..] + [last]) + (more + Tail(rest)) == ls[0] + "\n" + (Join(ls[1..] + [last]) + (more + Tail(rest)));
    }
  }

  /** A template whose only line that names the key without a value is followed, after blank lines, by another line. */
  datatype Gapped = Gapped(front: seq<string>, line: string, gap: seq<string>, swallowed: string, back: seq<string>) {
    function Lines(): seq<string> {
      front + ([line] + (gap + ([swallowed] + back)))
    }

    ghost predicate Fits(key: string) {
      && AllOneLine(front) && Tidy(key, front) && AllOneLine(back) && Tidy(key, back)
      && OneLine(line) && LacksValue(key, line) && AllBlank(gap) && OneLine(swallowed) && !Blank(swallowed)
    }

    /** The lines after the patch: the swallowed one keeps its indentation and takes the value. */
    function Patched(key: string, value: string): seq<string> {
      SubLines(key, value, front) + ([line] + (gap + ([Indent(swallowed) + value] + SubLines(key, value, back))))
    }
  }

  lemma {:induction false} SubLinesStayLines(key: string, value: string, ls: seq<string>)
    requires OneLine(value) && AllOneLine(ls)
    ensures AllOneLine(SubLines(key, value, ls))
    decreases |ls|
  {
    if ls != [] {
      SubstituteIsOneLine(key, value, ls[0]);
      SubLinesStayLines(key, value, ls[1..]);
    }
  }

  lemma {:induction false} JoinNested(front: seq<string>, more: seq<string>)
    requires more != []
    ensures Join(front + [Join(more)]) == Join(front + more)
    decreases |front|
  {
    if front == [] {
      assert front + [Join(more)] == [Join(more)] && front + more == more;
    } else {
      JoinNested(front[1..], more);
      assert front + [Join(more)] == [front[0]] + (front[1..] + [Join(more)]);
      assert front + more == [front[0]] + (front[1..] + more);
      JoinFirst(front[0], front[1..] + [Join(more)]);
      JoinFirst(front[0], front[1..] + more);
    }
  }

  lemma PatchedTail(key: string, value: string, t: Gapped)
    requires CleanKey(key) && t.Fits(key)
    ensures var text := Join([t.line] + (t.gap + ([t.swallowed] + t.back)));
            && FoundIn(key, text)
            && SubAll(key, value, text) == Join([t.line] + (t.gap + ([Indent(t.swallowed) + value] + SubLines(key, value, t.back))))
  {
    SwallowedText(key, value, t.line, t.gap, t.swallowed, t.back);
    JoinEndsIn(t.gap, Indent(t.swallowed), value, SubLines(key, value, t.back));
    JoinFirst(t.line, t.gap + ([Indent(t.swallowed) + value] + SubLines(key, value, t.back)));
  }

  /** What the patch makes of such a template. */
  lemma SwallowingPatch(key: string, value: string, t: Gapped)
    requires CleanKey(key) && CleanValue(value) && t.Fits(key)
    ensures Split(PatchGlobally(Join(t.Lines()), key, value)) == t.Patched(key, value)
  {
    var more := [t.line] + (t.gap + ([t.swallowed] + t.back));
    var after := [t.line] + (t.gap + ([Indent(t.swallowed) + value] + SubLines(key, value, t.back)));
    PatchedTail(key, value, t);
    SubAllInFront(key, value, t.front, Join(more));
    FoundBehind(key, t.front, Join(more));
    JoinNested(t.front, more);
    JoinNested(SubLines(key, value, t.front), after);
    PatchedAreLines(key, value, t);
    SplitJoin(t.Patched(key, value));
  }

  lemma PatchedAreLines(key: string, value: string, t: Gapped)
    requires OneLine(value) && t.Fits(key)
    ensures AreLines(t.Patched(key, value))
  {
    SubLinesStayLines(key, value, t.front);
    SubLinesStayLines(key, value, t.back);
    assert OneLine(Indent(t.swallowed) + value);
  }

  // ---------------------------------------------------------------- the slots afterwards

  /** Whether the AI section is open after these lines. */
  function Inside(ls: seq<string>, inside: bool): bool {
    if ls == [] then inside else Inside(ls[1..], if IsHeader(ls[0]) then Strip(ls[0]) == "[ai_players]" else inside)
  }

  lemma {:induction false} AiConcat(a: seq<string>, b: seq<string>, inside: bool)
    ensures AiPlayers(a + b, inside) == AiPlayers(a, inside) + AiPlayers(b, Inside(a, inside))
    decreases |a|
  {
    if a == [] {
      assert a + b == b;
    } else {
      var next := if IsHeader(a[0]) then Strip(a[0]) == "[ai_players]" else inside;
      assert a + b == [a[0]] + (a[1..] + b);
      AiLine(a[0], a[1..] + b, inside);
      AiConcat(a[1..], b, next);
      Regroup(if inside then AiNamed(a[0]) else [], AiPlayers(a[1..], next), AiPlayers(b, Inside(a, inside)));
    }
  }

  /** The names before the first header. */
  function NamedAtOnce(ls: seq<string>): seq<string> {
    if ls == [] || IsHeader(ls[0]) then [] else AiNamed(ls[0]) + NamedAtOnce(ls[1..])
  }

  /** What an open AI section adds to the slots. */
  lemma {:induction false} OpenSectionAdds(ls: seq<string>)
    ensures AiPlayers(ls, true) == NamedAtOnce(ls) + AiPlayers(ls, false)
    decreases |ls|
  {
    if ls != [] && !IsHeader(ls[0]) {
      OpenSectionAdds(ls[1..]);
      assert AiPlayers(ls, false) == [] + AiPlayers(ls[1..], false) == AiPlayers(ls[1..], false);
      Regroup(AiNamed(ls[0]), NamedAtOnce(ls[1..]), AiPlayers(ls[1..], false));
    }
  }

  /**
    A line makes no difference to the slots: a header, unless it opens or closes the AI section and
    names stand right behind it; another line, unless it names an AI inside the section.
  */
  predicate MakesNoDifference(line: string, inside: bool, back: seq<string>) {
    if IsHeader(line) then (Strip(line) == "[ai_players]") == inside || NamedAtOnce(back) == []
    else !inside || AiNamed(line) == []
  }

  lemma DifferenceOfLine(line: string, inside: bool, back: seq<string>)
    ensures AiPlayers([line] + back, inside) == AiPlayers(back, inside) <==> MakesNoDifference(line, inside, back)
  {
    AiLine(line, back, inside);
    OpenSectionAdds(back);
    var named := if inside then AiNamed(line) else [];
    assert |named + AiPlayers(back, inside)| == |named| + |AiPlayers(back, inside)|;
    assert NamedAtOnce(back) == [] ==> NamedAtOnce(back) + AiPlayers(back, false) == AiPlayers(back, false);
    assert named == [] ==> named + AiPlayers(back, inside) == AiPlayers(back, inside);
    assert |NamedAtOnce(back) + AiPlayers(back, false)| == |NamedAtOnce(back)| + |AiPlayers(back, false)|;
  }

  lemma {:induction false} SubLinesKeepInside(key: string, value: string, ls: seq<string>, inside: bool)
    requires PlainKey(key) && CleanValue(value)
    ensures Inside(SubLines(key, value, ls), inside) == Inside(ls, inside)
    decreases |ls|
  {
    if ls != [] {
      if MatchLength(key, ls[0]) >= 0 {
        SubstituteNamesNoAi(key, value, ls[0]);
      }
      SubLinesKeepInside(key, value, ls[1..], if IsHeader(ls[0]) then Strip(ls[0]) == "[ai_players]" else inside);
    }
  }

  lemma {:induction false} BlankLinesSayNothing(gap: seq<string>, back: seq<string>, inside: bool)
    requires AllBlank(gap)
    ensures AiPlayers(gap + back, inside) == AiPlayers(back, inside)
    decreases |gap|
  {
    if gap == [] {
      assert gap + back == back;
    } else {
      assert gap + back == [gap[0]] + (gap[1..] + back);
      BlankStrips(gap[0]);
      AiLine(gap[0], gap[1..] + back, inside);
      BlankLinesSayNothing(gap[1..], back, inside);
    }
  }

  lemma BlankStrips(line: string)
    requires Blank(line)
    ensures Strip(line) == ""
  {
    StripOf(line, "", "");
    assert line + "" + "" == line;
  }

  /** The slots of such lines: those in front, and those from the swallowed line on. */
  lemma SlotsAround(key: string, front: seq<string>, line: string, gap: seq<string>, rest: seq<string>)
    requires PlainKey(key) && MatchLength(key, line) >= 0 && AllBlank(gap)
    ensures AiPlayers(front + ([line] + (gap + rest)), false)
            == AiPlayers(front, false) + AiPlayers(rest, Inside(front, false))
  {
    var inside := Inside(front, false);
    AiConcat(front, [line] + (gap + rest), false);
    AiLine(line, gap + rest, inside);
    SubstituteNamesNoAi(key, "", line);
    assert (if inside then AiNamed(line) else []) + AiPlayers(gap + rest, inside) == AiPlayers(gap + rest, inside);
    BlankLinesSayNothing(gap, rest, inside);
  }

  lemma SlotsBefore(key: string, t: Gapped)
    requires PlainKey(key) && t.Fits(key)
    ensures Slots(Join(t.Lines())) == AiPlayers(t.front, false) + AiPlayers([t.swallowed] + t.back, Inside(t.front, false))
  {
    SplitJoin(t.Lines());
    SlotsAround(key, t.front, t.line, t.gap, [t.swallowed] + t.back);
  }

  /** A value that, standing alone, is neither a header nor the name of an AI. */
  predicate NamesNothing(value: string) {
    CleanValue(value) && !IsHeader(value) && AiNamed(value) == []
  }

  lemma SlotsAfter(key: string, value: string, t: Gapped)
    requires PlainKey(key) && NamesNothing(value) && t.Fits(key)
    ensures Slots(PatchGlobally(Join(t.Lines()), key, value)) == AiPlayers(t.front, false) + AiPlayers(t.back, Inside(t.front, false))
  {
    var front, line, back, inside := SubLines(key, value, t.front), Indent(t.swallowed) + value, SubLines(key, value, t.back), Inside(t.front, false);
    SwallowingPatch(key, value, t);
    SlotsAround(key, front, t.line, t.gap, [line] + back);
    SubLinesKeepAi(t.front, false, key, value);
    SubLinesKeepInside(key, value, t.front, false);
    StripOf(Indent(t.swallowed), value, "");
    assert Indent(t.swallowed) + value + "" == line;
    SameWhenStripped(line, value);
    AiLine(line, back, inside);
    assert (if inside then AiNamed(line) else []) + AiPlayers(back, inside) == AiPlayers(back, inside);
    SubLinesKeepAi(t.back, inside, key, value);
  }

  lemma SameWhenStripped(line: string, value: string)
    requires Strip(line) == value && Trimmed(value)
    ensures IsHeader(line) == IsHeader(value) && AiNamed(line) == AiNamed(value)
  {
    StripOf("", value, "");
    assert "" + value + "" == value;
  }

  /** The patch keeps the AI slots exactly when the line it swallows made no difference to them. */
  lemma SwallowingKeepsSlotsIff(key: string, value: string, t: Gapped)
    requires PlainKey(key) && NamesNothing(value) && t.Fits(key)
    ensures Slots(PatchGlobally(Join(t.Lines()), key, value)) == Slots(Join(t.Lines()))
            <==> MakesNoDifference(t.swallowed, Inside(t.front, false), t.back)
  {
    var inside := Inside(t.front, false);
    SlotsBefore(key, t);
    SlotsAfter(key, value, t);
    DifferenceOfLine(t.swallowed, inside, t.back);
    SameBehind(AiPlayers(t.front, false), AiPlayers(t.back, inside), AiPlayers([t.swallowed] + t.back, inside));
  }

  lemma SameBehind(front: seq<string>, a: seq<string>, b: seq<string>)
    ensures front + a == front + b <==> a == b
  {
    assert (front + a)[|front|..] == a && (front + b)[|front|..] == b;
  }

  // ---------------------------------------------------------------- a template that gets another AI in

  /** The AI section has no slots, and is closed by the header that the port is written over. */
  function Template(name: string): Gapped {
    Gapped(["[ai_players]"], "server_port =", [], "[other]", ["\"" + name + "\" = 1"])
  }

  lemma {:induction false} QuoteAfter(s: string, from: nat, to: nat)
    requires from <= to < |s| && s[to] == '"' && forall i :: from <= i < to ==> s[i] != '"'
    ensures QuoteAt(s, from) == to
    decreases |s| - from
  {
    if from < to {
      QuoteAfter(s, from + 1, to);
    }
  }

  lemma SlotIsTrimmed(line: string)
    requires line != "" && line[0] == '"' && line[|line| - 1] == '1'
    ensures Strip(line) == line
  {
    StripOf("", line, "");
    assert "" + line + "" == line;
  }

  lemma SlotNames(name: string)
    requires name != "" && '"' !in name && OneLine(name)
    ensures var line := "\"" + name + "\" = 1"; AiNamed(line) == [name] && !IsHeader(line) && OneLine(line)
  {
    var line := "\"" + name + "\" = 1";
    SlotIsTrimmed(line);
    assert line[|name| + 1] == '"' && line[1..|name| + 1] == name;
    QuoteAfter(line, 1, |name| + 1);
  }

  lemma BracketsStrip(line: string)
    requires line != "" && line[0] == '[' && line[|line| - 1] == ']'
    ensures Strip(line) == line && IsHeader(line) && !Blank(line)
  {
    StripOf("", line, "");
    assert "" + line + "" == line;
    assert !IsSpace(line[0]);
  }

  lemma LiteralHeaders()
    ensures Strip("[ai_players]") == "[ai_players]" && Strip("[other]") == "[other]"
    ensures IsHeader("[ai_players]") && IsHeader("[other]") && !Blank("[other]")
    ensures |"[other]"| < |"[ai_players]"| && OneLine("[ai_players]") && OneLine("[other]")
  {
    BracketsStrip("[ai_players]");
    BracketsStrip("[other]");
  }

  lemma PortLineLacksValue()
    ensures PlainKey("server_port") && LacksValue("server_port", "server_port =") && OneLine("server_port =")
  {
    var key, line := "server_port", "server_port =";
    assert key[0] == 's' && key[10] == 't' && !IsSpace('s') && !IsSpace('t');
    assert line == key + " " + "=" + "";
    assert Blank(" ");
    MatchOf(key, " ", "");
    assert line == Assigned(key, " ", "");
  }

  lemma OtherLinesAreTidy(key: string, line: string, i: nat)
    requires i < |key| && (i < |line| ==> line[i] != key[i])
    ensures TidyLine(key, line)
  {
  }

  ghost predicate IsName(name: string) {
    name != "" && '"' !in name && OneLine(name)
  }

  lemma FourLinesFit(key: string, open: string, line: string, other: string, slot: string)
    requires TidyLine(key, open) && OneLine(open) && OneLine(line) && LacksValue(key, line)
    requires OneLine(other) && !Blank(other) && TidyLine(key, slot) && OneLine(slot)
    ensures Gapped([open], line, [], other, [slot]).Fits(key)
  {
  }

  lemma TemplateFits(name: string)
    requires IsName(name)
    ensures Template(name).Fits("server_port")
  {
    var slot := "\"" + name + "\" = 1";
    PortLineLacksValue();
    LiteralHeaders();
    SlotNames(name);
    PortKeyStarts();
    OtherLinesAreTidy("server_port", "[ai_players]", 0);
    OtherLinesAreTidy("server_port", slot, 0);
    FourLinesFit("server_port", "[ai_players]", "server_port =", "[other]", slot);
  }

  lemma PortKeyStarts()
    ensures "server_port"[0] == 's' && "[ai_players]"[0] == '[' && "[other]"[0] == '['
  {
  }

  lemma SlotSectionOf(opens: string, closes: string, slot: string, name: string)
    requires IsHeader(opens) && Strip(opens) == "[ai_players]" && IsHeader(closes) && Strip(closes) != "[ai_players]"
    requires !IsHeader(slot) && AiNamed(slot) == [name]
    ensures Inside([opens], false) && AiPlayers([opens], false) == []
    ensures AiPlayers([closes] + [slot], true) == [] && AiPlayers([slot], true) == [name]
  {
    assert [opens] == [opens] + [] && [slot] == [slot] + [];
    AiLine(opens, [], false);
    AiLine(closes, [slot], true);
    AiLine(slot, [], false);
    AiLine(slot, [], true);
    assert [opens][1..] == [];
  }

  lemma SlotSection(name: string)
    requires IsName(name)
    ensures var t := Template(name);
            && Inside(t.front, false) && AiPlayers(t.front, false) == []
            && AiPlayers([t.swallowed] + t.back, true) == [] && AiPlayers(t.back, true) == [name]
  {
    LiteralHeaders();
    SlotNames(name);
    SlotSectionOf("[ai_players]", "[other]", "\"" + name + "\" = 1", name);
  }

  predicate IsPort(port: string) {
    port != "" && forall i :: 0 <= i < |port| ==> '0' <= port[i] <= '9'
  }

  lemma PortNamesNothing(port: string)
    requires IsPort(port)
    ensures NamesNothing(port)
  {
    StripOf("", port, "");
    assert "" + port + "" == port;
  }

  /** The template passes the check; with the game port patched in it names the AI. */
  lemma PortPatchOpensSection(name: string, port: string)
    requires IsName(name) && IsPort(port)
    ensures var content := Join(Template(name).Lines());
            && OnlyIdle(content) && Slots(content) == []
            && Slots(PatchGlobally(content, "server_port", port)) == [name]
            && Split(PatchGlobally(content, "server_port", port)) == Template(name).Patched("server_port", port)
  {
    TemplateFits(name);
    PortLineLacksValue();
    PortNamesNothing(port);
    SlotSection(name);
    SlotsBefore("server_port", Template(name));
    SlotsAfter("server_port", port, Template(name));
    SwallowingPatch("server_port", port, Template(name));
  }

  lemma UnmatchedLine(key: string, value: string, line: string)
    requires MatchLength(key, line) < 0
    ensures SubLines(key, value, [line]) == [line]
  {
    assert SubLines(key, value, [line][1..]) == [];
  }

  lemma MismatchAtOnce(key: string, line: string)
    requires key != "" && line != "" && key[0] != line[0]
    ensures MatchLength(key, line) < 0
  {
  }

  lemma PatchedTemplate(name: string, port: string)
    requires IsName(name)
    ensures Template(name).Patched("server_port", port) == ["[ai_players]"] + (["server_port ="] + ([] + ([port] + ["\"" + name + "\" = 1"])))
  {
    var slot := "\"" + name + "\" = 1";
    assert "server_port"[0] == 's' && "[ai_players]"[0] == '[' && slot[0] == '"' && "[other]"[0] == '[' && !IsSpace('[');
    MismatchAtOnce("server_port", "[ai_players]");
    MismatchAtOnce("server_port", slot);
    UnmatchedLine("server_port", port, "[ai_players]");
    UnmatchedLine("server_port", port, slot);
    assert Indent("[other]") == "" && "" + port == port;
  }

  lemma FourTidyLines(key: string, a: string, b: string, c: string, d: string)
    requires TidyLine(key, a) && TidyLine(key, b) && TidyLine(key, c) && TidyLine(key, d)
    ensures Tidy(key, [a] + ([b] + ([] + ([c] + [d]))))
  {
    assert [a] + ([b] + ([] + ([c] + [d]))) == [a, b, c, d];
  }

  lemma PatchedTemplateIsTidy(name: string, port: string)
    requires IsName(name) && IsPort(port)
    ensures Tidy("server_admin_port", Template(name).Patched("server_port", port))
  {
    var key, slot := "server_admin_port", "\"" + name + "\" = 1";
    PatchedTemplate(name, port);
    assert key[0] == 's' && key[7] == 'a' && "server_port ="[7] == 'p' && "[ai_players]"[0] == '[' && slot[0] == '"';
    OtherLinesAreTidy(key, "[ai_players]", 0);
    OtherLinesAreTidy(key, "server_port =", 7);
    OtherLinesAreTidy(key, port, 0);
    OtherLinesAreTidy(key, slot, 0);
    FourTidyLines(key, "[ai_players]", "server_port =", port, slot);
  }

  /**
    For every name there is a template that the check lets through, since it names no AI, and that
    any two ports turn into a session's file that names this one.
  */
  lemma CheckedTemplateCanNameAnAi(name: string, r: Request)
    requires IsName(name) && IsPort(r.gamePort) && IsPort(r.adminPort) && r.settings == [] && r.slots == None && r.saves
    ensures OnlyIdle(Join(Template(name).Lines())) && Slots(Built(Join(Template(name).Lines()), r)) == [name]
  {
    var content := Join(Template(name).Lines());
    PortPatchOpensSection(name, r.gamePort);
    PatchedTemplateIsTidy(name, r.gamePort);
    PortNamesNothing(r.adminPort);
    AdminPortKeepsSlots(PatchGlobally(content, "server_port", r.gamePort), r.adminPort);
    OnlyPorts(content, r);
  }

  lemma AdminPortKeepsSlots(content: string, port: string)
    requires CleanValue(port) && Tidy("server_admin_port", Split(content))
    ensures Slots(PatchGlobally(content, "server_admin_port", port)) == Slots(content)
  {
    GlobalKeysAreClean();
    GlobalPatchKeepsAi(content, "server_admin_port", port);
  }

  lemma OnlyPorts(content: string, r: Request)
    requires r.settings == [] && r.slots == None && r.saves
    ensures Built(content, r) == PatchGlobally(PatchGlobally(content, "server_port", r.gamePort), "server_admin_port", r.adminPort)
  {
  }
}
