/**
  Patching a key without a section: a regular expression over the whole text. Its whitespace
  classes also match line breaks, so it is a line-by-line substitution only where every line that
  it matches has a value of its own.
*/
module GlobalPatch {
  import opened Sequences
  import opened Text
  import opened Ini

  /** The first line's replacement: the match and the value, or the line as it is. */
  function Head(key: string, value: string, s: string): string {
    if MatchLength(key, s) >= 0 then s[..MatchLength(key, s)] + value else s[..LineLength(s)]
  }

  /** Where the replaced line, which a match may have moved further down, ends. */
  function HeadEnd(key: string, s: string): (n: nat)
    ensures n <= |s|
  {
    var done := if MatchLength(key, s) >= 0 then MatchLength(key, s) else 0;
    done + LineLength(s[done..])
  }

  /** Substitutes at every line start of `s` that matches; a match may run over line breaks. */
  function SubAll(key: string, value: string, s: string): string
    decreases |s|, 1
  {
    Head(key, value, s) + Following(key, value, s[HeadEnd(key, s)..])
  }

  /** What follows the replaced part of a text. */
  function Following(key: string, value: string, tail: string): string
    decreases |tail|, 0
  {
    if tail == "" then "" else "\n" + SubAll(key, value, tail[1..])
  }

  predicate FoundIn(key: string, s: string)
    decreases |s|
  {
    MatchLength(key, s) >= 0
    || (LineLength(s) < |s| && FoundIn(key, s[LineLength(s) + 1..]))
  }

  function PatchGlobally(content: string, key: string, value: string): string {
    if FoundIn(key, content) then SubAll(key, value, content)
    else content + "\n" + KeyValue(key, value) + "\n"
  }

  // ---------------------------------------------------------------- where it works line by line

  /** A line that names the key has a value after its `=`, and no line is the bare key. */
  predicate TidyLine(key: string, line: string) {
    && (MatchLength(key, line) >= 0 ==> MatchLength(key, line) < |line|)
    && (key <= line ==> !Blank(line[|key|..]))
  }

  predicate Tidy(key: string, ls: seq<string>) {
    forall i :: 0 <= i < |ls| ==> TidyLine(key, ls[i])
  }

  function SubLines(key: string, value: string, ls: seq<string>): seq<string> {
    if ls == [] then [] else [Substitute(key, value, ls[0])] + SubLines(key, value, ls[1..])
  }

  lemma LeadingStops(t: string, more: string)
    requires !Blank(t)
    ensures Leading(t + more) == Leading(t) < |t|
    decreases |t|
  {
    if IsSpace(t[0]) {
      assert (t + more)[1..] == t[1..] + more;
      assert !Blank(t[1..]);
      LeadingStops(t[1..], more);
    }
  }

  lemma MismatchStaysOnLine(key: string, line: string, rest: string)
    requires CleanKey(key) && TidyLine(key, line) && MatchLength(key, line) < 0
    ensures MatchLength(key, line + "\n" + rest) < 0
  {
    KeyEndsOnLine(key, line, rest);
    if key <= line {
      var t := line[|key|..];
      assert (line + "\n" + rest)[|key|..] == t + ("\n" + rest);
      LeadingStops(t, "\n" + rest);
    }
  }

  /** On a tidy line the match does not look past the line's end. */
  lemma MatchStaysOnLine(key: string, line: string, rest: string)
    requires CleanKey(key) && TidyLine(key, line)
    ensures MatchLength(key, line + "\n" + rest) == MatchLength(key, line)
  {
    if MatchLength(key, line) >= 0 {
      var w, v, text := MatchParts(key, line);
      MatchOf(key, w, v + text);
      LeadingOf(v, text);
      AssignedConcat(key, w, v + text, "\n" + rest);
      Regroup(line, "\n", rest);
      Regroup(v, text, "\n" + rest);
      MatchOf(key, w, v + (text + ("\n" + rest)));
      assert text != "";
      LeadingOf(v, text + ("\n" + rest));
    } else {
      MismatchStaysOnLine(key, line, rest);
    }
  }

  lemma {:induction false} KeyEndsOnLine(key: string, line: string, rest: string)
    requires OneLine(key)
    ensures key <= line + "\n" + rest ==> key <= line
    decreases |key|
  {
    var s := line + "\n" + rest;
    if key != "" && line != "" && key[0] == line[0] {
      assert s[1..] == line[1..] + "\n" + rest;
      KeyEndsOnLine(key[1..], line[1..], rest);
      assert key <= s ==> key[1..] <= s[1..];
      assert key == [key[0]] + key[1..] && line == [line[0]] + line[1..];
    } else if key != "" {
      assert key[0] in key;
    }
  }

  /** On tidy lines the substitution goes line by line. */
  lemma {:induction false} SubAllIsLinewise(key: string, value: string, ls: seq<string>)
    requires CleanKey(key) && AreLines(ls) && Tidy(key, ls)
    ensures SubAll(key, value, Join(ls)) == Join(SubLines(key, value, ls))
    decreases |ls|
  {
    var line := ls[0];
    var m := MatchLength(key, line);
    assert TidyLine(key, line);
    if |ls| == 1 {
      SubLastLine(key, value, line);
      assert SubLines(key, value, ls) == [Substitute(key, value, line)];
    } else {
      var rest := Join(ls[1..]);
      MatchStaysOnLine(key, line, rest);
      FirstLine(key, value, line, rest);
      SubAllIsLinewise(key, value, ls[1..]);
      assert SubLines(key, value, ls)[1..] == SubLines(key, value, ls[1..]);
    }
  }

  lemma SubLastLine(key: string, value: string, line: string)
    requires OneLine(line)
    ensures SubAll(key, value, line) == Substitute(key, value, line)
  {
    LineLengthOf(line, "");
    var m := MatchLength(key, line);
    if m >= 0 {
      assert OneLine(line[m..]);
      LineLengthOf(line[m..], "");
    }
  }

  lemma SlicesOfConcat(line: string, more: string, m: nat)
    requires m <= |line|
    ensures (line + more)[..m] == line[..m] && (line + more)[m..] == line[m..] + more
  {
  }

  lemma HeadOfLine(key: string, value: string, line: string, rest: string)
    requires OneLine(line) && MatchLength(key, line + "\n" + rest) == MatchLength(key, line)
    ensures Head(key, value, line + "\n" + rest) == Substitute(key, value, line)
    ensures HeadEnd(key, line + "\n" + rest) == |line|
  {
    var m := if MatchLength(key, line) >= 0 then MatchLength(key, line) else 0;
    Regroup(line, "\n", rest);
    SlicesOfConcat(line, "\n" + rest, m);
    SlicesOfConcat(line, "\n" + rest, |line|);
    LineLengthOf(line, rest);
    TailIsOneLine(line, m);
    LineLengthOf(line[m..], rest);
    Regroup(line[m..], "\n", rest);
    assert line[..|line|] == line;
  }

  lemma TailIsOneLine(line: string, m: nat)
    requires OneLine(line) && m <= |line|
    ensures OneLine(line[m..])
  {
  }

  lemma FirstLine(key: string, value: string, line: string, rest: string)
    requires OneLine(line) && MatchLength(key, line + "\n" + rest) == MatchLength(key, line)
    ensures SubAll(key, value, line + "\n" + rest) == Substitute(key, value, line) + "\n" + SubAll(key, value, rest)
  {
    HeadOfLine(key, value, line, rest);
    var tail := "\n" + rest;
    assert (line + "\n" + rest)[|line|..] == tail;
    assert tail[1..] == rest;
    Regroup(Substitute(key, value, line), "\n", SubAll(key, value, rest));
  }

  /** The first matching lines are found where they are. */
  lemma {:induction false} FoundIsLinewise(key: string, ls: seq<string>)
    requires CleanKey(key) && AreLines(ls) && Tidy(key, ls)
    ensures FoundIn(key, Join(ls)) <==> exists i :: 0 <= i < |ls| && MatchLength(key, ls[i]) >= 0
    decreases |ls|
  {
    var line := ls[0];
    assert TidyLine(key, line);
    if |ls| == 1 {
      LineLengthOf(line, "");
    } else {
      var rest := Join(ls[1..]);
      MatchStaysOnLine(key, line, rest);
      LineLengthOf(line, rest);
      assert (line + "\n" + rest)[|line| + 1..] == rest;
      FoundIsLinewise(key, ls[1..]);
      assert forall i :: 0 <= i < |ls[1..]| ==> ls[1..][i] == ls[i + 1];
    }
  }

  // ---------------------------------------------------------------- where it does not

  /** The value part of a line that matches is missing. */
  predicate LacksValue(key: string, line: string) {
    MatchLength(key, line) == |line|
  }

  /**
    A line followed by others is patched as a line if and only if it has a value to replace. If it
    has none, the match runs on over the line break, the line keeps its missing value, and the text
    of the next line that has any is replaced.
  */
  lemma PatchesLineIffValued(key: string, value: string, line: string, rest: string)
    requires CleanKey(key) && CleanValue(value) && value != "" && OneLine(line) && MatchLength(key, line) >= 0
    ensures Split(SubAll(key, value, line + "\n" + rest))[0] == Substitute(key, value, line) <==> !LacksValue(key, line)
    ensures LacksValue(key, line) ==>
              SubAll(key, value, line + "\n" + rest)
              == line + "\n" + rest[..Leading(rest)] + value
                 + Following(key, value, rest[Leading(rest)..][LineLength(rest[Leading(rest)..])..])
  {
    if LacksValue(key, line) {
      SwallowsBreak(key, value, line, rest);
      KeepsMissingValue(key, value, line, rest[..Leading(rest)],
                        Following(key, value, rest[Leading(rest)..][LineLength(rest[Leading(rest)..])..]));
    } else {
      ValuedLineIsTidy(key, line);
      MatchStaysOnLine(key, line, rest);
      FirstLine(key, value, line, rest);
      SubstituteIsOneLine(key, value, line);
      FirstOfSplit(Substitute(key, value, line), SubAll(key, value, rest));
    }
  }

  lemma ValuedLineIsTidy(key: string, line: string)
    requires CleanKey(key) && 0 <= MatchLength(key, line) < |line|
    ensures TidyLine(key, line)
  {
    var w, u := MatchHead(key, line);
    assert line[|key|..][|w|] == '=';
  }

  lemma SubAllAtMatch(key: string, value: string, front: string, after: string)
    requires MatchLength(key, front + after) == |front|
    ensures SubAll(key, value, front + after) == front + value + Following(key, value, after[LineLength(after)..])
  {
    var s := front + after;
    assert s[..|front|] == front && s[|front|..] == after;
    assert s[HeadEnd(key, s)..] == after[LineLength(after)..];
  }

  lemma MatchRunsOver(key: string, w: string, v: string, gap: string, after: string)
    requires Blank(w) && Blank(v) && Blank(gap) && (after == "" || !IsSpace(after[0]))
    ensures MatchLength(key, (Assigned(key, w, v) + gap) + after) == |Assigned(key, w, v) + gap|
  {
    AssignedConcat(key, w, v, gap);
    AssignedConcat(key, w, v + gap, after);
    MatchOf(key, w, (v + gap) + after);
    LeadingOf(v + gap, after);
  }

  lemma LackingValueParts(key: string, line: string) returns (w: string, v: string)
    requires LacksValue(key, line)
    ensures Blank(w) && Blank(v) && line == Assigned(key, w, v)
  {
    var none;
    w, v, none := MatchParts(key, line);
    assert line[..|line|] == line;
  }

  lemma MissingValueMatches(key: string, line: string, gap: string, after: string)
    requires LacksValue(key, line) && Blank(gap) && (after == "" || !IsSpace(after[0]))
    ensures MatchLength(key, line + "\n" + gap + after) == |line + "\n" + gap|
  {
    var w, v := LackingValueParts(key, line);
    Regroup(line, "\n", gap);
    MatchRunsOver(key, w, v, "\n" + gap, after);
  }

  lemma SwallowsBreak(key: string, value: string, line: string, rest: string)
    requires LacksValue(key, line)
    ensures SubAll(key, value, line + "\n" + rest)
            == line + "\n" + rest[..Leading(rest)] + value
               + Following(key, value, rest[Leading(rest)..][LineLength(rest[Leading(rest)..])..])
  {
    var gap, after := rest[..Leading(rest)], rest[Leading(rest)..];
    MissingValueMatches(key, line, gap, after);
    SubAllAtMatch(key, value, line + "\n" + gap, after);
    GapAndRest(line + "\n", gap, after, rest);
  }

  lemma GapAndRest(front: string, gap: string, after: string, rest: string)
    requires gap <= rest && after == rest[|gap|..]
    ensures front + gap + after == front + rest
  {
  }

  lemma KeepsMissingValue(key: string, value: string, line: string, gap: string, more: string)
    requires OneLine(line) && LacksValue(key, line) && value != ""
    ensures Split(line + "\n" + gap + value + more)[0] == line != Substitute(key, value, line)
  {
    assert line + "\n" + gap + value + more == line + "\n" + (gap + value + more);
    FirstOfSplit(line, gap + value + more);
    assert |Substitute(key, value, line)| == |line| + |value|;
  }

  lemma FirstOfSplit(line: string, rest: string)
    requires OneLine(line)
    ensures Split(line + "\n" + rest)[0] == line
  {
    LineLengthOf(line, rest);
    FrontOfConcat(line, "\n" + rest);
    assert line + "\n" + rest == line + ("\n" + rest);
  }
}
