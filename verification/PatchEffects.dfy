/**
  What one patch leaves for the next: a patched or inserted line is not indented and has its value,
  so a later patch of another key, or of the same one, meets the file as it would have before.
*/
module PatchEffects {
  import opened Options
  import opened Text
  import opened Ini
  import opened GlobalPatch

  // ---------------------------------------------------------------- indented lines stay the only ones missed

  lemma HitsLine(line: string, rest: seq<string>, inside: bool, header: string, key: string)
    ensures HitsIndented([line] + rest, inside, header, key)
            == if Strip(line) == header then HitsIndented(rest, true, header, key)
               else if inside && IsHeader(line) then false
               else if inside && MatchLength(key, Strip(line)) >= 0 then MatchLength(key, line) < 0
               else HitsIndented(rest, inside, header, key)
  {
    assert ([line] + rest)[1..] == rest;
  }

  /** A line that sets another key is passed over; one that sets this key at its start is no miss. */
  lemma SettingLineHits(line: string, rest: seq<string>, inside: bool, section: string, key: string, other: string)
    requires CleanKey(key) && CleanKey(other)
    requires Setting(line).Some? && Setting(line).value.0 == key && !IsHeader(line) && MatchLength(key, line) >= 0
    ensures HitsIndented([line] + rest, inside, Header(section), other)
            == if inside && other == key then false else HitsIndented(rest, inside, Header(section), other)
  {
    HitsLine(line, rest, inside, Header(section), other);
    HeaderNeedNotMatch(key, line, section);
    if MatchLength(other, Strip(line)) >= 0 {
      MatchNames(other, line);
    }
    NameMatches(key, line);
  }

  lemma NewLineSets(key: string, value: string)
    requires CleanKey(key) && CleanValue(value)
    ensures var line := KeyValue(key, value);
            Setting(line) == Some((key, value)) && !IsHeader(line) && MatchLength(key, line) >= 0
  {
    KeyValueSets(key, value);
    KeyValueIsAssigned(key, value);
    MatchOf(key, " ", " " + value);
  }

  lemma KeyValueIsAssigned(key: string, value: string)
    ensures KeyValue(key, value) == Assigned(key, " ", " " + value) && Blank(" ")
  {
  }

  lemma PatchedLineSets(key: string, value: string, line: string)
    requires CleanKey(key) && CleanValue(value) && MatchLength(key, line) >= 0
    ensures var patched := Substitute(key, value, line);
            Setting(patched) == Some((key, value)) && !IsHeader(patched) && MatchLength(key, patched) >= 0
    ensures Setting(line).Some? && Setting(line).value.0 == key && !IsHeader(line)
  {
    SubstituteSets(key, value, line);
    var w, v, rest := MatchParts(key, line);
    AssignedConcat(key, w, v, value);
    MatchOf(key, w, v + value);
  }

  lemma LastLineHits(line: string, inside: bool, section: string, key: string, other: string)
    requires CleanKey(key) && CleanKey(other)
    requires Setting(line).Some? && Setting(line).value.0 == key && !IsHeader(line) && MatchLength(key, line) >= 0
    ensures !HitsIndented([line], inside, Header(section), other)
  {
    assert [line] == [line] + [];
    SettingLineHits(line, [], inside, section, key, other);
  }

  lemma EmptyLineHits(rest: seq<string>, inside: bool, section: string, key: string)
    requires CleanKey(key)
    ensures HitsIndented([""] + rest, inside, Header(section), key) == HitsIndented(rest, inside, Header(section), key)
  {
    EmptyLineSaysNothing();
    HitsLine("", rest, inside, Header(section), key);
  }

  lemma AppendedHits(inside: bool, section: string, key: string, value: string, inside2: bool, section2: string, key2: string)
    requires CleanKey(key) && CleanValue(value) && CleanKey(key2)
    ensures !HitsIndented(PatchRest([], inside, Header(section), key, value), inside2, Header(section2), key2)
  {
    var h, kv := Header(section), KeyValue(key, value);
    NewLineSets(key, value);
    LastLineHits(kv, inside2, section2, key, key2);
    LastLineHits(kv, true, section2, key, key2);
    if !inside {
      HeaderIsHeader(section);
      assert ["", h, kv] == [""] + ([h] + [kv]);
      EmptyLineHits([h] + [kv], inside2, section2, key2);
      HitsLine(h, [kv], inside2, Header(section2), key2);
    }
  }

  /** Whether a patch hits an indented line is the same before and after any other section patch, or the same one. */
  lemma {:induction false} PatchKeepsHits(ls: seq<string>, inside: bool, section: string, key: string, value: string,
                                          inside2: bool, section2: string, key2: string)
    requires CleanKey(key) && CleanValue(value) && CleanKey(key2)
    requires if section2 == section then inside2 == inside else !(inside && inside2)
    ensures HitsIndented(PatchRest(ls, inside, Header(section), key, value), inside2, Header(section2), key2)
            == HitsIndented(ls, inside2, Header(section2), key2)
    decreases |ls|
  {
    var h, h2 := Header(section), Header(section2);
    HeadersDiffer(section, section2);
    HeaderIsHeader(section);
    HeaderIsHeader(section2);
    if ls == [] {
      AppendedHits(inside, section, key, value, inside2, section2, key2);
    } else {
      var line, rest := ls[0], ls[1..];
      assert ls == [line] + rest;
      HitsLine(line, rest, inside2, h2, key2);
      if Strip(line) == h {
        HitsLine(line, PatchRest(rest, true, h, key, value), inside2, h2, key2);
        if section2 == section || !inside2 {
          PatchKeepsHits(rest, true, section, key, value, section2 == section, section2, key2);
        }
      } else if inside && IsHeader(line) {
        NewLineSets(key, value);
        SettingLineHits(KeyValue(key, value), ls, inside2, section2, key, key2);
      } else if inside && MatchLength(key, Strip(line)) >= 0 {
        if MatchLength(key, line) >= 0 {
          PatchedLineHits(line, rest, inside2, section2, key, value, key2);
        } else {
          assert [Substitute(key, value, line)] + rest == ls;
        }
      } else {
        HitsLine(line, PatchRest(rest, inside, h, key, value), inside2, h2, key2);
        if Strip(line) == h2 {
          PatchKeepsHits(rest, inside, section, key, value, true, section2, key2);
        } else {
          PatchKeepsHits(rest, inside, section, key, value, inside2, section2, key2);
        }
      }
    }
  }

  lemma PatchedLineHits(line: string, rest: seq<string>, inside: bool, section: string, key: string, value: string, other: string)
    requires CleanKey(key) && CleanValue(value) && CleanKey(other) && MatchLength(key, line) >= 0
    ensures HitsIndented([Substitute(key, value, line)] + rest, inside, Header(section), other)
            == HitsIndented([line] + rest, inside, Header(section), other)
  {
    PatchedLineSets(key, value, line);
    SettingLineHits(line, rest, inside, section, key, other);
    SettingLineHits(Substitute(key, value, line), rest, inside, section, key, other);
  }

  lemma {:induction false} SubLinesKeepHits(ls: seq<string>, key: string, value: string, inside: bool, section: string, other: string)
    requires CleanKey(key) && CleanValue(value) && CleanKey(other) && key != other
    ensures HitsIndented(SubLines(key, value, ls), inside, Header(section), other)
            == HitsIndented(ls, inside, Header(section), other)
    decreases |ls|
  {
    if ls != [] {
      var line, rest, h := ls[0], ls[1..], Header(section);
      assert ls == [line] + rest;
      SubLinesKeepHits(rest, key, value, inside, section, other);
      SubLinesKeepHits(rest, key, value, true, section, other);
      HitsLine(line, rest, inside, h, other);
      HitsLine(line, SubLines(key, value, rest), inside, h, other);
      if MatchLength(key, line) >= 0 {
        PatchedLineHits(line, SubLines(key, value, rest), inside, section, key, value, other);
      }
    }
  }

  /** Appended lines that hit nothing by themselves change nothing. */
  lemma {:induction false} AppendKeepsHits(ls: seq<string>, key: string, value: string, inside: bool, section: string, other: string)
    requires CleanKey(key) && CleanValue(value) && CleanKey(other)
    ensures HitsIndented(ls + [KeyValue(key, value), ""], inside, Header(section), other)
            == HitsIndented(ls, inside, Header(section), other)
    decreases |ls|
  {
    var more, h := [KeyValue(key, value), ""], Header(section);
    if ls == [] {
      NewLineSets(key, value);
      assert ls + more == [KeyValue(key, value)] + [""];
      SettingLineHits(KeyValue(key, value), [""], inside, section, key, other);
      EmptyLineHits([], inside, section, other);
      assert [""] == [""] + [];
    } else {
      var line, rest := ls[0], ls[1..];
      assert ls == [line] + rest && ls + more == [line] + (rest + more);
      HitsLine(line, rest, inside, h, other);
      HitsLine(line, rest + more, inside, h, other);
      AppendKeepsHits(rest, key, value, inside, section, other);
      AppendKeepsHits(rest, key, value, true, section, other);
    }
  }

  // ---------------------------------------------------------------- other keys read as before

  lemma {:induction false} SubLinesKeepOthers(ls: seq<string>, key: string, value: string, at: string, header: string, other: string)
    requires CleanKey(key) && CleanValue(value) && key != other
    ensures Read(SubLines(key, value, ls), at, header, other) == Read(ls, at, header, other)
    decreases |ls|
  {
    if ls != [] {
      var line, rest := ls[0], ls[1..];
      assert ls == [line] + rest;
      ReadLine(line, rest, at, header, other);
      ReadLine(Substitute(key, value, line), SubLines(key, value, rest), at, header, other);
      SubLinesKeepOthers(rest, key, value, at, header, other);
      SubLinesKeepOthers(rest, key, value, Strip(line), header, other);
      if MatchLength(key, line) >= 0 {
        PatchedLineSets(key, value, line);
      }
    }
  }

  lemma {:induction false} AppendKeepsOthers(ls: seq<string>, key: string, value: string, at: string, header: string, other: string)
    requires CleanKey(key) && CleanValue(value) && key != other
    ensures Read(ls + [KeyValue(key, value), ""], at, header, other) == Read(ls, at, header, other)
    decreases |ls|
  {
    var kv, more := KeyValue(key, value), [KeyValue(key, value), ""];
    if ls == [] {
      KeyValueSets(key, value);
      EmptyLineSaysNothing();
      assert ls + more == [kv] + [""];
      ReadLine(kv, [""], at, header, other);
      LastLine("", at, header, other);
    } else {
      var line, rest := ls[0], ls[1..];
      assert ls == [line] + rest && ls + more == [line] + (rest + more);
      ReadLine(line, rest, at, header, other);
      ReadLine(line, rest + more, at, header, other);
      AppendKeepsOthers(rest, key, value, at, header, other);
      AppendKeepsOthers(rest, key, value, Strip(line), header, other);
    }
  }

  // ---------------------------------------------------------------- lines stay tidy

  /** A line that spells out a key with a value is tidy for every key, its own only if the value is not empty. */
  lemma AssignedIsTidy(key: string, w: string, rest: string, value: string, other: string)
    requires CleanKey(key) && CleanKey(other) && Blank(w) && Blank(rest) && CleanValue(value) && (key == other ==> value != "")
    ensures TidyLine(other, Assigned(key, w, rest + value))
  {
    var line := Assigned(key, w, rest + value);
    if MatchLength(other, line) >= 0 {
      AssignedNames(key, w, rest + value, other);
      MatchOf(key, w, rest + value);
      LeadingOf(rest, value);
    }
    if other <= line {
      EqualsFollows(key, w, rest + value, other);
    }
  }

  /** Only the key that a line spells out matches it. */
  lemma AssignedNames(key: string, w: string, rest: string, other: string)
    requires CleanKey(key) && CleanKey(other) && Blank(w) && MatchLength(other, Assigned(key, w, rest)) >= 0
    ensures other == key
  {
    SettingOf(key, w, rest);
    var w2, u := MatchHead(other, Assigned(key, w, rest));
    SettingOf(other, w2, u);
  }

  /** A key has no `=`, so when it begins such a line the `=` is still to come. */
  lemma EqualsFollows(key: string, w: string, rest: string, other: string)
    requires CleanKey(other) && other <= Assigned(key, w, rest)
    ensures !Blank(Assigned(key, w, rest)[|other|..])
  {
    var line := Assigned(key, w, rest);
    AssignedParts(key, w, rest);
    var e := |key| + |w|;
    assert forall j :: 0 <= j < |other| ==> other[j] == line[j] && other[j] != '=';
    assert line[e] == '=' && |other| <= e;
    assert line[|other|..][e - |other|] == '=';
  }

  /** What a patch asks so that lines stay tidy for `other`: its own key gets a value that is not empty. */
  predicate Fills(key: string, value: string, other: string) {
    CleanKey(key) && CleanValue(value) && (key == other ==> value != "")
  }

  lemma NewLineIsTidy(key: string, value: string, other: string)
    requires Fills(key, value, other) && CleanKey(other)
    ensures TidyLine(other, KeyValue(key, value))
  {
    KeyValueIsAssigned(key, value);
    AssignedIsTidy(key, " ", " ", value, other);
  }

  lemma PatchedLineIsTidy(key: string, value: string, line: string, other: string)
    requires Fills(key, value, other) && CleanKey(other) && TidyLine(other, line)
    ensures TidyLine(other, Substitute(key, value, line))
  {
    if MatchLength(key, line) >= 0 {
      var w, v, rest := MatchParts(key, line);
      AssignedConcat(key, w, v, value);
      AssignedIsTidy(key, w, v, value, other);
    }
  }

  lemma HeaderIsTidy(section: string, key: string)
    requires CleanKey(key)
    ensures TidyLine(key, Header(section)) && TidyLine(key, "")
  {
  }

  lemma TidyLines(line: string, rest: seq<string>, key: string)
    ensures Tidy(key, [line] + rest) <==> TidyLine(key, line) && Tidy(key, rest)
  {
    var ls := [line] + rest;
    assert ls[0] == line;
    assert forall i :: 0 < i < |ls| ==> ls[i] == rest[i - 1];
    assert forall i :: 0 <= i < |rest| ==> rest[i] == ls[i + 1];
  }

  lemma AppendedIsTidy(inside: bool, section: string, key: string, value: string, other: string)
    requires Fills(key, value, other) && CleanKey(other)
    ensures Tidy(other, PatchRest([], inside, Header(section), key, value))
  {
    NewLineIsTidy(key, value, other);
    HeaderIsTidy(section, other);
  }

  lemma {:induction false} PatchKeepsTidy(ls: seq<string>, inside: bool, section: string, key: string, value: string, other: string)
    requires Fills(key, value, other) && CleanKey(other) && Tidy(other, ls)
    ensures Tidy(other, PatchRest(ls, inside, Header(section), key, value))
    decreases |ls|
  {
    var h := Header(section);
    if ls == [] {
      AppendedIsTidy(inside, section, key, value, other);
    } else {
      var line, rest := ls[0], ls[1..];
      assert ls == [line] + rest;
      TidyLines(line, rest, other);
      NewLineIsTidy(key, value, other);
      PatchedLineIsTidy(key, value, line, other);
      TidyLines(KeyValue(key, value), ls, other);
      TidyLines(Substitute(key, value, line), rest, other);
      PatchKeepsTidy(rest, true, section, key, value, other);
      PatchKeepsTidy(rest, inside, section, key, value, other);
      TidyLines(line, PatchRest(rest, true, h, key, value), other);
      TidyLines(line, PatchRest(rest, inside, h, key, value), other);
    }
  }

  lemma {:induction false} SubLinesKeepTidy(ls: seq<string>, key: string, value: string, other: string)
    requires Fills(key, value, other) && CleanKey(other) && Tidy(other, ls)
    ensures Tidy(other, SubLines(key, value, ls))
    decreases |ls|
  {
    if ls != [] {
      var line, rest := ls[0], ls[1..];
      assert ls == [line] + rest;
      TidyLines(line, rest, other);
      PatchedLineIsTidy(key, value, line, other);
      SubLinesKeepTidy(rest, key, value, other);
      TidyLines(Substitute(key, value, line), SubLines(key, value, rest), other);
    }
  }

  lemma AppendKeepsTidy(ls: seq<string>, key: string, value: string, other: string)
    requires Fills(key, value, other) && CleanKey(other) && Tidy(other, ls)
    ensures Tidy(other, ls + [KeyValue(key, value), ""])
  {
    NewLineIsTidy(key, value, other);
    HeaderIsTidy("", other);
  }

  // ---------------------------------------------------------------- whole texts

  /** A patch by section and key: what every later patch and lookup meets. */
  lemma SectionPatchEffects(content: string, section: string, key: string, value: string, section2: string, key2: string)
    requires CleanKey(key) && CleanValue(value) && OneLine(section) && CleanKey(key2)
    ensures var patched, h2 := PatchInSection(content, section, key, value), Header(section2);
            && HitsIndented(Split(patched), false, h2, key2) == HitsIndented(Split(content), false, h2, key2)
            && (section != section2 || key != key2 || HitsIndented(Split(content), false, h2, key2) ==>
                  Lookup(patched, section2, key2) == Lookup(content, section2, key2))
            && (Fills(key, value, key2) && Tidy(key2, Split(content)) ==> Tidy(key2, Split(patched)))
  {
    var ls := Split(content);
    PatchedAreLines(ls, false, section, key, value);
    SplitJoin(PatchRest(ls, false, Header(section), key, value));
    PatchKeepsHits(ls, false, section, key, value, false, section2, key2);
    PatchRefinesUpdate(content, section, key, value);
    if Fills(key, value, key2) && Tidy(key2, ls) {
      PatchKeepsTidy(ls, false, section, key, value, key2);
    }
  }

  lemma {:induction false} SubLinesAreLines(key: string, value: string, ls: seq<string>)
    requires OneLine(value) && forall i :: 0 <= i < |ls| ==> OneLine(ls[i])
    ensures |SubLines(key, value, ls)| == |ls|
    ensures forall i :: 0 <= i < |ls| ==> OneLine(SubLines(key, value, ls)[i])
    decreases |ls|
  {
    if ls != [] {
      SubstituteIsOneLine(key, value, ls[0]);
      SubLinesAreLines(key, value, ls[1..]);
    }
  }

  /** The lines of a globally patched text, where every line is tidy. */
  lemma GlobalPatchLines(content: string, key: string, value: string)
    requires CleanKey(key) && CleanValue(value) && Tidy(key, Split(content))
    ensures Split(PatchGlobally(content, key, value))
            == if FoundIn(key, content) then SubLines(key, value, Split(content)) else Split(content) + [KeyValue(key, value), ""]
  {
    var ls := Split(content);
    JoinSplit(content);
    if FoundIn(key, content) {
      SubAllIsLinewise(key, value, ls);
      SubLinesAreLines(key, value, ls);
      SplitJoin(SubLines(key, value, ls));
    } else {
      var kv := KeyValue(key, value);
      JoinConcat(ls, [kv, ""]);
      assert [kv, ""][1..] == [""];
      assert Join([kv, ""]) == kv + "\n" + "";
      assert content + "\n" + kv + "\n" == content + "\n" + (kv + "\n" + "");
      SplitJoin(ls + [kv, ""]);
    }
  }

  /** A global patch on tidy lines: what every later patch and lookup of another key meets. */
  lemma GlobalPatchEffects(content: string, key: string, value: string, section2: string, key2: string)
    requires CleanKey(key) && CleanValue(value) && Tidy(key, Split(content)) && CleanKey(key2) && key != key2
    ensures var patched, h2 := PatchGlobally(content, key, value), Header(section2);
            && HitsIndented(Split(patched), false, h2, key2) == HitsIndented(Split(content), false, h2, key2)
            && Lookup(patched, section2, key2) == Lookup(content, section2, key2)
            && (Tidy(key2, Split(content)) ==> Tidy(key2, Split(patched)))
  {
    var ls := Split(content);
    GlobalPatchLines(content, key, value);
    if FoundIn(key, content) {
      SubLinesKeepHits(ls, key, value, false, section2, key2);
      SubLinesKeepOthers(ls, key, value, "", Header(section2), key2);
      if Tidy(key2, ls) {
        SubLinesKeepTidy(ls, key, value, key2);
      }
    } else {
      AppendKeepsHits(ls, key, value, false, section2, key2);
      AppendKeepsOthers(ls, key, value, "", Header(section2), key2);
      if Tidy(key2, ls) {
        AppendKeepsTidy(ls, key, value, key2);
      }
    }
  }

  lemma GlobalPatchKeepsTidy(content: string, key: string, value: string, other: string)
    requires Fills(key, value, other) && CleanKey(other) && Tidy(key, Split(content)) && Tidy(other, Split(content))
    ensures Tidy(other, Split(PatchGlobally(content, key, value)))
  {
    GlobalPatchLines(content, key, value);
    SubLinesKeepTidy(Split(content), key, value, other);
    AppendKeepsTidy(Split(content), key, value, other);
  }
}
