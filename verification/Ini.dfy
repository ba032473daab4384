/**
  Patching one value of an INI file by its section and key, and what that does to the file read as
  a map from (section, key) to value.
*/
module Ini {
  import opened Sequences
  import opened Text

  import opened Options

  // ---------------------------------------------------------------- reading a file

  function EqualsAt(s: string): (n: nat)
    ensures n <= |s|
  {
    if s == "" || s[0] == '=' then 0 else 1 + EqualsAt(s[1..])
  }

  /** The key and value a line spells out: the trimmed texts around its first `=`. */
  function Setting(line: string): Option<(string, string)> {
    var s := Strip(line);
    var e := EqualsAt(s);
    if e == |s| then None else Some((Strip(s[..e]), Strip(s[e + 1..])))
  }

  predicate IsHeader(line: string) {
    var s := Strip(line);
    s != "" && s[0] == '['
  }

  /** The first value of `key` under `header`, in lines that start out under header `at`. */
  function Read(ls: seq<string>, at: string, header: string, key: string): Option<string> {
    if ls == [] then None
    else if IsHeader(ls[0]) then Read(ls[1..], Strip(ls[0]), header, key)
    else if at == header && Setting(ls[0]).Some? && Setting(ls[0]).value.0 == key then Some(Setting(ls[0]).value.1)
    else Read(ls[1..], at, header, key)
  }

  function Lookup(content: string, section: string, key: string): Option<string> {
    Read(Split(content), "", Header(section), key)
  }

  function Header(section: string): string {
    "[" + section + "]"
  }

  predicate CleanKey(key: string) {
    key != "" && Trimmed(key) && OneLine(key) && '=' !in key && key[0] != '['
  }

  predicate CleanValue(value: string) {
    Trimmed(value) && OneLine(value)
  }

  // ---------------------------------------------------------------- the patch

  /** Length of `key\s*=\s*` at the front of a text, or -1. */
  function MatchLength(key: string, s: string): (m: int)
    ensures -1 <= m <= |s|
  {
    if !(key <= s) then -1
    else
      var a := |key| + Leading(s[|key|..]);
      if a < |s| && s[a] == '=' then a + 1 + Leading(s[a + 1..]) else -1
  }

  function Substitute(key: string, value: string, line: string): string {
    var m := MatchLength(key, line);
    if m < 0 then line else line[..m] + value
  }

  function KeyValue(key: string, value: string): string {
    key + " = " + value
  }

  /** A line made of a key, whitespace, `=` and a rest. */
  function Assigned(key: string, w: string, rest: string): string {
    key + w + "=" + rest
  }

  /** The rest of the lines after patching; `inside` says whether the section has begun. */
  function PatchRest(ls: seq<string>, inside: bool, header: string, key: string, value: string): seq<string> {
    if ls == [] then
      if inside then [KeyValue(key, value)] else ["", header, KeyValue(key, value)]
    else if Strip(ls[0]) == header then [ls[0]] + PatchRest(ls[1..], true, header, key, value)
    else if inside && IsHeader(ls[0]) then [KeyValue(key, value)] + ls
    else if inside && MatchLength(key, Strip(ls[0])) >= 0 then [Substitute(key, value, ls[0])] + ls[1..]
    else [ls[0]] + PatchRest(ls[1..], inside, header, key, value)
  }

  function PatchInSection(content: string, section: string, key: string, value: string): string {
    Join(PatchRest(Split(content), false, Header(section), key, value))
  }

  /** The line the patch settles on is indented, so that it is left as it is. */
  predicate HitsIndented(ls: seq<string>, inside: bool, header: string, key: string) {
    if ls == [] then false
    else if Strip(ls[0]) == header then HitsIndented(ls[1..], true, header, key)
    else if inside && IsHeader(ls[0]) then false
    else if inside && MatchLength(key, Strip(ls[0])) >= 0 then MatchLength(key, ls[0]) < 0
    else HitsIndented(ls[1..], inside, header, key)
  }

  // ---------------------------------------------------------------- matching is naming

  lemma {:induction false} EqualsAtOf(p: string, rest: string)
    requires '=' !in p
    ensures EqualsAt(p + "=" + rest) == |p|
    decreases |p|
  {
    if p == "" {
      assert (p + "=" + rest)[0] == '=';
    } else {
      assert p[0] in p;
      assert (p + "=" + rest)[1..] == p[1..] + "=" + rest;
      EqualsAtOf(p[1..], rest);
    }
  }

  lemma {:induction false} EqualsAtIs(s: string)
    ensures '=' !in s[..EqualsAt(s)] && (EqualsAt(s) < |s| ==> s[EqualsAt(s)] == '=')
  {
    var n := EqualsAt(s);
    if s != "" && s[0] != '=' {
      EqualsAtIs(s[1..]);
      assert s[..n] == [s[0]] + s[1..][..n - 1];
    }
  }

  lemma BlankHasNoEquals(s: string)
    requires Blank(s)
    ensures '=' !in s
  {
  }

  lemma TrimRightConcat(x: string, r: string)
    requires x != "" && !IsSpace(x[|x| - 1])
    ensures TrimRight(x + r) == x + TrimRight(r)
  {
    var t := TrimRight(r);
    var blank := r[|t|..];
    assert x + r == (x + t) + blank;
    TrimRightOf(x + t, blank);
  }

  lemma StripTrimRight(r: string)
    ensures Strip(TrimRight(r)) == Strip(r)
  {
    var before, after := StripParts(r);
    var t := Strip(r);
    if t == "" {
      assert Blank(before + after) && r == before + after;
      assert "" + r == r;
      TrimRightOf("", r);
    } else {
      StripTrimmed(before, t, after);
    }
  }

  lemma StripTrimmed(before: string, t: string, after: string)
    requires Blank(before) && t != "" && Trimmed(t) && Blank(after)
    ensures Strip(TrimRight(before + t + after)) == t
  {
    assert (before + t)[|before + t| - 1] == t[|t| - 1];
    TrimRightOf(before + t, after);
    StripBefore(before, t);
  }

  lemma StripBefore(before: string, t: string)
    requires Blank(before) && Trimmed(t)
    ensures Strip(before + t) == t
  {
    StripOf(before, t, "");
    assert before + t + "" == before + t;
  }

  lemma StripAssigned(key: string, w: string, rest: string)
    requires CleanKey(key) && Blank(w)
    ensures Strip(Assigned(key, w, rest)) == (key + w) + "=" + TrimRight(rest)
    ensures Assigned(key, w, rest)[0] == key[0]
  {
    var x := key + w + "=";
    var line := Assigned(key, w, rest);
    assert line == x + rest && line[0] == key[0];
    LeadingOf("", line);
    assert "" + line == line;
    assert TrimLeft(line) == line;
    TrimRightConcat(x, rest);
  }

  /** A line that begins with a key, whitespace and `=` spells out that key and the trimmed rest. */
  lemma SettingOf(key: string, w: string, rest: string)
    requires CleanKey(key) && Blank(w)
    ensures Setting(Assigned(key, w, rest)) == Some((key, Strip(rest)))
    ensures !IsHeader(Assigned(key, w, rest))
  {
    StripAssigned(key, w, rest);
    var s := Strip(Assigned(key, w, rest));
    BlankHasNoEquals(w);
    EqualsAtOf(key + w, TrimRight(rest));
    StripOf("", key, w);
    assert "" + key + w == key + w;
    assert s[..|key + w|] == key + w && s[|key + w| + 1..] == TrimRight(rest);
    StripTrimRight(rest);
  }

  lemma AssignedConcat(key: string, w: string, a: string, b: string)
    ensures Assigned(key, w, a) + b == Assigned(key, w, a + b)
  {
  }

  /** A text that matches begins with the key, whitespace and `=`; `u` is what follows. */
  lemma MatchHead(key: string, s: string) returns (w: string, u: string)
    requires MatchLength(key, s) >= 0
    ensures Blank(w) && s == Assigned(key, w, u)
  {
    var t := s[|key|..];
    w := t[..Leading(t)];
    u := t[Leading(t) + 1..];
    assert t == w + "=" + u;
    assert s == key + t;
    AssignedWhole(key, w, u);
  }

  lemma AssignedWhole(key: string, w: string, u: string)
    ensures Assigned(key, w, u) == key + (w + "=" + u)
  {
  }

  lemma MatchOf(key: string, w: string, rest: string)
    requires Blank(w)
    ensures MatchLength(key, Assigned(key, w, rest)) == |key| + |w| + 1 + Leading(rest)
  {
    AssignedParts(key, w, rest);
    LeadingOf(w, "=" + rest);
  }

  lemma AssignedParts(key: string, w: string, rest: string)
    ensures var s := Assigned(key, w, rest);
      && |s| == |key| + |w| + 1 + |rest| && key <= s && s[|key|..] == w + ("=" + rest)
      && s[|key| + |w|] == '=' && s[|key| + |w| + 1..] == rest
  {
  }

  /** The match itself goes on over the whitespace after the `=`. */
  lemma MatchParts(key: string, s: string) returns (w: string, v: string, rest: string)
    requires MatchLength(key, s) >= 0
    ensures Blank(w) && Blank(v) && s == Assigned(key, w, v + rest) && (rest != "" ==> !IsSpace(rest[0]))
    ensures s[..MatchLength(key, s)] == Assigned(key, w, v)
  {
    var u;
    w, u := MatchHead(key, s);
    MatchOf(key, w, u);
    v, rest := u[..Leading(u)], u[Leading(u)..];
    assert u == v + rest;
    AssignedConcat(key, w, v, rest);
    FrontOfConcat(Assigned(key, w, v), rest);
  }

  lemma FrontOfConcat(a: string, b: string)
    ensures (a + b)[..|a|] == a
  {
  }

  lemma MatchNames(key: string, line: string)
    requires CleanKey(key) && MatchLength(key, Strip(line)) >= 0
    ensures Setting(line).Some? && Setting(line).value.0 == key
  {
    var w, u := MatchHead(key, Strip(line));
    BlankHasNoEquals(w);
    EqualsAtOf(key + w, u);
    assert (key + w + "=" + u)[..|key + w|] == key + w;
    StripOf("", key, w);
    assert "" + key + w == key + w;
  }

  lemma NameMatches(key: string, line: string)
    requires CleanKey(key) && Setting(line).Some? && Setting(line).value.0 == key
    ensures MatchLength(key, Strip(line)) >= 0
  {
    var s := Strip(line);
    var before, after := StripParts(line);
    var e := EqualsAt(s);
    EqualsAtIs(s);
    var lead, trail := StripParts(s[..e]);
    NothingLeads(s, e, lead, key, trail);
    MatchOf(key, trail, s[e + 1..]);
  }

  lemma LeadsWith(s: string, e: nat, lead: string, rest: string)
    requires 0 < e <= |s| && lead != "" && s[..e] == lead + rest
    ensures s[0] == lead[0]
  {
  }

  lemma NothingLeads(s: string, e: nat, lead: string, key: string, trail: string)
    requires e < |s| && s[e] == '=' && Trimmed(s) && Blank(lead) && s[..e] == lead + key + trail && key != ""
    ensures s == Assigned(key, trail, s[e + 1..])
  {
    Regroup(lead, key, trail);
    if lead != "" {
      LeadsWith(s, e, lead, key + trail);
      assert false;
    }
    assert s == s[..e] + "=" + s[e + 1..];
  }

  lemma SubstituteSets(key: string, value: string, line: string)
    requires CleanKey(key) && CleanValue(value) && MatchLength(key, line) >= 0
    ensures Setting(Substitute(key, value, line)) == Some((key, value))
    ensures !IsHeader(Substitute(key, value, line)) && !IsHeader(line)
    ensures Setting(line).Some? && Setting(line).value.0 == key
  {
    var w, v, rest := MatchParts(key, line);
    AssignedConcat(key, w, v, value);
    SettingOf(key, w, v + value);
    StripOf(v, value, "");
    assert v + value + "" == v + value;
    SettingOf(key, w, v + rest);
  }

  lemma KeyValueSets(key: string, value: string)
    requires CleanKey(key) && CleanValue(value)
    ensures Setting(KeyValue(key, value)) == Some((key, value)) && !IsHeader(KeyValue(key, value))
  {
    assert KeyValue(key, value) == Assigned(key, " ", " " + value);
    SettingOf(key, " ", " " + value);
    StripOf(" ", value, "");
    assert " " + value + "" == " " + value;
  }

  lemma HeaderIsHeader(section: string)
    ensures Strip(Header(section)) == Header(section) && IsHeader(Header(section))
  {
    var h := Header(section);
    StripOf("", h, "");
    assert "" + h + "" == h;
  }

  // ---------------------------------------------------------------- the patch refines a map update

  /** Read in terms of one line. */
  lemma ReadLine(line: string, rest: seq<string>, at: string, header: string, key: string)
    ensures Read([line] + rest, at, header, key)
            == if IsHeader(line) then Read(rest, Strip(line), header, key)
               else if at == header && Setting(line).Some? && Setting(line).value.0 == key then Some(Setting(line).value.1)
               else Read(rest, at, header, key)
  {
    assert ([line] + rest)[1..] == rest;
  }

  /** The patched key reads as the value, unless the line that has it is indented: then nothing changes. */
  lemma {:induction false} PatchSets(ls: seq<string>, inside: bool, at: string, section: string, key: string, value: string)
    requires CleanKey(key) && CleanValue(value) && (inside <==> at == Header(section))
    ensures var h := Header(section);
            Read(PatchRest(ls, inside, h, key, value), at, h, key)
            == if HitsIndented(ls, inside, h, key) then Read(ls, at, h, key) else Some(value)
    decreases |ls|
  {
    var h := Header(section);
    HeaderIsHeader(section);
    KeyValueSets(key, value);
    if ls == [] {
      AppendedSets(inside, at, section, key, value);
    } else if Strip(ls[0]) == h {
      PatchSets(ls[1..], true, h, section, key, value);
    } else if inside && IsHeader(ls[0]) {
    } else if inside && MatchLength(key, Strip(ls[0])) >= 0 {
      PatchSetsHere(ls, section, key, value);
    } else {
      if !IsHeader(ls[0]) && inside {
        if Setting(ls[0]).Some? && Setting(ls[0]).value.0 == key {
          NameMatches(key, ls[0]);
        }
      }
      PatchSets(ls[1..], inside, if IsHeader(ls[0]) then Strip(ls[0]) else at, section, key, value);
    }
  }

  lemma PatchSetsHere(ls: seq<string>, section: string, key: string, value: string)
    requires CleanKey(key) && CleanValue(value) && ls != []
    requires !IsHeader(ls[0]) && MatchLength(key, Strip(ls[0])) >= 0
    ensures var h := Header(section);
            Read([Substitute(key, value, ls[0])] + ls[1..], h, h, key)
            == if MatchLength(key, ls[0]) < 0 then Read(ls, h, h, key) else Some(value)
  {
    var h, line := Header(section), Substitute(key, value, ls[0]);
    if MatchLength(key, ls[0]) >= 0 {
      SubstituteSets(key, value, ls[0]);
      FirstLineReads(line, ls[1..], h, key, value);
    } else {
      assert line == ls[0];
      assert [ls[0]] + ls[1..] == ls;
    }
  }

  lemma FirstLineReads(line: string, rest: seq<string>, header: string, key: string, value: string)
    requires !IsHeader(line) && Setting(line) == Some((key, value))
    ensures Read([line] + rest, header, header, key) == Some(value)
  {
    ReadLine(line, rest, header, header, key);
  }

  lemma AppendedSets(inside: bool, at: string, section: string, key: string, value: string)
    requires CleanKey(key) && CleanValue(value) && (inside <==> at == Header(section))
    ensures Read(PatchRest([], inside, Header(section), key, value), at, Header(section), key) == Some(value)
  {
    var h, last := Header(section), KeyValue(key, value);
    HeaderIsHeader(section);
    KeyValueSets(key, value);
    EmptyLineSaysNothing();
    LastLine(last, h, h, key);
    if !inside {
      assert ["", h, last] == [""] + ([h] + [last]);
      ReadLine("", [h] + [last], at, h, key);
      ReadLine(h, [last], at, h, key);
    }
  }

  /** Every other key, in this section or another, reads as before. */
  lemma {:induction false} PatchKeepsOthers(ls: seq<string>, inside: bool, at: string, section: string, key: string, value: string,
                                            header: string, other: string)
    requires CleanKey(key) && CleanValue(value) && (inside <==> at == Header(section))
    requires header != Header(section) || other != key
    ensures Read(PatchRest(ls, inside, Header(section), key, value), at, header, other) == Read(ls, at, header, other)
    decreases |ls|
  {
    var h := Header(section);
    HeaderIsHeader(section);
    KeyValueSets(key, value);
    if ls == [] {
      AppendedKeepsOthers(inside, at, section, key, value, header, other);
    } else if Strip(ls[0]) == h {
      PatchKeepsOthers(ls[1..], true, h, section, key, value, header, other);
    } else if inside && IsHeader(ls[0]) {
      ReadLine(KeyValue(key, value), ls, at, header, other);
    } else if inside && MatchLength(key, Strip(ls[0])) >= 0 {
      MatchNames(key, ls[0]);
      ReadLine(Substitute(key, value, ls[0]), ls[1..], at, header, other);
      if MatchLength(key, ls[0]) >= 0 {
        SubstituteSets(key, value, ls[0]);
      }
    } else {
      PatchKeepsOthers(ls[1..], inside, if IsHeader(ls[0]) then Strip(ls[0]) else at, section, key, value, header, other);
    }
  }

  lemma AppendedKeepsOthers(inside: bool, at: string, section: string, key: string, value: string, header: string, other: string)
    requires CleanKey(key) && CleanValue(value) && (inside <==> at == Header(section))
    requires header != Header(section) || other != key
    ensures Read(PatchRest([], inside, Header(section), key, value), at, header, other) == None
  {
    var h := Header(section);
    HeaderIsHeader(section);
    KeyValueSets(key, value);
    EmptyLineSaysNothing();
    var last := KeyValue(key, value);
    LastLine(last, at, header, other);
    LastLine(last, h, header, other);
    if !inside {
      assert ["", h, last] == [""] + ([h] + [last]);
      ReadLine("", [h] + [last], at, header, other);
      ReadLine(h, [last], at, header, other);
    }
  }

  lemma LastLine(line: string, at: string, header: string, key: string)
    requires !IsHeader(line)
    ensures Read([line], at, header, key)
            == if at == header && Setting(line).Some? && Setting(line).value.0 == key then Some(Setting(line).value.1) else None
  {
    assert [line] == [line] + [];
    ReadLine(line, [], at, header, key);
  }

  lemma EmptyLineSaysNothing()
    ensures !IsHeader("") && Setting("") == None && Strip("") == ""
  {
    StripOf("", "", "");
    assert "" + "" + "" == "";
  }

  // ---------------------------------------------------------------- patching twice

  lemma SubstituteTwice(key: string, value: string, line: string)
    requires CleanKey(key) && CleanValue(value)
    ensures Substitute(key, value, Substitute(key, value, line)) == Substitute(key, value, line)
    ensures MatchLength(key, line) >= 0 ==> MatchLength(key, Strip(Substitute(key, value, line))) >= 0
    ensures MatchLength(key, line) >= 0 ==> !IsHeader(Substitute(key, value, line))
  {
    if MatchLength(key, line) >= 0 {
      var w, v, rest := MatchParts(key, line);
      assert Substitute(key, value, line) == Assigned(key, w, v) + value;
      SubstituteAssigned(key, w, v, value);
      SubstituteSets(key, value, line);
      NameMatches(key, Substitute(key, value, line));
    }
  }

  /** A line already set to the value is matched up to the value. */
  lemma SubstituteAssigned(key: string, w: string, v: string, value: string)
    requires Blank(w) && Blank(v) && (value == "" || !IsSpace(value[0]))
    ensures Substitute(key, value, Assigned(key, w, v) + value) == Assigned(key, w, v) + value
  {
    AssignedConcat(key, w, v, value);
    MatchOf(key, w, v + value);
    LeadingOf(v, value);
    FrontOfConcat(Assigned(key, w, v), value);
  }

  lemma HeaderNeedNotMatch(key: string, line: string, section: string)
    requires !IsHeader(line)
    ensures Strip(line) != Header(section)
  {
    HeaderIsHeader(section);
  }

  /** Patching a file again with the same value changes nothing. */
  lemma {:induction false} PatchTwice(ls: seq<string>, inside: bool, section: string, key: string, value: string)
    requires CleanKey(key) && CleanValue(value)
    ensures var h := Header(section);
            var once := PatchRest(ls, inside, h, key, value);
            PatchRest(once, inside, h, key, value) == once
    decreases |ls|
  {
    var h := Header(section);
    HeaderIsHeader(section);
    KeyValueSets(key, value);
    NameMatches(key, KeyValue(key, value));
    if ls == [] {
      AppendedTwice(inside, section, key, value);
    } else if Strip(ls[0]) == h {
      PatchTwice(ls[1..], true, section, key, value);
      Unfold(ls[0], PatchRest(ls[1..], true, h, key, value), inside, h, key, value);
    } else if inside && IsHeader(ls[0]) {
      KeyValueAgain(ls, section, key, value);
    } else if inside && MatchLength(key, Strip(ls[0])) >= 0 {
      SubstituteTwice(key, value, ls[0]);
      Unfold(Substitute(key, value, ls[0]), ls[1..], inside, h, key, value);
      HeaderIsHeader(section);
    } else {
      PatchTwice(ls[1..], inside, section, key, value);
      Unfold(ls[0], PatchRest(ls[1..], inside, h, key, value), inside, h, key, value);
    }
  }

  lemma Unfold(line: string, rest: seq<string>, inside: bool, h: string, key: string, value: string)
    ensures PatchRest([line] + rest, inside, h, key, value)
            == if Strip(line) == h then [line] + PatchRest(rest, true, h, key, value)
               else if inside && IsHeader(line) then [KeyValue(key, value)] + ([line] + rest)
               else if inside && MatchLength(key, Strip(line)) >= 0 then [Substitute(key, value, line)] + rest
               else [line] + PatchRest(rest, inside, h, key, value)
  {
    assert ([line] + rest)[1..] == rest;
  }

  lemma SubstituteKeyValue(key: string, value: string)
    requires CleanValue(value)
    ensures Substitute(key, value, KeyValue(key, value)) == KeyValue(key, value)
  {
    assert KeyValue(key, value) == Assigned(key, " ", " " + value);
    MatchOf(key, " ", " " + value);
    LeadingOf(" ", value);
    AssignedConcat(key, " ", " ", value);
    FrontOfConcat(Assigned(key, " ", " "), value);
  }

  lemma KeyValueAgain(ls: seq<string>, section: string, key: string, value: string)
    requires CleanKey(key) && CleanValue(value)
    ensures PatchRest([KeyValue(key, value)] + ls, true, Header(section), key, value) == [KeyValue(key, value)] + ls
  {
    var line := KeyValue(key, value);
    KeyValueSets(key, value);
    NameMatches(key, line);
    HeaderNeedNotMatch(key, line, section);
    SubstituteKeyValue(key, value);
    Unfold(line, ls, true, Header(section), key, value);
  }

  lemma AppendedTwice(inside: bool, section: string, key: string, value: string)
    requires CleanKey(key) && CleanValue(value)
    ensures var h := Header(section);
            var once := PatchRest([], inside, h, key, value);
            PatchRest(once, inside, h, key, value) == once
  {
    var h := Header(section);
    var kv := KeyValue(key, value);
    HeaderIsHeader(section);
    EmptyLineSaysNothing();
    KeyValueAgain([], section, key, value);
    assert [kv] + [] == [kv];
    if !inside {
      assert ["", h, kv] == [""] + [h, kv] && [h, kv] == [h] + [kv];
      Unfold("", [h, kv], false, h, key, value);
      Unfold(h, [kv], false, h, key, value);
    }
  }

  // ---------------------------------------------------------------- whole contents

  lemma {:induction false} PatchedAreLines(ls: seq<string>, inside: bool, section: string, key: string, value: string)
    requires CleanKey(key) && CleanValue(value) && OneLine(section)
    requires forall i :: 0 <= i < |ls| ==> OneLine(ls[i])
    ensures AreLines(PatchRest(ls, inside, Header(section), key, value))
    decreases |ls|
  {
    var h := Header(section);
    if ls != [] {
      PatchedAreLines(ls[1..], true, section, key, value);
      PatchedAreLines(ls[1..], inside, section, key, value);
      SubstituteIsOneLine(key, value, ls[0]);
    }
  }

  lemma SubstituteIsOneLine(key: string, value: string, line: string)
    requires OneLine(line) && OneLine(value)
    ensures OneLine(Substitute(key, value, line))
  {
    var m := MatchLength(key, line);
    if m >= 0 {
      assert line == line[..m] + line[m..];
    }
  }

  /** A patch by section and key is an update of the file read as a map, exactly when it hits no indented line. */
  lemma PatchRefinesUpdate(content: string, section: string, key: string, value: string)
    requires CleanKey(key) && CleanValue(value) && OneLine(section)
    ensures var patched := PatchInSection(content, section, key, value);
            && (Lookup(patched, section, key) == Some(value)
                <==> !HitsIndented(Split(content), false, Header(section), key) || Lookup(content, section, key) == Some(value))
            && (HitsIndented(Split(content), false, Header(section), key) ==>
                  Lookup(patched, section, key) == Lookup(content, section, key))
            && (forall s, k :: s != section || k != key ==> Lookup(patched, s, k) == Lookup(content, s, k))
            && PatchInSection(patched, section, key, value) == patched
  {
    var ls := Split(content);
    PatchedAreLines(ls, false, section, key, value);
    SplitJoin(PatchRest(ls, false, Header(section), key, value));
    PatchSets(ls, false, "", section, key, value);
    PatchTwice(ls, false, section, key, value);
    forall s, k | s != section || k != key
      ensures Lookup(PatchInSection(content, section, key, value), s, k) == Lookup(content, s, k)
    {
      HeadersDiffer(s, section);
      PatchKeepsOthers(ls, false, "", section, key, value, Header(s), k);
    }
  }

  lemma HeadersDiffer(a: string, b: string)
    ensures Header(a) == Header(b) <==> a == b
  {
    assert Header(a)[1..|Header(a)| - 1] == a && Header(b)[1..|Header(b)| - 1] == b;
  }

  // ---------------------------------------------------------------- the patching loop

  /** One turn of the loop, in terms of positions in the lines. */
  lemma PatchAt(lines: seq<string>, i: nat, inside: bool, h: string, key: string, value: string)
    requires i < |lines|
    ensures lines[..i] + PatchRest(lines[i..], inside, h, key, value)
            == if Strip(lines[i]) == h then lines[..i + 1] + PatchRest(lines[i + 1..], true, h, key, value)
               else if inside && IsHeader(lines[i]) then lines[..i] + [KeyValue(key, value)] + lines[i..]
               else if inside && MatchLength(key, Strip(lines[i])) >= 0 then
                 lines[..i] + [Substitute(key, value, lines[i])] + lines[i + 1..]
               else lines[..i + 1] + PatchRest(lines[i + 1..], inside, h, key, value)
  {
    var line, rest := lines[i], lines[i + 1..];
    Unfold(line, rest, inside, h, key, value);
    assert lines[i..] == [line] + rest && lines[..i + 1] == lines[..i] + [line];
    Regroup(lines[..i], [line], PatchRest(rest, true, h, key, value));
    Regroup(lines[..i], [line], PatchRest(rest, inside, h, key, value));
    Regroup(lines[..i], [KeyValue(key, value)], lines[i..]);
    Regroup(lines[..i], [Substitute(key, value, line)], rest);
  }

  /** The header line is appended with its own line break in front. */
  lemma CreatedSection(lines: seq<string>, header: string, kv: string)
    requires lines != []
    ensures Join(lines + ["\n" + header, kv]) == Join(lines + ["", header, kv])
  {
    JoinConcat(lines, ["", header, kv]);
    JoinConcat(lines, ["\n" + header, kv]);
    assert ["", header, kv][1..] == [header, kv] && ["\n" + header, kv][1..] == [kv] && [header, kv][1..] == [kv];
  }

  method PatchIniValueInSection(content: string, section: string, key: string, value: string) returns (patched: string)
    ensures patched == PatchInSection(content, section, key, value)
  {
    var lines := Split(content);
    var header := Header(section);
    var inSection, done := false, false;
    ghost var goal := PatchRest(lines, false, header, key, value);
    assert lines[..0] + lines[0..] == lines;
    var i := 0;
    while i < |lines| && !done
      invariant !done ==> i <= |lines| && lines != [] && lines[..i] + PatchRest(lines[i..], inSection, header, key, value) == goal
      invariant done ==> lines == goal
      decreases !done, |lines| - i
    {
      PatchAt(lines, i, inSection, header, key, value);
      var stripped := Strip(lines[i]);
      if stripped == header {
        inSection := true;
      } else if inSection && stripped != "" && stripped[0] == '[' {
        lines := lines[..i] + [KeyValue(key, value)] + lines[i..];
        done := true;
      } else if inSection && MatchLength(key, stripped) >= 0 {
        lines := lines[..i] + [Substitute(key, value, lines[i])] + lines[i + 1..];
        done := true;
      }
      i := i + 1;
    }
    if !done {
      assert lines[..i] == lines && lines[i..] == [];
      if inSection {
        lines := lines + [KeyValue(key, value)];
      } else {
        CreatedSection(lines, header, KeyValue(key, value));
        lines := lines + ["\n" + header, KeyValue(key, value)];
      }
    }
    patched := Join(lines);
  }
}
