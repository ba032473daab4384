/**
  What the finished openttd.cfg says: for a key in a section the last word of the request, and for the
  keys that stand in no particular section what every line of theirs says.
*/
module FinishedConfig {
  import opened Options
  import opened Text
  import opened Ini
  import opened GlobalPatch
  import opened PatchEffects
  import opened SessionConfig

  // ---------------------------------------------------------------- keys by section

  /** The setting is one of OpenTTD's, of this section and key: the name is split at its first dot. */
  predicate Sets(setting: (string, string), section: string, key: string) {
    setting.0 == section + "." + key && '.' !in section && (setting.0[0] != '_')
  }

  function LastSet(settings: seq<(string, string)>, section: string, key: string): Option<string> {
    if settings == [] then None
    else if Sets(settings[|settings| - 1], section, key) then Some(settings[|settings| - 1].1)
    else LastSet(settings[..|settings| - 1], section, key)
  }

  /** What a request says about a key: switching autosave off comes last, before it the slots, before them the settings. */
  function Asked(r: Request, section: string, key: string): Option<string> {
    if !r.saves && section == "gui" && key == "autosave_interval" then Some("0")
    else if !r.saves && section == "gui" && (key == "autosave_on_exit" || key == "autosave_on_network_disconnect") then Some("false")
    else if r.slots.Some? && section == "difficulty" && key == "max_no_competitors" then r.slots
    else if r.slots.Some? && section == "difficulty" && key == "competitors_interval" then Some("0")
    else LastSet(r.settings, section, key)
  }

  lemma {:induction false} DotAtOf(section: string, key: string)
    requires '.' !in section
    ensures DotAt(section + "." + key) == |section|
    decreases |section|
  {
    var s := section + "." + key;
    if section != "" {
      assert s[0] == section[0] && section[0] in section;
      assert s[1..] == section[1..] + "." + key;
      DotAtOf(section[1..], key);
    }
  }

  lemma {:induction false} DotAtIs(s: string)
    ensures '.' !in s[..DotAt(s)] && (DotAt(s) < |s| ==> s[DotAt(s)] == '.')
    decreases |s|
  {
    var n := DotAt(s);
    if s != "" && s[0] != '.' {
      DotAtIs(s[1..]);
      assert s[..n] == [s[0]] + s[1..][..n - 1];
    }
  }

  lemma AroundDot(s: string, n: nat)
    requires n < |s| && s[n] == '.'
    ensures s == s[..n] + "." + s[n + 1..]
  {
  }

  /** A setting's patch names the section and key that the setting sets. */
  lemma SettingNames(setting: (string, string), section: string, key: string)
    requires Emitted(setting) && !IsInternal(setting.0) && !IsGlobalKey(key)
    ensures var name := setting.0;
            IsQualified(name)
            && (Names(Sectional(name[..DotAt(name)], name[DotAt(name) + 1..], setting.1), section, key) <==> Sets(setting, section, key))
  {
    var name := setting.0;
    DotAtIs(name);
    AroundDot(name, DotAt(name));
    if Sets(setting, section, key) {
      DotAtOf(section, key);
      PartsOfDotted(section, key);
    }
  }

  lemma PartsOfDotted(section: string, key: string)
    ensures var s := section + "." + key; s[..|section|] == section && s[|section| + 1..] == key
  {
  }

  lemma {:induction false} SettingPatchesOf(settings: seq<(string, string)>)
    requires settings != []
    ensures SettingPatches(settings) == SettingPatches(settings[..|settings| - 1]) + SettingPatches([settings[|settings| - 1]])
    decreases |settings|
  {
    if |settings| > 1 {
      SettingPatchesOf(settings[1..]);
      assert settings[..|settings| - 1][1..] == settings[1..][..|settings| - 2];
    } else {
      assert settings == [settings[0]];
    }
  }

  lemma LastOfConcat(a: seq<Patch>, b: seq<Patch>, section: string, key: string)
    ensures LastGiven(a + b, section, key) == if LastGiven(b, section, key).Some? then LastGiven(b, section, key) else LastGiven(a, section, key)
    decreases |b|
  {
    if b == [] {
      assert a + b == a;
    } else {
      assert (a + b)[..|a + b| - 1] == a + b[..|b| - 1];
      LastOfConcat(a, b[..|b| - 1], section, key);
    }
  }

  lemma {:induction false} SettingsGive(settings: seq<(string, string)>, section: string, key: string)
    requires (forall i :: 0 <= i < |settings| ==> Emitted(settings[i])) && !IsGlobalKey(key)
    ensures LastGiven(SettingPatches(settings), section, key) == LastSet(settings, section, key)
    decreases |settings|
  {
    if settings != [] {
      var front, last := settings[..|settings| - 1], settings[|settings| - 1];
      SettingsGive(front, section, key);
      SettingPatchesOf(settings);
      LastOfConcat(SettingPatches(front), SettingPatches([last]), section, key);
      assert Emitted(last);
      if IsInternal(last.0) {
        assert SettingPatches([last]) == [];
      } else {
        SettingNames(last, section, key);
        var p := Sectional(last.0[..DotAt(last.0)], last.0[DotAt(last.0) + 1..], last.1);
        assert SettingPatches([last]) == [p];
        assert LastGiven([p], section, key) == if Names(p, section, key) then Some(p.value) else None;
      }
    }
  }

  lemma OneGives(p: Patch, section: string, key: string)
    ensures LastGiven([p], section, key) == if Names(p, section, key) then Some(p.value) else None
  {
  }

  lemma ThreeGive(a: Patch, b: Patch, c: Patch, section: string, key: string)
    ensures LastGiven([a, b, c], section, key)
            == if Names(c, section, key) then Some(c.value) else if Names(b, section, key) then Some(b.value)
               else if Names(a, section, key) then Some(a.value) else None
  {
    assert [a, b, c][..2] == [a, b] && [a, b][..1] == [a];
    OneGives(a, section, key);
  }

  lemma PortsGiveNothing(r: Request, section: string, key: string)
    requires !IsGlobalKey(key)
    ensures LastGiven(PortPatches(r), section, key) == None
  {
    var ps := PortPatches(r);
    assert ps[..1] == [ps[0]] && ps == [ps[0], ps[1]];
    OneGives(ps[0], section, key);
  }

  lemma SlotsGive(r: Request, section: string, key: string)
    requires !IsGlobalKey(key)
    ensures LastGiven(SlotPatches(r), section, key)
            == if r.slots.Some? && section == "difficulty" && key == "max_no_competitors" then r.slots
               else if r.slots.Some? && section == "difficulty" && key == "competitors_interval" then Some("0")
               else None
  {
    if r.slots.Some? {
      var ps := SlotPatches(r);
      ThreeGive(ps[0], ps[1], ps[2], section, key);
      assert "competitors_interval"[0] != "max_no_competitors"[0];
    }
  }

  lemma AutosaveGives(r: Request, section: string, key: string)
    ensures LastGiven(AutosavePatches(r), section, key)
            == if !r.saves && section == "gui" && key == "autosave_interval" then Some("0")
               else if !r.saves && section == "gui" && (key == "autosave_on_exit" || key == "autosave_on_network_disconnect") then
                 Some("false")
               else None
  {
    if !r.saves {
      var ps := AutosavePatches(r);
      ThreeGive(ps[0], ps[1], ps[2], section, key);
      assert "autosave_interval"[9] == 'i' && "autosave_on_exit"[9] == 'o' && "autosave_on_network_disconnect"[9] == 'o';
    }
  }

  lemma PatchesGive(r: Request, section: string, key: string)
    requires GoodRequest(r) && !IsGlobalKey(key)
    ensures LastGiven(Patches(r), section, key) == Asked(r, section, key)
  {
    LastOfConcat(PortPatches(r), SettingPatches(r.settings), section, key);
    LastOfConcat(PortPatches(r) + SettingPatches(r.settings), SlotPatches(r), section, key);
    LastOfConcat(PortPatches(r) + SettingPatches(r.settings) + SlotPatches(r), AutosavePatches(r), section, key);
    PortsGiveNothing(r, section, key);
    SettingsGive(r.settings, section, key);
    SlotsGive(r, section, key);
    AutosaveGives(r, section, key);
  }

  /**
    Every key of every section reads in the finished file as the request last says, and as in the
    template where it says nothing; but a key whose line in the template is indented always stays.
  */
  lemma FileReadsAsAsked(content: string, r: Request, section: string, key: string)
    requires GoodRequest(r) && TidyTemplate(content) && CleanKey(key) && !IsGlobalKey(key)
    ensures Lookup(Built(content, r), section, key)
            == if HitsIndented(Split(content), false, Header(section), key) || Asked(r, section, key).None? then
                 Lookup(content, section, key)
               else Asked(r, section, key)
  {
    BuiltIsApplied(content, r);
    PatchesAreGood(r);
    AppliedReads(content, Patches(r), section, key);
    PatchesGive(r, section, key);
  }

  /**
    The company slots override whatever template and settings said about them, unless the template's
    own line for them is indented: then the template's value stays.
  */
  lemma SlotsOverride(content: string, r: Request)
    requires r.slots.Some? && GoodRequest(r) && TidyTemplate(content)
    ensures Lookup(Built(content, r), "difficulty", "max_no_competitors")
            == if HitsIndented(Split(content), false, "[difficulty]", "max_no_competitors")
               then Lookup(content, "difficulty", "max_no_competitors") else r.slots
  {
    SlotKeysAreClean();
    SlotKeysAreNotGlobal();
    SlotsAreAsked(r);
    assert Header("difficulty") == "[difficulty]";
    FileReadsAsAsked(content, r, "difficulty", "max_no_competitors");
  }

  lemma SlotsAreAsked(r: Request)
    requires r.slots.Some?
    ensures Asked(r, "difficulty", "max_no_competitors") == r.slots
  {
    assert "difficulty"[0] != "gui"[0];
  }

  lemma InternalsAreAsked(r: Request, section: string, key: string)
    requires IsInternal(key)
    ensures Asked(r, section, key) == LastSet(r.settings, section, key) && !IsGlobalKey(key)
  {
    NotInternal("server_port", key);
    NotInternal("server_admin_port", key);
    NotInternal("ai_in_multiplayer", key);
    NotInternal("max_no_competitors", key);
    NotInternal("competitors_interval", key);
    NotInternal("autosave_interval", key);
    NotInternal("autosave_on_exit", key);
    NotInternal("autosave_on_network_disconnect", key);
  }

  lemma NotInternal(name: string, key: string)
    requires name != "" && name[0] != '_' && IsInternal(key)
    ensures name != key
  {
  }

  /**
    A key of nttd's own, with its leading underscore, reads in the finished file as it did in the
    template, in every section, unless some setting of OpenTTD has that very name.
  */
  lemma InternalKeysLeaveNoTrace(content: string, r: Request, section: string, key: string)
    requires GoodRequest(r) && TidyTemplate(content) && CleanKey(key) && IsInternal(key)
    requires forall i :: 0 <= i < |r.settings| ==> !Sets(r.settings[i], section, key)
    ensures Lookup(Built(content, r), section, key) == Lookup(content, section, key)
  {
    InternalsAreAsked(r, section, key);
    NeverSet(r.settings, section, key);
    FileReadsAsAsked(content, r, section, key);
  }

  lemma {:induction false} NeverSet(settings: seq<(string, string)>, section: string, key: string)
    requires forall i :: 0 <= i < |settings| ==> !Sets(settings[i], section, key)
    ensures LastSet(settings, section, key) == None
    decreases |settings|
  {
    if settings != [] {
      NeverSet(settings[..|settings| - 1], section, key);
    }
  }

  // ---------------------------------------------------------------- keys without a section

  /** What the lines that begin with the key give it, in any section. */
  function Said(ls: seq<string>, key: string): seq<string> {
    if ls == [] then []
    else (if MatchLength(key, ls[0]) >= 0 && Setting(ls[0]).Some? then [Setting(ls[0]).value.1] else []) + Said(ls[1..], key)
  }

  /** Some line gives the key its value, and every line that begins with it gives that. */
  predicate AllSay(ls: seq<string>, key: string, value: string) {
    Said(ls, key) != [] && forall v :: v in Said(ls, key) ==> v == value
  }

  lemma SaidLine(line: string, rest: seq<string>, key: string)
    ensures Said([line] + rest, key)
            == (if MatchLength(key, line) >= 0 && Setting(line).Some? then [Setting(line).value.1] else []) + Said(rest, key)
  {
    assert ([line] + rest)[1..] == rest;
  }

  /** A line that begins with another key says nothing of this one. */
  lemma OtherLineIsSilent(line: string, key: string, other: string)
    requires CleanKey(key) && CleanKey(other) && key != other && MatchLength(other, line) >= 0
    ensures MatchLength(key, line) < 0
  {
    if MatchLength(key, line) >= 0 {
      SubstituteSets(key, "", line);
      SubstituteSets(other, "", line);
    }
  }

  lemma PatchedLineIsSilent(line: string, key: string, other: string, value: string)
    requires CleanKey(key) && CleanKey(other) && key != other && CleanValue(value) && MatchLength(other, line) >= 0
    ensures MatchLength(key, line) < 0 && MatchLength(key, Substitute(other, value, line)) < 0
  {
    OtherLineIsSilent(line, key, other);
    var patched := Substitute(other, value, line);
    SubstituteSets(other, value, line);
    if MatchLength(key, patched) >= 0 {
      SubstituteSets(key, "", patched);
    }
  }

  lemma NewLinesAreSilent(section: string, key: string, other: string, value: string)
    requires CleanKey(key) && CleanKey(other) && key != other && CleanValue(value)
    ensures MatchLength(key, KeyValue(other, value)) < 0 && MatchLength(key, "") < 0 && MatchLength(key, Header(section)) < 0
  {
    KeyValueSets(other, value);
    if MatchLength(key, KeyValue(other, value)) >= 0 {
      SubstituteSets(key, "", KeyValue(other, value));
    }
  }

  /** A section patch of another key leaves what is said of this one. */
  lemma {:induction false} PatchKeepsSaid(ls: seq<string>, inside: bool, section: string, key: string, value: string, other: string)
    requires CleanKey(key) && CleanKey(other) && key != other && CleanValue(value)
    ensures Said(PatchRest(ls, inside, Header(section), key, value), other) == Said(ls, other)
    decreases |ls|
  {
    var h, kv := Header(section), KeyValue(key, value);
    NewLinesAreSilent(section, other, key, value);
    if ls == [] {
      assert ["", h, kv] == [""] + [h, kv] && [h, kv] == [h] + [kv] && [kv] == [kv] + [];
      SaidLine("", [h, kv], other);
      SaidLine(h, [kv], other);
      SaidLine(kv, [], other);
    } else {
      var line, rest := ls[0], ls[1..];
      if Strip(line) == h {
        SaidLine(line, PatchRest(rest, true, h, key, value), other);
        PatchKeepsSaid(rest, true, section, key, value, other);
      } else if inside && IsHeader(line) {
        SaidLine(kv, ls, other);
      } else if inside && MatchLength(key, Strip(line)) >= 0 {
        SaidLine(Substitute(key, value, line), rest, other);
        if MatchLength(key, line) >= 0 {
          PatchedLineIsSilent(line, other, key, value);
        }
      } else {
        SaidLine(line, PatchRest(rest, inside, h, key, value), other);
        PatchKeepsSaid(rest, inside, section, key, value, other);
      }
    }
  }

  lemma {:induction false} SubLinesKeepSaid(ls: seq<string>, key: string, value: string, other: string)
    requires CleanKey(key) && CleanKey(other) && key != other && CleanValue(value)
    ensures Said(SubLines(key, value, ls), other) == Said(ls, other)
    decreases |ls|
  {
    if ls != [] {
      SaidLine(Substitute(key, value, ls[0]), SubLines(key, value, ls[1..]), other);
      SubLinesKeepSaid(ls[1..], key, value, other);
      if MatchLength(key, ls[0]) >= 0 {
        PatchedLineIsSilent(ls[0], other, key, value);
      }
    }
  }

  lemma {:induction false} SaidConcat(a: seq<string>, b: seq<string>, key: string)
    ensures Said(a + b, key) == Said(a, key) + Said(b, key)
    decreases |a|
  {
    if a == [] {
      assert a + b == b;
    } else {
      assert (a + b)[1..] == a[1..] + b;
      SaidConcat(a[1..], b, key);
    }
  }

  predicate Matched(ls: seq<string>, key: string) {
    exists i :: 0 <= i < |ls| && MatchLength(key, ls[i]) >= 0
  }

  lemma MatchedLine(line: string, rest: seq<string>, key: string)
    ensures Matched([line] + rest, key) <==> MatchLength(key, line) >= 0 || Matched(rest, key)
  {
    var ls := [line] + rest;
    assert ls[0] == line && forall i :: 0 <= i < |rest| ==> ls[i + 1] == rest[i];
  }

  /** A global patch gives every line of its key the value; where no line matches, nothing was said. */
  lemma {:induction false} SubLinesSay(ls: seq<string>, key: string, value: string)
    requires CleanKey(key) && CleanValue(value)
    ensures forall v :: v in Said(SubLines(key, value, ls), key) ==> v == value
    ensures Matched(ls, key) ==> Said(SubLines(key, value, ls), key) != []
    ensures Said(ls, key) != [] ==> Matched(ls, key)
    decreases |ls|
  {
    if ls != [] {
      SaidLine(Substitute(key, value, ls[0]), SubLines(key, value, ls[1..]), key);
      SubLinesSay(ls[1..], key, value);
      assert ls == [ls[0]] + ls[1..];
      MatchedLine(ls[0], ls[1..], key);
      if MatchLength(key, ls[0]) >= 0 {
        SubstituteSets(key, value, ls[0]);
        PatchedLineMatches(key, value, ls[0]);
      }
    }
  }

  lemma PatchedLineMatches(key: string, value: string, line: string)
    requires MatchLength(key, line) >= 0
    ensures MatchLength(key, Substitute(key, value, line)) >= 0
  {
    var w, v, rest := MatchParts(key, line);
    AssignedConcat(key, w, v, value);
    MatchOf(key, w, v + value);
  }

  lemma GlobalPatchSays(content: string, key: string, value: string)
    requires CleanKey(key) && CleanValue(value) && Tidy(key, Split(content))
    ensures AllSay(Split(PatchGlobally(content, key, value)), key, value)
  {
    var ls := Split(content);
    GlobalPatchLines(content, key, value);
    JoinSplit(content);
    FoundIsLinewise(key, ls);
    SubLinesSay(ls, key, value);
    if !FoundIn(key, content) {
      NewLineSays(ls, key, value);
    }
  }

  lemma SaidOfTwo(kv: string, key: string)
    requires key != ""
    ensures Said([kv, ""], key) == if MatchLength(key, kv) >= 0 && Setting(kv).Some? then [Setting(kv).value.1] else []
  {
    assert [kv, ""] == [kv] + [""] && [""] == [""] + [];
    SaidLine(kv, [""], key);
    SaidLine("", [], key);
  }

  lemma NewLineSays(ls: seq<string>, key: string, value: string)
    requires CleanKey(key) && CleanValue(value) && Said(ls, key) == []
    ensures AllSay(ls + [KeyValue(key, value), ""], key, value)
  {
    SaidConcat(ls, [KeyValue(key, value), ""], key);
    SaidOfTwo(KeyValue(key, value), key);
    KeyValueSets(key, value);
    NewLineMatches(key, value);
  }

  lemma NewLineMatches(key: string, value: string)
    ensures MatchLength(key, KeyValue(key, value)) >= 0
  {
    KeyValueIsAssigned(key, value);
    MatchOf(key, " ", " " + value);
  }

  lemma OtherPatchKeepsSaid(content: string, p: Patch, key: string)
    requires Good(p) && TidyTemplate(content) && CleanKey(key) && p.key != key
    ensures Said(Split(Patched(content, p)), key) == Said(Split(content), key)
  {
    var ls := Split(content);
    match p
    case Global(k, value) =>
      GlobalPatchLines(content, k, value);
      SubLinesKeepSaid(ls, k, value, key);
      NewLinesAreSilent("", key, k, value);
      SaidConcat(ls, [KeyValue(k, value), ""], key);
      SaidOfTwo(KeyValue(k, value), key);
    case Sectional(section, k, value) =>
      PatchedAreLines(ls, false, section, k, value);
      SplitJoin(PatchRest(ls, false, Header(section), k, value));
      PatchKeepsSaid(ls, false, section, k, value, key);
  }

  /** No section patch names the key. */
  predicate OnlyGlobally(ps: seq<Patch>, key: string) {
    forall p :: p in ps && p.key == key ==> p.Global?
  }

  /** A key that is only ever patched globally: every line of its says what the last patch does. */
  lemma {:induction false} AppliedSays(content: string, ps: seq<Patch>, key: string)
    requires AllGood(ps) && TidyTemplate(content) && CleanKey(key) && OnlyGlobally(ps, key)
    ensures var given := LastGiven(ps, "", key);
            if given.Some? then AllSay(Split(Applied(content, ps)), key, given.value)
            else Said(Split(Applied(content, ps)), key) == Said(Split(content), key)
    decreases |ps|
  {
    if ps != [] {
      var front, last := ps[..|ps| - 1], ps[|ps| - 1];
      assert ps == front + [last];
      AppliedConcat(content, front, [last]);
      var before := Applied(content, front);
      AppliedOne(before, last);
      AppliedKeepsTemplateTidy(content, front);
      if last.key == key {
        assert last in ps;
        GlobalPatchSays(before, key, last.value);
      } else {
        AppliedSays(content, front, key);
        OtherPatchKeepsSaid(before, last, key);
      }
    }
  }

  ghost predicate NoneSets(settings: seq<(string, string)>, key: string) {
    forall i, section :: 0 <= i < |settings| ==> !Sets(settings[i], section, key)
  }

  predicate NoneHasKey(ps: seq<Patch>, key: string) {
    forall p :: p in ps ==> p.key != key
  }

  lemma {:induction false} NothingGiven(ps: seq<Patch>, section: string, key: string)
    requires NoneHasKey(ps, key)
    ensures LastGiven(ps, section, key) == None
    decreases |ps|
  {
    if ps != [] {
      assert ps[|ps| - 1] in ps;
      NothingGiven(ps[..|ps| - 1], section, key);
    }
  }

  lemma {:induction false} SettingsLeaveKey(settings: seq<(string, string)>, key: string)
    requires (forall i :: 0 <= i < |settings| ==> Emitted(settings[i])) && NoneSets(settings, key)
    ensures NoneHasKey(SettingPatches(settings), key)
    decreases |settings|
  {
    if settings != [] {
      var name := settings[0].0;
      SettingsLeaveKey(settings[1..], key);
      assert Emitted(settings[0]);
      if !IsInternal(name) {
        DotAtIs(name);
        AroundDot(name, DotAt(name));
        assert !Sets(settings[0], name[..DotAt(name)], key);
      }
    }
  }

  /** What a request says about the keys that stand in no section. */
  function AskedGlobally(r: Request, key: string): Option<string> {
    if key == "server_port" then Some(r.gamePort)
    else if key == "server_admin_port" then Some(r.adminPort)
    else if key == "ai_in_multiplayer" && r.slots.Some? then Some("true")
    else None
  }

  lemma GlobalNamesDiffer()
    ensures "server_port" != "server_admin_port" && "server_port" != "ai_in_multiplayer" && "server_admin_port" != "ai_in_multiplayer"
  {
    assert "server_port"[7] == 'p' && "server_admin_port"[7] == 'a' && "ai_in_multiplayer"[0] == 'a';
  }

  lemma PortsGive(r: Request, key: string)
    ensures LastGiven(PortPatches(r), "", key)
            == if key == "server_port" then Some(r.gamePort) else if key == "server_admin_port" then Some(r.adminPort) else None
  {
    var ps := PortPatches(r);
    GlobalNamesDiffer();
    assert ps[..1] == [ps[0]] && ps == [ps[0], ps[1]];
    OneGives(ps[0], "", key);
  }

  lemma SlotsGiveGlobally(r: Request, key: string)
    requires IsGlobalKey(key)
    ensures LastGiven(SlotPatches(r), "", key) == if r.slots.Some? && key == "ai_in_multiplayer" then Some("true") else None
    ensures OnlyGlobally(SlotPatches(r), key) && NoneHasKey(AutosavePatches(r), key)
  {
    SlotKeysAreNotGlobal();
    AutosaveKeysAreNotGlobal();
    if r.slots.Some? {
      var ps := SlotPatches(r);
      ThreeGive(ps[0], ps[1], ps[2], "", key);
    }
  }

  lemma PatchesGiveGlobally(r: Request, key: string)
    requires GoodRequest(r) && IsGlobalKey(key) && NoneSets(r.settings, key)
    ensures LastGiven(Patches(r), "", key) == AskedGlobally(r, key) && OnlyGlobally(Patches(r), key)
  {
    LastOfConcat(PortPatches(r), SettingPatches(r.settings), "", key);
    LastOfConcat(PortPatches(r) + SettingPatches(r.settings), SlotPatches(r), "", key);
    LastOfConcat(PortPatches(r) + SettingPatches(r.settings) + SlotPatches(r), AutosavePatches(r), "", key);
    GlobalNamesDiffer();
    PortsGive(r, key);
    SettingsLeaveKey(r.settings, key);
    NothingGiven(SettingPatches(r.settings), "", key);
    SlotsGiveGlobally(r, key);
    NothingGiven(AutosavePatches(r), "", key);
  }

  /**
    The ports, each its own, and the switch for companies: unless some setting has that key in a
    section, the finished file has a line that begins with the key, and every such line says what was
    asked for; the switch is as in the template where no slots are asked for.
  */
  lemma GlobalsSayAsAsked(content: string, r: Request, key: string)
    requires GoodRequest(r) && TidyTemplate(content) && IsGlobalKey(key) && NoneSets(r.settings, key)
    ensures var asked, lines := AskedGlobally(r, key), Split(Built(content, r));
            if asked.Some? then AllSay(lines, key, asked.value) else Said(lines, key) == Said(Split(content), key)
  {
    BuiltIsApplied(content, r);
    PatchesAreGood(r);
    GlobalKeysAreClean();
    PatchesGiveGlobally(r, key);
    AppliedSays(content, Patches(r), key);
  }
}
