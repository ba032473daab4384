/**
  The session's openttd.cfg: the AI check, the port patches, the scenario's settings, the company
  slots and the autosave switches, applied in that order to the template.
*/
module SessionConfig {
  import opened Sequences
  import opened Options
  import opened Text
  import opened Ini
  import opened GlobalPatch
  import opened PatchEffects

  const IDLE_AI_NAME := "nttd Idle"

  // ---------------------------------------------------------------- the AI slots

  /** Index of the first `"` at or after `from`, or -1. */
  function QuoteAt(s: string, from: nat): (i: int)
    requires from <= |s|
    ensures -1 <= i < |s| && (i >= 0 ==> from <= i)
    decreases |s| - from
  {
    if from == |s| then -1 else if s[from] == '"' then from else QuoteAt(s, from + 1)
  }

  /** The AI that a line of the AI section names, if any. */
  function AiNamed(line: string): seq<string> {
    var s := Strip(line);
    if s == "" || s[0] != '"' then []
    else
      var closing := QuoteAt(s, 1);
      if closing > 1 then [s[1..closing]] else []
  }

  function AiPlayers(ls: seq<string>, inside: bool): seq<string> {
    if ls == [] then []
    else if IsHeader(ls[0]) then AiPlayers(ls[1..], Strip(ls[0]) == "[ai_players]")
    else (if inside then AiNamed(ls[0]) else []) + AiPlayers(ls[1..], inside)
  }

  lemma AiLine(line: string, rest: seq<string>, inside: bool)
    ensures AiPlayers([line] + rest, inside)
            == if IsHeader(line) then AiPlayers(rest, Strip(line) == "[ai_players]")
               else (if inside then AiNamed(line) else []) + AiPlayers(rest, inside)
  {
    assert ([line] + rest)[1..] == rest;
  }

  lemma AiTurn(names: seq<string>, lines: seq<string>, i: nat, inside: bool)
    requires i < |lines|
    ensures IsHeader(lines[i]) ==> names + AiPlayers(lines[i..], inside)
                                   == names + AiPlayers(lines[i + 1..], Strip(lines[i]) == "[ai_players]")
    ensures !IsHeader(lines[i]) && inside ==> names + AiPlayers(lines[i..], inside)
                                              == (names + AiNamed(lines[i])) + AiPlayers(lines[i + 1..], inside)
    ensures !IsHeader(lines[i]) && !inside ==> names + AiPlayers(lines[i..], inside) == names + AiPlayers(lines[i + 1..], inside)
  {
    assert lines[i..] == [lines[i]] + lines[i + 1..];
    AiLine(lines[i], lines[i + 1..], inside);
    Regroup(names, AiNamed(lines[i]), AiPlayers(lines[i + 1..], inside));
    assert [] + AiPlayers(lines[i + 1..], inside) == AiPlayers(lines[i + 1..], inside);
  }

  method AiPlayersOf(content: string) returns (names: seq<string>)
    ensures names == AiPlayers(Split(content), false)
  {
    names := [];
    var inside := false;
    var lines := Split(content);
    assert lines[0..] == lines;
    for i := 0 to |lines|
      invariant names + AiPlayers(lines[i..], inside) == AiPlayers(lines, false)
    {
      AiTurn(names, lines, i, inside);
      if IsHeader(lines[i]) {
        inside := Strip(lines[i]) == "[ai_players]";
      } else if inside {
        names := names + AiNamed(lines[i]);
      }
    }
  }

  /** Every slot names the idle AI. */
  predicate OnlyIdle(content: string) {
    forall name :: name in AiPlayers(Split(content), false) ==> name == IDLE_AI_NAME
  }

  // ---------------------------------------------------------------- patches by key

  /** Index of the first `.`, or the length. */
  function DotAt(s: string): (n: nat)
    ensures n <= |s|
  {
    if s == "" || s[0] == '.' then 0 else 1 + DotAt(s[1..])
  }

  predicate IsInternal(key: string) {
    key != "" && key[0] == '_'
  }

  predicate IsQualified(key: string) {
    DotAt(key) < |key| && !IsInternal(key)
  }

  function PatchValue(content: string, key: string, value: string): string {
    if IsQualified(key) then PatchInSection(content, key[..DotAt(key)], key[DotAt(key) + 1..], value)
    else PatchGlobally(content, key, value)
  }

  /** The scenario's settings, in order; keys that start with an underscore are not OpenTTD's. */
  function PatchSettings(content: string, settings: seq<(string, string)>): string
    decreases |settings|
  {
    if settings == [] then content else PatchSettings(PatchPublic(content, settings[0]), settings[1..])
  }

  function PatchPublic(content: string, setting: (string, string)): string {
    if IsInternal(setting.0) then content else PatchValue(content, setting.0, setting.1)
  }

  function Public(settings: seq<(string, string)>): seq<(string, string)> {
    if settings == [] then []
    else (if IsInternal(settings[0].0) then [] else [settings[0]]) + Public(settings[1..])
  }

  /** Internal keys are skipped: the settings without them give the same file. */
  lemma {:induction false} InternalKeysAreSkipped(content: string, settings: seq<(string, string)>)
    ensures PatchSettings(content, settings) == PatchSettings(content, Public(settings))
    decreases |settings|
  {
    if settings != [] {
      InternalKeysAreSkipped(PatchPublic(content, settings[0]), settings[1..]);
      assert ([settings[0]] + Public(settings[1..]))[1..] == Public(settings[1..]);
      assert [] + Public(settings[1..]) == Public(settings[1..]);
    }
  }

  // ---------------------------------------------------------------- the AI slots survive every patch

  /** A key that cannot be mistaken for a slot. */
  predicate PlainKey(key: string) {
    CleanKey(key) && key[0] != '"'
  }

  lemma NamesNoAi(key: string, line: string)
    requires PlainKey(key) && MatchLength(key, Strip(line)) >= 0
    ensures AiNamed(line) == []
  {
    assert Strip(line)[0] == key[0];
  }

  lemma KeyValueNamesNoAi(key: string, value: string)
    requires PlainKey(key) && CleanValue(value)
    ensures AiNamed(KeyValue(key, value)) == [] && !IsHeader(KeyValue(key, value))
  {
    KeyValueSets(key, value);
    NameMatches(key, KeyValue(key, value));
    NamesNoAi(key, KeyValue(key, value));
  }

  lemma SubstituteNamesNoAi(key: string, value: string, line: string)
    requires PlainKey(key) && CleanValue(value) && MatchLength(key, line) >= 0
    ensures AiNamed(line) == [] && AiNamed(Substitute(key, value, line)) == []
    ensures !IsHeader(line) && !IsHeader(Substitute(key, value, line))
  {
    SubstituteSets(key, value, line);
    NameMatches(key, Substitute(key, value, line));
    NamesNoAi(key, Substitute(key, value, line));
    NameMatches(key, line);
    NamesNoAi(key, line);
  }

  lemma AppendedNamesNoAi(inAi: bool, inside: bool, section: string, key: string, value: string)
    requires PlainKey(key) && CleanValue(value)
    ensures AiPlayers(PatchRest([], inside, Header(section), key, value), inAi) == []
  {
    var h, kv := Header(section), KeyValue(key, value);
    HeaderIsHeader(section);
    EmptyLineSaysNothing();
    KeyValueNamesNoAi(key, value);
    assert ["", h, kv] == [""] + [h, kv] && [h, kv] == [h] + [kv] && [kv] == [kv] + [];
    AiLine("", [h, kv], inAi);
    AiLine(h, [kv], inAi);
    AiLine(kv, [], inAi);
    AiLine(kv, [], h == "[ai_players]");
  }

  /** A section patch leaves the AI slots as they are. */
  lemma {:induction false} SectionPatchKeepsAi(ls: seq<string>, inAi: bool, inside: bool,
                                               section: string, key: string, value: string)
    requires PlainKey(key) && CleanValue(value)
    ensures AiPlayers(PatchRest(ls, inside, Header(section), key, value), inAi) == AiPlayers(ls, inAi)
    decreases |ls|
  {
    var h, kv := Header(section), KeyValue(key, value);
    HeaderIsHeader(section);
    if ls == [] {
      AppendedNamesNoAi(inAi, inside, section, key, value);
    } else if Strip(ls[0]) == h {
      SectionPatchKeepsAi(ls[1..], h == "[ai_players]", true, section, key, value);
    } else if inside && IsHeader(ls[0]) {
      KeyValueNamesNoAi(key, value);
      AiLine(kv, ls, inAi);
    } else if inside && MatchLength(key, Strip(ls[0])) >= 0 {
      NamesNoAi(key, ls[0]);
      if MatchLength(key, ls[0]) >= 0 {
        SubstituteNamesNoAi(key, value, ls[0]);
      }
      AiLine(Substitute(key, value, ls[0]), ls[1..], inAi);
    } else {
      SectionPatchKeepsAi(ls[1..], if IsHeader(ls[0]) then Strip(ls[0]) == "[ai_players]" else inAi, inside, section, key, value);
    }
  }

  lemma {:induction false} SubLinesKeepAi(ls: seq<string>, inAi: bool, key: string, value: string)
    requires PlainKey(key) && CleanValue(value)
    ensures AiPlayers(SubLines(key, value, ls), inAi) == AiPlayers(ls, inAi)
    decreases |ls|
  {
    if ls != [] {
      AiLine(Substitute(key, value, ls[0]), SubLines(key, value, ls[1..]), inAi);
      SubLinesKeepAi(ls[1..], if IsHeader(ls[0]) then Strip(ls[0]) == "[ai_players]" else inAi, key, value);
      if MatchLength(key, ls[0]) >= 0 {
        SubstituteNamesNoAi(key, value, ls[0]);
      }
    }
  }

  lemma {:induction false} AiOfAppended(ls: seq<string>, more: seq<string>, inAi: bool)
    requires forall i :: 0 <= i < |more| ==> !IsHeader(more[i]) && AiNamed(more[i]) == []
    ensures AiPlayers(ls + more, inAi) == AiPlayers(ls, inAi)
    decreases |ls| + |more|
  {
    if ls != [] {
      assert (ls + more)[1..] == ls[1..] + more;
      AiOfAppended(ls[1..], more, if IsHeader(ls[0]) then Strip(ls[0]) == "[ai_players]" else inAi);
    } else if more != [] {
      assert ls + more == more;
      assert [] + more[1..] == more[1..];
      AiOfAppended([], more[1..], inAi);
    }
  }

  /** A global patch leaves the AI slots as they are, on tidy lines. */
  lemma GlobalPatchKeepsAi(content: string, key: string, value: string)
    requires PlainKey(key) && CleanValue(value) && Tidy(key, Split(content))
    ensures AiPlayers(Split(PatchGlobally(content, key, value)), false) == AiPlayers(Split(content), false)
  {
    GlobalPatchLines(content, key, value);
    SubLinesKeepAi(Split(content), false, key, value);
    AddedLinesNameNoAi(Split(content), key, value);
  }

  lemma AddedLinesNameNoAi(ls: seq<string>, key: string, value: string)
    requires PlainKey(key) && CleanValue(value)
    ensures AiPlayers(ls + [KeyValue(key, value), ""], false) == AiPlayers(ls, false)
  {
    KeyValueNamesNoAi(key, value);
    EmptyLineSaysNothing();
    AiOfAppended(ls, [KeyValue(key, value), ""], false);
  }

  // ---------------------------------------------------------------- the finished file

  /** What a session asks for; `slots` is the number of company slots, if there are to be any. */
  datatype Request = Request(gamePort: string, adminPort: string, settings: seq<(string, string)>,
                             slots: Option<string>, saves: bool)

  function WithPorts(content: string, r: Request): string {
    PatchGlobally(PatchGlobally(content, "server_port", r.gamePort), "server_admin_port", r.adminPort)
  }

  function WithSettings(content: string, r: Request): string {
    PatchSettings(WithPorts(content, r), r.settings)
  }

  function WithSlots(content: string, slots: Option<string>): string {
    match slots
    case None => content
    case Some(total) =>
      PatchInSection(
        PatchInSection(PatchGlobally(content, "ai_in_multiplayer", "true"), "difficulty", "max_no_competitors", total),
        "difficulty", "competitors_interval", "0")
  }

  function WithoutAutosave(content: string): string {
    PatchInSection(
      PatchInSection(PatchInSection(content, "gui", "autosave_interval", "0"), "gui", "autosave_on_exit", "false"),
      "gui", "autosave_on_network_disconnect", "false")
  }

  function Built(content: string, r: Request): string {
    var slotted := WithSlots(WithSettings(content, r), r.slots);
    if r.saves then slotted else WithoutAutosave(slotted)
  }

  /** Refuses a template with another AI; otherwise applies the patches in their order. */
  method BuildSessionConfig(content: string, r: Request) returns (built: Option<string>)
    ensures built == if OnlyIdle(content) then Some(Built(content, r)) else None
  {
    var names := AiPlayersOf(content);
    if exists name :: name in names && name != IDLE_AI_NAME {
      return None;
    }
    var c := PatchGlobally(content, "server_port", r.gamePort);
    c := PatchGlobally(c, "server_admin_port", r.adminPort);
    for i := 0 to |r.settings|
      invariant PatchSettings(c, r.settings[i..]) == WithSettings(content, r)
    {
      assert r.settings[i..][1..] == r.settings[i + 1..];
      if !IsInternal(r.settings[i].0) {
        c := PatchValue(c, r.settings[i].0, r.settings[i].1);
      }
    }
    if r.slots.Some? {
      c := PatchGlobally(c, "ai_in_multiplayer", "true");
      c := PatchIniValueInSection(c, "difficulty", "max_no_competitors", r.slots.value);
      c := PatchIniValueInSection(c, "difficulty", "competitors_interval", "0");
    }
    if !r.saves {
      c := PatchIniValueInSection(c, "gui", "autosave_interval", "0");
      c := PatchIniValueInSection(c, "gui", "autosave_on_exit", "false");
      c := PatchIniValueInSection(c, "gui", "autosave_on_network_disconnect", "false");
    }
    built := Some(c);
  }

  lemma SlotKeysAreClean()
    ensures PlainKey("max_no_competitors") && PlainKey("competitors_interval") && CleanValue("0") && OneLine("difficulty")
  {
  }

  lemma AutosaveKeysAreClean()
    ensures PlainKey("autosave_interval") && PlainKey("autosave_on_exit") && PlainKey("autosave_on_network_disconnect")
    ensures CleanValue("0") && CleanValue("false") && OneLine("gui")
  {
  }

  lemma GlobalKeysAreClean()
    ensures PlainKey("ai_in_multiplayer") && PlainKey("server_port") && PlainKey("server_admin_port") && CleanValue("true")
  {
  }

  // ---------------------------------------------------------------- the file as a list of patches

  datatype Patch = Global(key: string, value: string) | Sectional(section: string, key: string, value: string)

  function Patched(content: string, p: Patch): string {
    match p
    case Global(key, value) => PatchGlobally(content, key, value)
    case Sectional(section, key, value) => PatchInSection(content, section, key, value)
  }

  function Applied(content: string, ps: seq<Patch>): string
    decreases |ps|
  {
    if ps == [] then content else Applied(Patched(content, ps[0]), ps[1..])
  }

  function SettingPatches(settings: seq<(string, string)>): seq<Patch> {
    if settings == [] then []
    else
      var key := settings[0].0;
      (if IsInternal(key) then []
       else if IsQualified(key) then [Sectional(key[..DotAt(key)], key[DotAt(key) + 1..], settings[0].1)]
       else [Global(key, settings[0].1)])
      + SettingPatches(settings[1..])
  }

  function PortPatches(r: Request): seq<Patch> {
    [Global("server_port", r.gamePort), Global("server_admin_port", r.adminPort)]
  }

  function SlotPatches(r: Request): seq<Patch> {
    match r.slots
    case None => []
    case Some(total) =>
      [Global("ai_in_multiplayer", "true"), Sectional("difficulty", "max_no_competitors", total),
       Sectional("difficulty", "competitors_interval", "0")]
  }

  function AutosavePatches(r: Request): seq<Patch> {
    if r.saves then []
    else [Sectional("gui", "autosave_interval", "0"), Sectional("gui", "autosave_on_exit", "false"),
          Sectional("gui", "autosave_on_network_disconnect", "false")]
  }

  function Patches(r: Request): seq<Patch> {
    PortPatches(r) + SettingPatches(r.settings) + SlotPatches(r) + AutosavePatches(r)
  }

  lemma {:induction false} AppliedConcat(content: string, a: seq<Patch>, b: seq<Patch>)
    ensures Applied(content, a + b) == Applied(Applied(content, a), b)
    decreases |a|
  {
    if a == [] {
      assert a + b == b;
    } else {
      assert (a + b)[1..] == a[1..] + b;
      AppliedConcat(Patched(content, a[0]), a[1..], b);
    }
  }

  lemma {:induction false} SettingsAreApplied(content: string, settings: seq<(string, string)>)
    ensures PatchSettings(content, settings) == Applied(content, SettingPatches(settings))
    decreases |settings|
  {
    if settings != [] {
      var rest := SettingPatches(settings[1..]);
      SettingsAreApplied(PatchPublic(content, settings[0]), settings[1..]);
      if IsInternal(settings[0].0) {
        assert [] + rest == rest;
      } else {
        var p := SettingPatches(settings)[0];
        assert ([p] + rest)[1..] == rest;
      }
    }
  }

  lemma AppliedOne(content: string, p: Patch)
    ensures Applied(content, [p]) == Patched(content, p)
  {
    assert [p][1..] == [];
  }

  lemma AppliedTwo(content: string, a: Patch, b: Patch)
    ensures Applied(content, [a, b]) == Patched(Patched(content, a), b)
  {
    assert [a, b] == [a] + [b];
    AppliedConcat(content, [a], [b]);
    AppliedOne(content, a);
    AppliedOne(Patched(content, a), b);
  }

  lemma AppliedThree(content: string, a: Patch, b: Patch, c: Patch)
    ensures Applied(content, [a, b, c]) == Patched(Patched(Patched(content, a), b), c)
  {
    assert [a, b, c] == [a] + [b, c];
    AppliedConcat(content, [a], [b, c]);
    AppliedOne(content, a);
    AppliedTwo(Patched(content, a), b, c);
  }

  lemma PortsAreApplied(content: string, r: Request)
    ensures WithPorts(content, r) == Applied(content, PortPatches(r))
  {
    AppliedTwo(content, PortPatches(r)[0], PortPatches(r)[1]);
  }

  lemma SlotsAreApplied(content: string, r: Request)
    ensures WithSlots(content, r.slots) == Applied(content, SlotPatches(r))
  {
    if r.slots.Some? {
      AppliedThree(content, SlotPatches(r)[0], SlotPatches(r)[1], SlotPatches(r)[2]);
    }
  }

  lemma AutosaveIsApplied(content: string, r: Request)
    ensures (if r.saves then content else WithoutAutosave(content)) == Applied(content, AutosavePatches(r))
  {
    if !r.saves {
      AppliedThree(content, AutosavePatches(r)[0], AutosavePatches(r)[1], AutosavePatches(r)[2]);
    }
  }

  /** The finished file is the template with the request's patches in order. */
  lemma BuiltIsApplied(content: string, r: Request)
    ensures Built(content, r) == Applied(content, Patches(r))
  {
    PortsAreApplied(content, r);
    SettingsAreApplied(WithPorts(content, r), r.settings);
    SlotsAreApplied(WithSettings(content, r), r);
    AutosaveIsApplied(WithSlots(WithSettings(content, r), r.slots), r);
    AppliedConcat(content, PortPatches(r), SettingPatches(r.settings));
    AppliedConcat(content, PortPatches(r) + SettingPatches(r.settings), SlotPatches(r));
    AppliedConcat(content, PortPatches(r) + SettingPatches(r.settings) + SlotPatches(r), AutosavePatches(r));
  }

  // ---------------------------------------------------------------- what template and request must be like

  /** The keys that are patched without a section. */
  predicate IsGlobalKey(key: string) {
    key == "server_port" || key == "server_admin_port" || key == "ai_in_multiplayer"
  }

  /** Wherever the template names such a key it gives it a value. */
  ghost predicate TidyTemplate(content: string) {
    forall g :: IsGlobalKey(g) ==> Tidy(g, Split(content))
  }

  /** Plain keys and one-line values; only the known keys without a section, and those never emptied. */
  predicate Good(p: Patch) {
    && PlainKey(p.key) && CleanValue(p.value) && (IsGlobalKey(p.key) ==> p.value != "")
    && (p.Global? ==> IsGlobalKey(p.key)) && (p.Sectional? ==> OneLine(p.section))
  }

  ghost predicate AllGood(ps: seq<Patch>) {
    forall p :: p in ps ==> Good(p)
  }

  /** Settings as a scenario emits them: internal, or qualified with a plain key and a one-line value. */
  predicate Emitted(setting: (string, string)) {
    var key := setting.0;
    IsInternal(key) || (IsQualified(key) && Good(Sectional(key[..DotAt(key)], key[DotAt(key) + 1..], setting.1)))
  }

  /** A request with ports and values that are one line, and with emitted settings. */
  ghost predicate GoodRequest(r: Request) {
    && CleanValue(r.gamePort) && r.gamePort != "" && CleanValue(r.adminPort) && r.adminPort != ""
    && (r.slots.Some? ==> CleanValue(r.slots.value))
    && (forall i :: 0 <= i < |r.settings| ==> Emitted(r.settings[i]))
  }

  lemma PortPatchesAreGood(r: Request)
    requires GoodRequest(r)
    ensures AllGood(PortPatches(r))
  {
    GlobalKeysAreClean();
  }

  lemma {:induction false} SettingPatchesAreGood(settings: seq<(string, string)>)
    requires forall i :: 0 <= i < |settings| ==> Emitted(settings[i])
    ensures AllGood(SettingPatches(settings))
    decreases |settings|
  {
    if settings != [] {
      assert Emitted(settings[0]);
      SettingPatchesAreGood(settings[1..]);
    }
  }

  lemma SlotKeysAreNotGlobal()
    ensures !IsGlobalKey("max_no_competitors") && !IsGlobalKey("competitors_interval")
  {
    assert "max_no_competitors"[0] == 'm' && "competitors_interval"[0] == 'c';
  }

  lemma SlotPatchesAreGood(r: Request)
    requires GoodRequest(r)
    ensures AllGood(SlotPatches(r))
  {
    GlobalKeysAreClean();
    SlotKeysAreClean();
    SlotKeysAreNotGlobal();
  }

  lemma AutosaveKeysAreNotGlobal()
    ensures !IsGlobalKey("autosave_interval") && !IsGlobalKey("autosave_on_exit") && !IsGlobalKey("autosave_on_network_disconnect")
  {
    assert "autosave_interval"[1] == 'u' && "autosave_on_exit"[1] == 'u' && "autosave_on_network_disconnect"[1] == 'u';
  }

  lemma AutosavePatchesAreGood(r: Request)
    ensures AllGood(AutosavePatches(r))
  {
    AutosaveKeysAreClean();
    AutosaveKeysAreNotGlobal();
  }

  // ---------------------------------------------------------------- what the patches leave alone

  predicate Names(p: Patch, section: string, key: string) {
    p.key == key && (p.Global? || p.section == section)
  }

  /** The last value that the patches give the key of the section. */
  function LastGiven(ps: seq<Patch>, section: string, key: string): Option<string> {
    if ps == [] then None
    else if Names(ps[|ps| - 1], section, key) then Some(ps[|ps| - 1].value)
    else LastGiven(ps[..|ps| - 1], section, key)
  }

  lemma PatchKeepsTemplateTidy(content: string, p: Patch)
    requires Good(p) && TidyTemplate(content)
    ensures TidyTemplate(Patched(content, p))
  {
    GlobalKeysAreClean();
    forall g | IsGlobalKey(g) ensures Tidy(g, Split(Patched(content, p))) {
      match p
      case Global(key, value) => GlobalPatchKeepsTidy(content, key, value, g);
      case Sectional(section, key, value) => SectionPatchEffects(content, section, key, value, "", g);
    }
  }

  lemma {:induction false} AppliedKeepsTemplateTidy(content: string, ps: seq<Patch>)
    requires AllGood(ps) && TidyTemplate(content)
    ensures TidyTemplate(Applied(content, ps))
    decreases |ps|
  {
    if ps != [] {
      PatchKeepsTemplateTidy(content, ps[0]);
      AppliedKeepsTemplateTidy(Patched(content, ps[0]), ps[1..]);
    }
  }

  /**
    After some patches a key reads as `given` says, or as before where that is nothing or the line
    is indented; and the line is indented exactly when it was before.
  */
  ghost predicate Reads(before: string, after: string, section: string, key: string, given: Option<string>) {
    var indented := HitsIndented(Split(before), false, Header(section), key);
    && HitsIndented(Split(after), false, Header(section), key) == indented
    && Lookup(after, section, key) == if indented || given.None? then Lookup(before, section, key) else given
  }

  lemma PatchReads(content: string, p: Patch, section: string, key: string)
    requires Good(p) && TidyTemplate(content) && CleanKey(key) && !IsGlobalKey(key)
    ensures Reads(content, Patched(content, p), section, key, if Names(p, section, key) then Some(p.value) else None)
  {
    match p
    case Global(k, value) => GlobalPatchEffects(content, k, value, section, key);
    case Sectional(s, k, value) =>
      SectionPatchEffects(content, s, k, value, section, key);
      PatchRefinesUpdate(content, s, k, value);
  }

  lemma ReadsInTurn(a: string, b: string, c: string, section: string, key: string, first: Option<string>, second: Option<string>)
    requires Reads(a, b, section, key, first) && Reads(b, c, section, key, second)
    ensures Reads(a, c, section, key, if second.Some? then second else first)
  {
  }

  /** However many patches: a key reads as the last that names it says, unless its line is indented. */
  lemma {:induction false} AppliedReads(content: string, ps: seq<Patch>, section: string, key: string)
    requires AllGood(ps) && TidyTemplate(content) && CleanKey(key) && !IsGlobalKey(key)
    ensures Reads(content, Applied(content, ps), section, key, LastGiven(ps, section, key))
    decreases |ps|
  {
    if ps != [] {
      var front, last := ps[..|ps| - 1], ps[|ps| - 1];
      assert ps == front + [last];
      AppliedConcat(content, front, [last]);
      var before := Applied(content, front);
      AppliedOne(before, last);
      AppliedReads(content, front, section, key);
      AppliedKeepsTemplateTidy(content, front);
      PatchReads(before, last, section, key);
      ReadsInTurn(content, before, Patched(before, last), section, key, LastGiven(front, section, key),
                  if Names(last, section, key) then Some(last.value) else None);
    }
  }

  lemma PatchesAreGood(r: Request)
    requires GoodRequest(r)
    ensures AllGood(Patches(r))
  {
    PortPatchesAreGood(r);
    SettingPatchesAreGood(r.settings);
    SlotPatchesAreGood(r);
    AutosavePatchesAreGood(r);
  }

  // ---------------------------------------------------------------- the AI slots of the finished file

  function Slots(content: string): seq<string> {
    AiPlayers(Split(content), false)
  }

  lemma SectionPatchKeepsSlots(content: string, section: string, key: string, value: string)
    requires PlainKey(key) && CleanValue(value) && OneLine(section)
    ensures Slots(PatchInSection(content, section, key, value)) == Slots(content)
  {
    var ls := Split(content);
    PatchedAreLines(ls, false, section, key, value);
    SplitJoin(PatchRest(ls, false, Header(section), key, value));
    SectionPatchKeepsAi(ls, false, false, section, key, value);
  }

  lemma PatchKeepsSlots(content: string, p: Patch)
    requires Good(p) && TidyTemplate(content)
    ensures Slots(Patched(content, p)) == Slots(content)
  {
    match p
    case Global(key, value) => GlobalPatchKeepsAi(content, key, value);
    case Sectional(section, key, value) => SectionPatchKeepsSlots(content, section, key, value);
  }

  lemma {:induction false} AppliedKeepsSlots(content: string, ps: seq<Patch>)
    requires AllGood(ps) && TidyTemplate(content)
    ensures Slots(Applied(content, ps)) == Slots(content)
    decreases |ps|
  {
    if ps != [] {
      PatchKeepsSlots(content, ps[0]);
      PatchKeepsTemplateTidy(content, ps[0]);
      AppliedKeepsSlots(Patched(content, ps[0]), ps[1..]);
    }
  }

  /** The finished file names the same AIs as the template: only the idle one. */
  lemma BuiltNamesOnlyTheIdleAi(content: string, r: Request)
    requires OnlyIdle(content) && GoodRequest(r) && TidyTemplate(content)
    ensures Slots(Built(content, r)) == Slots(content) && OnlyIdle(Built(content, r))
  {
    BuiltIsApplied(content, r);
    PatchesAreGood(r);
    AppliedKeepsSlots(content, Patches(r));
  }
}
