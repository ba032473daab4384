/**
  The identity of a task: a digest of the scenario id, the map seed and the settings that define
  the problem. The digest is a parameter, taken to be injective where that matters.
*/
module TaskIdentity {
  import opened Options
  import opened Decimals

  type Settings = map<string, string>

  const NON_TASK_KEYS := {
    "_runtime_mode", "_snapshot_interval_days", "_screenshot_interval_seconds", "_screenshot_type",
    "_save_interval_seconds", "_agent_companies", "_ai_opponents", "_scenario_id", "_task_id",
    "_settings_digest", "_profile_version"}

  const DIMENSION_PREFIX := "_dim_"

  predicate IsIgnored(key: string) {
    key in NON_TASK_KEYS || DIMENSION_PREFIX <= key
  }

  function Normalised(settings: Settings): Settings {
    map key | key in settings && !IsIgnored(key) :: settings[key]
  }

  datatype Payload =
    | SettingsPayload(settings: Settings)
    | TaskPayload(scenarioId: string, seed: Option<int>, settings: Settings)

  datatype TaskInstance = TaskInstance(taskId: string, scenarioId: string, seed: Option<int>, settingsDigest: string)

  /** The configured seed: `None` when a text that is no integer makes the conversion fail. */
  function SeedOf(settings: Settings): Option<Option<int>> {
    if "_map_seed" !in settings || settings["_map_seed"] == "" then Some(None)
    else
      match Parsed(settings["_map_seed"])
      case None => None
      case Some(n) => Some(Some(n))
  }

  function Computed(digest: Payload -> string, settings: Settings, scenarioId: string): Option<TaskInstance> {
    match SeedOf(settings)
    case None => None
    case Some(seed) =>
      var task := Normalised(settings);
      Some(TaskInstance(digest(TaskPayload(scenarioId, seed, task)), scenarioId, seed, digest(SettingsPayload(task))))
  }

  ghost predicate Injective(digest: Payload -> string) {
    forall p, q :: digest(p) == digest(q) ==> p == q
  }

  /** A written seed is read back; a blank one is none, as is a missing one, and text that is no integer fails. */
  lemma SeedIsRead(settings: Settings, n: int, text: string)
    ensures SeedOf(settings["_map_seed" := Written(n)]) == Some(Some(n))
    ensures SeedOf(settings["_map_seed" := ""]) == SeedOf(settings - {"_map_seed"}) == Some(None)
    ensures text != "" && Parsed(text) == None ==> SeedOf(settings["_map_seed" := text]) == None
  {
    ParsedOfWritten(n);
    DecimalLength(if n < 0 then -n else n);
  }

  lemma SeedIsNotIgnored()
    ensures !IsIgnored("_map_seed")
  {
    assert "_map_seed"[1] != DIMENSION_PREFIX[1];
  }

  /** The seed is part of the normalised settings already. */
  lemma SeedFollowsSettings(a: Settings, b: Settings)
    requires Normalised(a) == Normalised(b)
    ensures SeedOf(a) == SeedOf(b)
  {
    SeedIsNotIgnored();
    assert "_map_seed" in Normalised(a) <==> "_map_seed" in a;
    assert "_map_seed" in Normalised(b) <==> "_map_seed" in b;
    assert "_map_seed" in a ==> Normalised(a)["_map_seed"] == a["_map_seed"];
    assert "_map_seed" in b ==> Normalised(b)["_map_seed"] == b["_map_seed"];
  }

  /** Two tasks share an id exactly when scenario, seed and normalised settings are the same,
      and the seed adds nothing that the settings do not fix. */
  lemma TaskIdIff(digest: Payload -> string, a: Settings, ida: string, b: Settings, idb: string)
    requires Injective(digest) && SeedOf(a).Some? && SeedOf(b).Some?
    ensures var s, t := Computed(digest, a, ida).value, Computed(digest, b, idb).value;
      && (s.taskId == t.taskId <==> ida == idb && s.seed == t.seed && Normalised(a) == Normalised(b))
      && (s.taskId == t.taskId <==> ida == idb && s.settingsDigest == t.settingsDigest)
  {
    if Normalised(a) == Normalised(b) {
      SeedFollowsSettings(a, b);
    }
  }

  /** Whatever is stored under ignored keys beside the settings, the identity stays. */
  lemma StoredKeysChangeNothing(digest: Payload -> string, settings: Settings, scenarioId: string, stored: Settings)
    requires forall k :: k in stored ==> IsIgnored(k)
    ensures Computed(digest, settings + stored, scenarioId) == Computed(digest, settings, scenarioId)
  {
    var both := settings + stored;
    assert Normalised(both) == Normalised(settings) by {
      assert forall k :: !IsIgnored(k) ==> (k in both <==> k in settings);
      assert forall k :: !IsIgnored(k) && k in settings ==> both[k] == settings[k];
    }
    SeedFollowsSettings(both, settings);
  }

  function With(settings: Settings, key: string, value: string): Settings {
    settings[key := value]
  }

  /** Exactly the display and plumbing keys are ignored: any other key, set to another value,
      makes another task. */
  lemma IgnoredIff(digest: Payload -> string, settings: Settings, scenarioId: string, key: string)
    requires Injective(digest) && SeedOf(settings).Some?
    ensures IsIgnored(key) <==>
            forall value :: Computed(digest, With(settings, key, value), scenarioId) == Computed(digest, settings, scenarioId)
  {
    if IsIgnored(key) {
      forall value ensures Computed(digest, With(settings, key, value), scenarioId) == Computed(digest, settings, scenarioId) {
        assert With(settings, key, value) == settings + map[key := value];
        StoredKeysChangeNothing(digest, settings, scenarioId, map[key := value]);
      }
    } else {
      var value := if key in settings then settings[key] + "0" else "0";
      assert Normalised(With(settings, key, value))[key] == value;
      assert key in Normalised(settings) <==> key in settings;
      if Computed(digest, With(settings, key, value), scenarioId) == Computed(digest, settings, scenarioId) {
        TaskIdIff(digest, With(settings, key, value), scenarioId, settings, scenarioId);
        assert false;
      }
    }
  }

  /** What a session start stores, and what recovery reads back. */
  function Persisted(settings: Settings, agentCompanies: string, aiOpponents: string, task: TaskInstance): Settings {
    settings["_agent_companies" := agentCompanies]["_ai_opponents" := aiOpponents]
      ["_task_id" := task.taskId]["_settings_digest" := task.settingsDigest]
  }

  function ScenarioOf(settings: Settings): string {
    if "_scenario_id" in settings then settings["_scenario_id"] else "unknown"
  }

  /** A recovered session has the identity it was started with. */
  lemma RecoveryKeepsIdentity(digest: Payload -> string, settings: Settings, agentCompanies: string, aiOpponents: string)
    requires SeedOf(settings).Some?
    ensures var task := Computed(digest, settings, ScenarioOf(settings));
      var stored := Persisted(settings, agentCompanies, aiOpponents, task.value);
      Computed(digest, stored, ScenarioOf(stored)) == task
  {
    var task := Computed(digest, settings, ScenarioOf(settings)).value;
    var added := map["_agent_companies" := agentCompanies, "_ai_opponents" := aiOpponents,
                     "_task_id" := task.taskId, "_settings_digest" := task.settingsDigest];
    assert Persisted(settings, agentCompanies, aiOpponents, task) == settings + added;
    StoredKeysChangeNothing(digest, settings, ScenarioOf(settings), added);
  }
}
