/**
  The bounded action tracker, and the submission flow that uses it to answer retries of settled
  actions without running them again.
*/
module Tracker {
  import opened Options
  import opened Sequences
  import opened OrderedMaps

  datatype Status = Pending | Validated | Rejected | Executing | Success | Failed | Partial | Blocked

  datatype Envelope = Envelope(actionId: string, actionType: string)

  datatype Result = Result(actionId: string, status: Status, error: string, code: Option<int>, name: string,
                           category: string, changed: map<string, string>)

  predicate IsSettled(s: Status) {
    s in {Success, Partial, Failed, Rejected, Blocked}
  }

  /** A result with nothing but an id, a status and an error line. */
  function Plain(id: string, status: Status, error: string): Result {
    Result(id, status, error, None, "", "", map[])
  }

  // ---------------------------------------------------------------- the tracker's state

  datatype Store = Store(actions: OrderedMap<string, Envelope>, results: OrderedMap<string, Result>)

  function Trimmed(s: Store, limit: nat): Store
    decreases |s.actions|
  {
    if |s.actions| <= limit then s
    else Trimmed(Store(s.actions[1..], Remove(s.results, s.actions[0].0)), limit)
  }

  function Submitted(s: Store, e: Envelope, limit: nat): Store {
    Trimmed(Store(Put(s.actions, e.actionId, e), Put(s.results, e.actionId, Plain(e.actionId, Pending, ""))), limit)
  }

  /** Status and error are replaced; changed entities only by others. */
  function Updated(s: Store, id: string, status: Status, error: string, changed: map<string, string>): Store {
    match Get(s.results, id)
    case None => s
    case Some(r) =>
      s.(results := Put(s.results, id, r.(status := status, error := error, changed := if changed != map[] then changed else r.changed)))
  }

  /** Both maps list the same distinct keys in the same order, no more than the limit. */
  ghost predicate Valid(s: Store, limit: nat) {
    && Keys(s.actions) == Keys(s.results)
    && Distinct(Keys(s.actions))
    && |s.actions| <= limit
  }

  /** Keeps the last `limit` elements. */
  function Latest(ks: seq<string>, limit: nat): seq<string> {
    if |ks| <= limit then ks else ks[|ks| - limit..]
  }

  lemma {:induction false} TrimmedKeepsLatest(s: Store, limit: nat)
    requires Keys(s.actions) == Keys(s.results) && Distinct(Keys(s.actions))
    ensures Valid(Trimmed(s, limit), limit)
    ensures |s.actions| > limit ==> Trimmed(s, limit) == Store(s.actions[|s.actions| - limit..], s.results[|s.actions| - limit..])
    ensures Keys(Trimmed(s, limit).actions) == Latest(Keys(s.actions), limit)
    decreases |s.actions|
  {
    assert |Keys(s.actions)| == |s.actions| && |Keys(s.results)| == |s.results|;
    if |s.actions| > limit {
      assert s.actions[0].0 == Keys(s.actions)[0] == Keys(s.results)[0] == s.results[0].0;
      RemoveFirst(s.results);
      var next := Store(s.actions[1..], s.results[1..]);
      assert Keys(next.actions) == Keys(s.actions)[1..] && Keys(next.results) == Keys(s.results)[1..];
      TrimmedKeepsLatest(next, limit);
    }
  }

  lemma DistinctAppend(ks: seq<string>, k: string)
    requires Distinct(ks) && k !in ks
    ensures Distinct(ks + [k])
  {
  }

  /** Submitting appends a new key, or keeps the place of an old one; eviction is by first insertion. */
  lemma SubmittedKeys(s: Store, e: Envelope, limit: nat)
    requires Valid(s, limit)
    ensures Valid(Submitted(s, e, limit), limit)
    ensures Keys(Submitted(s, e, limit).actions)
            == if e.actionId in Keys(s.actions) then Keys(s.actions) else Latest(Keys(s.actions) + [e.actionId], limit)
  {
    var r := Plain(e.actionId, Pending, "");
    var put := Store(Put(s.actions, e.actionId, e), Put(s.results, e.actionId, r));
    PutKeys(s.actions, e.actionId, e);
    PutKeys(s.results, e.actionId, r);
    if e.actionId !in Keys(s.actions) {
      DistinctAppend(Keys(s.actions), e.actionId);
    }
    assert |Keys(put.actions)| == |put.actions|;
    TrimmedKeepsLatest(put, limit);
  }

  lemma UpdatedKeys(s: Store, id: string, status: Status, error: string, changed: map<string, string>)
    ensures Updated(s, id, status, error, changed).actions == s.actions
    ensures Keys(Updated(s, id, status, error, changed).results) == Keys(s.results)
  {
    GetIff(s.results, id);
    if id in Keys(s.results) {
      var r := Get(s.results, id).value;
      PutKeys(s.results, id, r.(status := status, error := error, changed := if changed != map[] then changed else r.changed));
    }
  }

  // ---------------------------------------------------------------- one submission

  /**
    What the game did with an action that was sent to it. After a reply the stored map is refreshed;
    reading and writing it never fail the action, but working out which tiles to read again can
    raise, and `areaError` says that it did.
  */
  datatype Outcome = Raised(error: string) | Replied(result: Result, areaError: Option<string>)

  /**
    A submission with the circumstances it meets. `denied` says that the token presented is missing,
    unknown or another company's: the request then ends in an HTTP error, after the tracker has
    taken the action in.
  */
  datatype Attempt = Attempt(envelope: Envelope, connected: bool, denied: bool, refusal: Option<Result>, outcome: Outcome)

  const NOT_CONNECTED := "Not connected to OpenTTD"

  predicate WellFormed(a: Attempt) {
    var id := a.envelope.actionId;
    && (a.refusal.Some? ==> IsSettled(a.refusal.value.status) && a.refusal.value == Plain(id, a.refusal.value.status, a.refusal.value.error))
    && (a.outcome.Replied? ==> a.outcome.result.actionId == id && a.outcome.result.status in {Success, Partial, Failed})
  }

  /** The tracker afterwards, the answer if one is returned, and whether the game was sent the action. */
  datatype Answer = Answer(store: Store, response: Option<Result>, sent: bool)

  /** The flow for an action that has not been settled yet. */
  function Executed(s: Store, a: Attempt, limit: nat): Answer {
    var id := a.envelope.actionId;
    var s1 := Submitted(s, a.envelope, limit);
    if !a.connected then Answer(Updated(s1, id, Failed, NOT_CONNECTED, map[]), Some(Plain(id, Failed, NOT_CONNECTED)), false)
    else if a.denied then Answer(s1, None, false)
    else
      match a.refusal
      case Some(r) => Answer(Updated(s1, id, r.status, r.error, map[]), Some(r), false)
      case None =>
        var s2 := Updated(s1, id, Executing, "", map[]);
        match a.outcome
        case Raised(error) => Answer(Updated(s2, id, Failed, error, map[]), Some(Plain(id, Failed, error)), true)
        case Replied(r, None) => Answer(Updated(s2, id, r.status, r.error, r.changed), Some(r), true)
        case Replied(r, Some(error)) =>
          Answer(Updated(Updated(s2, id, r.status, r.error, r.changed), id, Failed, error, map[]),
                 Some(Plain(id, Failed, error)), true)
  }

  function Step(s: Store, a: Attempt, limit: nat): Answer {
    match Get(s.results, a.envelope.actionId)
    case Some(r) => if IsSettled(r.status) then Answer(s, Some(r), false) else Executed(s, a, limit)
    case None => Executed(s, a, limit)
  }

  /** The submission gets past the connection, the token and the admission to the game. */
  predicate GoesThrough(a: Attempt) {
    a.connected && !a.denied && a.refusal.None?
  }

  /** What the tracker holds about the action after a submission that was not answered from it. */
  function Recorded(a: Attempt): Result {
    var id := a.envelope.actionId;
    if !a.connected then Plain(id, Failed, NOT_CONNECTED)
    else if a.denied then Plain(id, Pending, "")
    else
      match a.refusal
      case Some(r) => Plain(id, r.status, r.error)
      case None =>
        match a.outcome
        case Raised(error) => Plain(id, Failed, error)
        case Replied(r, None) => Plain(id, r.status, r.error).(changed := r.changed)
        case Replied(r, Some(error)) => Plain(id, Failed, error).(changed := r.changed)
  }

  predicate Settled(s: Store, id: string) {
    match Get(s.results, id)
    case None => false
    case Some(r) => IsSettled(r.status)
  }

  /** The bookkeeping, and every stored result either settled or still as it was taken in. */
  ghost predicate Inv(s: Store, limit: nat) {
    && Valid(s, limit)
    && (forall k :: k in Keys(s.results) ==> Settled(s, k) || Get(s.results, k) == Some(Plain(k, Pending, "")))
  }

  lemma UpdatedGet(s: Store, id: string, status: Status, error: string, changed: map<string, string>, k: string)
    ensures Get(Updated(s, id, status, error, changed).results, k)
            == if k == id && Get(s.results, id).Some? then
                 Some(Get(s.results, id).value.(status := status, error := error,
                                                changed := if changed != map[] then changed else Get(s.results, id).value.changed))
               else Get(s.results, k)
  {
    if Get(s.results, id).Some? {
      var r := Get(s.results, id).value;
      PutGet(s.results, id, r.(status := status, error := error, changed := if changed != map[] then changed else r.changed), k);
    }
  }

  /** After submitting an action the tracker holds it as pending, if there is room for any. */
  lemma SubmittedGet(s: Store, e: Envelope, limit: nat, k: string)
    requires Valid(s, limit) && k in Keys(Submitted(s, e, limit).results)
    ensures Get(Submitted(s, e, limit).results, k)
            == if k == e.actionId then Some(Plain(e.actionId, Pending, "")) else Get(s.results, k)
  {
    var id, r := e.actionId, Plain(e.actionId, Pending, "");
    var put := Store(Put(s.actions, id, e), Put(s.results, id, r));
    PutKeys(s.actions, id, e);
    PutKeys(s.results, id, r);
    PutGet(s.results, id, r, k);
    if id !in Keys(s.results) {
      DistinctAppend(Keys(s.results), id);
    }
    assert |Keys(put.actions)| == |put.actions| && |Keys(put.results)| == |put.results|;
    TrimmedKeepsLatest(put, limit);
    if |put.actions| > limit {
      GetInSuffix(put.results, |put.results| - limit, k);
    }
  }

  /**
    An action is answered from the tracker, which sends nothing and changes nothing, exactly when
    the tracker holds it settled; otherwise it is sent exactly when it gets through.
  */
  lemma ReplayedIff(s: Store, a: Attempt, limit: nat)
    ensures Settled(s, a.envelope.actionId) ==>
              Step(s, a, limit) == Answer(s, Some(Get(s.results, a.envelope.actionId).value), false)
    ensures Step(s, a, limit).sent <==> !Settled(s, a.envelope.actionId) && GoesThrough(a)
    ensures Step(s, a, limit).response.None? <==> !Settled(s, a.envelope.actionId) && a.connected && a.denied
  {
  }

  /** The keys in order after a submission: an action held keeps its place, another is appended. */
  function Grown(ks: seq<string>, id: string, limit: nat): seq<string> {
    if id in ks then ks else Latest(ks + [id], limit)
  }

  /** What an action that is not answered from the tracker leaves there, whatever happens to it. */
  lemma ExecutedStore(s: Store, a: Attempt, limit: nat, k: string)
    requires Valid(s, limit) && WellFormed(a)
    ensures var s' := Executed(s, a, limit).store;
            && Valid(s', limit)
            && Keys(s'.results) == Grown(Keys(s.results), a.envelope.actionId, limit)
            && (k in Keys(s'.results) ==>
                  Get(s'.results, k) == if k == a.envelope.actionId then Some(Recorded(a)) else Get(s.results, k))
  {
    var id := a.envelope.actionId;
    var s1 := Submitted(s, a.envelope, limit);
    SubmittedKeys(s, a.envelope, limit);
    if k in Keys(s1.results) {
      SubmittedGet(s, a.envelope, limit, k);
    }
    if !a.connected {
      OneUpdate(s1, limit, id, Failed, NOT_CONNECTED, map[], k);
    } else if a.denied {
    } else if a.refusal.Some? {
      OneUpdate(s1, limit, id, a.refusal.value.status, a.refusal.value.error, map[], k);
    } else {
      ExecutedStoreSent(s1, a, limit, k);
    }
  }

  lemma OneUpdate(s: Store, limit: nat, id: string, status: Status, error: string, changed: map<string, string>, k: string)
    requires Valid(s, limit)
    ensures var s' := Updated(s, id, status, error, changed);
            && Valid(s', limit) && Keys(s'.results) == Keys(s.results)
            && Get(s'.results, k)
               == if k == id && Get(s.results, id).Some? then
                    Some(Get(s.results, id).value.(status := status, error := error,
                                                   changed := if changed != map[] then changed else Get(s.results, id).value.changed))
                  else Get(s.results, k)
  {
    UpdatedKeys(s, id, status, error, changed);
    UpdatedGet(s, id, status, error, changed, k);
  }

  /** The updates around a sent action, on the tracker that holds it as pending. */
  lemma ExecutedStoreSent(s1: Store, a: Attempt, limit: nat, k: string)
    requires Valid(s1, limit) && WellFormed(a) && GoesThrough(a)
    ensures var id := a.envelope.actionId;
            var s2 := Updated(s1, id, Executing, "", map[]);
            var s' := match a.outcome
              case Raised(error) => Updated(s2, id, Failed, error, map[])
              case Replied(r, None) => Updated(s2, id, r.status, r.error, r.changed)
              case Replied(r, Some(error)) => Updated(Updated(s2, id, r.status, r.error, r.changed), id, Failed, error, map[]);
            && Valid(s', limit) && Keys(s'.results) == Keys(s1.results)
            && (k == id && Get(s1.results, id) == Some(Plain(id, Pending, "")) ==> Get(s'.results, k) == Some(Recorded(a)))
            && (k != id ==> Get(s'.results, k) == Get(s1.results, k))
  {
    var id := a.envelope.actionId;
    var s2 := Updated(s1, id, Executing, "", map[]);
    OneUpdate(s1, limit, id, Executing, "", map[], k);
    match a.outcome
    case Raised(error) => OneUpdate(s2, limit, id, Failed, error, map[], k);
    case Replied(r, None) => OneUpdate(s2, limit, id, r.status, r.error, r.changed, k);
    case Replied(r, Some(error)) =>
      OneUpdate(s2, limit, id, r.status, r.error, r.changed, k);
      OneUpdate(Updated(s2, id, r.status, r.error, r.changed), limit, id, Failed, error, map[], k);
  }

  lemma RecordedIsSettledOrPending(a: Attempt)
    requires WellFormed(a)
    ensures if a.connected && a.denied then Recorded(a) == Plain(a.envelope.actionId, Pending, "")
            else IsSettled(Recorded(a).status)
  {
  }

  /**
    Every submission keeps the invariant. A new action joins the order, and the oldest may leave it;
    an action that is held keeps its place, settled or not.
  */
  lemma StepKeepsInv(s: Store, a: Attempt, limit: nat)
    requires Inv(s, limit) && WellFormed(a)
    ensures Inv(Step(s, a, limit).store, limit)
    ensures Keys(Step(s, a, limit).store.results) == Grown(Keys(s.results), a.envelope.actionId, limit)
  {
    var id := a.envelope.actionId;
    GetIff(s.results, id);
    if !Settled(s, id) {
      var s' := Executed(s, a, limit).store;
      ExecutedStore(s, a, limit, id);
      forall k | k in Keys(s'.results) ensures Settled(s', k) || Get(s'.results, k) == Some(Plain(k, Pending, "")) {
        ExecutedStore(s, a, limit, k);
        RecordedIsSettledOrPending(a);
        GrownIsFrom(Keys(s.results), id, limit, k);
      }
    }
  }

  lemma GrownIsFrom(ks: seq<string>, id: string, limit: nat, k: string)
    requires k in Grown(ks, id, limit)
    ensures k in ks || k == id
  {
  }

  /**
    What is stored after a submission: the action itself is settled if it was before, or unless the
    token was refused; any other action that is still held stays as it was.
  */
  lemma StoredAfter(s: Store, a: Attempt, limit: nat, k: string)
    requires Inv(s, limit) && WellFormed(a) && k in Keys(Step(s, a, limit).store.results)
    ensures var id, s' := a.envelope.actionId, Step(s, a, limit).store;
            Get(s'.results, k) == if k == id && !Settled(s, id) then Some(Recorded(a)) else Get(s.results, k)
    ensures var id, s' := a.envelope.actionId, Step(s, a, limit).store;
            k == id ==> (Settled(s', id) <==> Settled(s, id) || !(a.connected && a.denied))
  {
    if !Settled(s, a.envelope.actionId) {
      ExecutedStore(s, a, limit, k);
      RecordedIsSettledOrPending(a);
    }
  }

  // ---------------------------------------------------------------- replays

  /**
    A replay repeats the first answer exactly when that answer carried no error code, name or
    category, and, where working out the touched area raised, the reply named no changed entities.
  */
  lemma ReplayIsFaithfulIff(s: Store, a: Attempt, limit: nat)
    requires Inv(s, limit) && WellFormed(a) && limit >= 1 && !Settled(s, a.envelope.actionId)
    ensures var first := Step(s, a, limit);
            var id := a.envelope.actionId;
            && Get(first.store.results, id) == Some(Recorded(a))
            && (first.response.Some? <==> Settled(first.store, id))
            && (first.response.Some? ==>
                  (Recorded(a) == first.response.value
                   <==> first.sent && a.outcome.Replied? ==>
                          if a.outcome.areaError.Some? then a.outcome.result.changed == map[]
                          else a.outcome.result.code.None? && a.outcome.result.name == "" && a.outcome.result.category == ""))
  {
    var id := a.envelope.actionId;
    ExecutedStore(s, a, limit, id);
    RecordedIsSettledOrPending(a);
    GrownHas(Keys(s.results), id, limit);
  }

  lemma GrownHas(ks: seq<string>, id: string, limit: nat)
    requires limit >= 1
    ensures id in Grown(ks, id, limit)
  {
    if id !in ks {
      assert Latest(ks + [id], limit)[|Latest(ks + [id], limit)| - 1] == id;
    }
  }

  // ---------------------------------------------------------------- runs

  function Run(s: Store, run: seq<Attempt>, limit: nat): Store
    decreases |run|
  {
    if run == [] then s else Run(Step(s, run[0], limit).store, run[1..], limit)
  }

  predicate AllWellFormed(run: seq<Attempt>) {
    forall i :: 0 <= i < |run| ==> WellFormed(run[i])
  }

  /** How many submissions of the run were of actions the tracker did not hold. */
  function Insertions(s: Store, run: seq<Attempt>, limit: nat): nat
    decreases |run|
  {
    if run == [] then 0
    else (if run[0].envelope.actionId in Keys(s.results) then 0 else 1) + Insertions(Step(s, run[0], limit).store, run[1..], limit)
  }

  lemma {:induction false} RunKeepsInv(s: Store, run: seq<Attempt>, limit: nat)
    requires Inv(s, limit) && AllWellFormed(run)
    ensures Inv(Run(s, run, limit), limit)
    decreases |run|
  {
    if run != [] {
      StepKeepsInv(s, run[0], limit);
      RunKeepsInv(Step(s, run[0], limit).store, run[1..], limit);
    }
  }

  /** How many actions were inserted after the one at place `i`. */
  function Behind(s: Store, i: nat): int {
    |Keys(s.results)| - 1 - i
  }

  /** The place of an action after an insertion, negative when the insertion evicts it. */
  function Shifted(s: Store, i: nat, limit: nat): int {
    if |Keys(s.results)| < limit then i else i - 1
  }

  /** An insertion moves every action one place from the end, and evicts the first when there is no room. */
  lemma InsertionShifts(s: Store, a: Attempt, i: nat, limit: nat)
    requires Inv(s, limit) && WellFormed(a) && i < |Keys(s.results)| && a.envelope.actionId !in Keys(s.results)
    ensures var s', j := Step(s, a, limit).store, Shifted(s, i, limit);
            && Inv(s', limit)
            && (if j >= 0 then j < |Keys(s'.results)| && Keys(s'.results)[j] == Keys(s.results)[i] && Behind(s', j) == Behind(s, i) + 1
                else Keys(s.results)[i] !in Keys(s'.results) && Behind(s, i) == limit - 1)
  {
    var ks, id := Keys(s.results), a.envelope.actionId;
    StepKeepsInv(s, a, limit);
    KeysAreFew(s, limit);
    var s' := Step(s, a, limit).store;
    assert Keys(s'.results) == if |ks| < limit then ks + [id] else ks[1..] + [id];
    if Shifted(s, i, limit) < 0 {
      assert Distinct(ks) && ks[0] !in ks[1..];
    }
  }

  /** An action leaves the tracker only after as many insertions as the limit leaves behind it. */
  lemma {:induction false} EvictionTakesInsertions(s: Store, run: seq<Attempt>, limit: nat, i: nat)
    requires Inv(s, limit) && AllWellFormed(run) && i < |Keys(s.results)|
    ensures Keys(s.results)[i] !in Keys(Run(s, run, limit).results) ==> Insertions(s, run, limit) >= limit - Behind(s, i)
    decreases |run|
  {
    if run != [] {
      var a := run[0];
      StepKeepsInv(s, a, limit);
      if a.envelope.actionId in Keys(s.results) {
        EvictionTakesInsertions(Step(s, a, limit).store, run[1..], limit, i);
      } else {
        InsertionShifts(s, a, i, limit);
        if Shifted(s, i, limit) >= 0 {
          EvictionTakesInsertions(Step(s, a, limit).store, run[1..], limit, Shifted(s, i, limit));
        }
      }
    }
  }

  lemma KeysAreFew(s: Store, limit: nat)
    requires Valid(s, limit)
    ensures |Keys(s.results)| == |s.results| == |s.actions| <= limit
  {
    assert |Keys(s.actions)| == |s.actions|;
  }

  /** The tracker holds the action before every submission of the run, and after the last. */
  predicate HeldThroughout(s: Store, run: seq<Attempt>, limit: nat, id: string)
    decreases |run|
  {
    id in Keys(s.results) && (run == [] || HeldThroughout(Step(s, run[0], limit).store, run[1..], limit, id))
  }

  /** For as long as the tracker holds a settled action, a retry sends nothing and returns what was recorded at the start. */
  lemma {:induction false} HeldIsReplayed(s: Store, run: seq<Attempt>, again: Attempt, limit: nat)
    requires Inv(s, limit) && AllWellFormed(run) && WellFormed(again)
    requires Settled(s, again.envelope.actionId) && HeldThroughout(s, run, limit, again.envelope.actionId)
    ensures Step(Run(s, run, limit), again, limit)
            == Answer(Run(s, run, limit), Some(Get(s.results, again.envelope.actionId).value), false)
    decreases |run|
  {
    if run == [] {
      ReplayedIff(s, again, limit);
    } else {
      StepKeepsInv(s, run[0], limit);
      StoredAfter(s, run[0], limit, again.envelope.actionId);
      HeldIsReplayed(Step(s, run[0], limit).store, run[1..], again, limit);
    }
  }

  /** The answer to a submission that the tracker does not answer: the game's own reply, whole, where there is one. */
  lemma FirstAnswerTells(s: Store, a: Attempt, limit: nat)
    requires !Settled(s, a.envelope.actionId)
    ensures var id, response := a.envelope.actionId, Step(s, a, limit).response;
            if !a.connected then response == Some(Result(id, Failed, "Not connected to OpenTTD", None, "", "", map[]))
            else if a.denied then response == None
            else if a.refusal.Some? then response == a.refusal
            else
              match a.outcome
              case Raised(error) => response == Some(Result(id, Failed, error, None, "", "", map[]))
              case Replied(reply, None) => response == Some(reply)
              case Replied(_, Some(error)) => response == Some(Result(id, Failed, error, None, "", "", map[]))
  {
  }

  /**
    A retry of an action that was sent, whatever was submitted in between: it sends nothing, and
    gives the reply's status, error line and changed entities, but no code, name or category.
  */
  lemma RetryTells(s: Store, first: Attempt, between: seq<Attempt>, again: Attempt, limit: nat)
    requires Inv(s, limit) && limit >= 1 && WellFormed(first) && AllWellFormed(between) && WellFormed(again)
    requires Step(s, first, limit).sent && again.envelope.actionId == first.envelope.actionId
    requires HeldThroughout(Step(s, first, limit).store, between, limit, first.envelope.actionId)
    ensures var id := first.envelope.actionId;
            var retry := Step(Run(Step(s, first, limit).store, between, limit), again, limit);
            && !retry.sent
            && match first.outcome
               case Raised(error) => retry.response == Some(Result(id, Failed, error, None, "", "", map[]))
               case Replied(reply, None) =>
                 retry.response == Some(Result(id, reply.status, reply.error, None, "", "", reply.changed))
               case Replied(reply, Some(error)) =>
                 retry.response == Some(Result(id, Failed, error, None, "", "", reply.changed))
  {
    var id := first.envelope.actionId;
    ReplayedIff(s, first, limit);
    StepKeepsInv(s, first, limit);
    StoredAfter(s, first, limit, id);
    HeldIsReplayed(Step(s, first, limit).store, between, again, limit);
  }

  // ---------------------------------------------------------------- how soon an action is sent again

  /** After the run between, a further submission of an action is sent to the game. */
  predicate Resends(s: Store, between: seq<Attempt>, again: Attempt, limit: nat) {
    AllWellFormed(between) && WellFormed(again) && Step(Run(s, between, limit), again, limit).sent
  }

  /** An action settled at place `i` is sent again only after as many insertions as evict it. */
  lemma {:induction false} ResentOnlyAfterEviction(s: Store, i: nat, between: seq<Attempt>, again: Attempt, limit: nat)
    requires Inv(s, limit) && i < |Keys(s.results)| && Settled(s, Keys(s.results)[i])
    requires again.envelope.actionId == Keys(s.results)[i] && Resends(s, between, again, limit)
    ensures Insertions(s, between, limit) >= limit - Behind(s, i)
    decreases |between|
  {
    if between == [] {
      ReplayedIff(s, again, limit);
    } else {
      var a, id := between[0], Keys(s.results)[i];
      StepKeepsInv(s, a, limit);
      if a.envelope.actionId in Keys(s.results) {
        StoredAfter(s, a, limit, id);
        ResentOnlyAfterEviction(Step(s, a, limit).store, i, between[1..], again, limit);
      } else {
        InsertionShifts(s, a, i, limit);
        if Shifted(s, i, limit) >= 0 {
          StoredAfter(s, a, limit, id);
          ResentOnlyAfterEviction(Step(s, a, limit).store, Shifted(s, i, limit), between[1..], again, limit);
        }
      }
    }
  }

  /** An id longer than all of these. */
  function Fresh(ks: seq<string>): string {
    if ks == [] then "x" else Fresh(ks[1..]) + ks[0]
  }

  lemma {:induction false} FreshIsNew(ks: seq<string>)
    ensures |Fresh(ks)| >= 1 && forall k :: k in ks ==> |k| < |Fresh(ks)|
    decreases |ks|
  {
    if ks != [] {
      FreshIsNew(ks[1..]);
      assert forall k :: k in ks ==> k == ks[0] || k in ks[1..];
    }
  }

  /** A submission that gets through, and one that finds the game gone. */
  function Through(id: string): Attempt {
    Attempt(Envelope(id, ""), true, false, None, Raised(""))
  }

  function Offline(id: string): Attempt {
    Attempt(Envelope(id, ""), false, false, None, Raised(""))
  }

  /** The bound is met: submissions of other actions evict the one at place `i` after just as many insertions. */
  lemma {:induction false} EvictingRun(s: Store, i: nat, limit: nat) returns (run: seq<Attempt>)
    requires Inv(s, limit) && i < |Keys(s.results)|
    ensures AllWellFormed(run) && Insertions(s, run, limit) == limit - Behind(s, i)
    ensures Keys(s.results)[i] !in Keys(Run(s, run, limit).results)
    decreases limit - Behind(s, i)
  {
    var a := Offline(Fresh(Keys(s.results)));
    FreshIsNew(Keys(s.results));
    InsertionShifts(s, a, i, limit);
    if Shifted(s, i, limit) >= 0 {
      var rest := EvictingRun(Step(s, a, limit).store, Shifted(s, i, limit), limit);
      run := [a] + rest;
      assert run[1..] == rest;
    } else {
      run := [a];
      assert run[1..] == [];
    }
  }

  /** Where an action stands after it was sent: where it stood, or last. */
  lemma PlaceAfterSending(s: Store, first: Attempt, limit: nat) returns (i: nat)
    requires Inv(s, limit) && WellFormed(first) && limit >= 1 && Step(s, first, limit).sent
    ensures var s1, id := Step(s, first, limit).store, first.envelope.actionId;
            && Inv(s1, limit) && i < |Keys(s1.results)| && Keys(s1.results)[i] == id && Settled(s1, id)
            && (id in Keys(s.results) ==> |Keys(s1.results)| == |Keys(s.results)| && Keys(s.results)[i] == id)
            && (id !in Keys(s.results) ==> Behind(s1, i) == 0)
  {
    var id := first.envelope.actionId;
    StepKeepsInv(s, first, limit);
    GrownHas(Keys(s.results), id, limit);
    StoredAfter(s, first, limit, id);
    ReplayedIff(s, first, limit);
    if id in Keys(s.results) {
      i :| 0 <= i < |Keys(s.results)| && Keys(s.results)[i] == id;
    } else {
      i := |Keys(Step(s, first, limit).store.results)| - 1;
    }
  }

  /** Nothing was inserted after the action, or it is not held. */
  predicate IsLatest(ks: seq<string>, id: string) {
    id in ks ==> ks[|ks| - 1] == id
  }

  /**
    An action is sent to the game again only after `limit` submissions of actions the tracker did
    not hold, exactly when nothing was inserted behind it before it was first sent: a submission
    refused for its token takes the action in, and its place in the order stays.
  */
  lemma FullBoundIff(s: Store, first: Attempt, limit: nat)
    requires Inv(s, limit) && WellFormed(first) && Step(s, first, limit).sent
    ensures var s1, id := Step(s, first, limit).store, first.envelope.actionId;
            (forall between: seq<Attempt>, again: Attempt :: again.envelope.actionId == id && Resends(s1, between, again, limit)
                                      ==> Insertions(s1, between, limit) >= limit)
            <==> IsLatest(Keys(s.results), id)
  {
    var s1, id := Step(s, first, limit).store, first.envelope.actionId;
    KeysAreFew(s, limit);
    if limit >= 1 {
      var i := PlaceAfterSending(s, first, limit);
      if IsLatest(Keys(s.results), id) {
        LatestHasNoneBehind(s, s1, id, i, limit);
        NoneBehindIsFullBound(s1, i, limit);
      } else {
        var run := EvictingRun(s1, i, limit);
        EvictedIsResent(s1, run, id, limit);
        assert Resends(s1, run, Through(id), limit) && Insertions(s1, run, limit) < limit;
      }
    }
  }

  lemma NoneBehindIsFullBound(s: Store, i: nat, limit: nat)
    requires Inv(s, limit) && i < |Keys(s.results)| && Settled(s, Keys(s.results)[i]) && Behind(s, i) == 0
    ensures forall between: seq<Attempt>, again: Attempt ::
              again.envelope.actionId == Keys(s.results)[i] && Resends(s, between, again, limit) ==> Insertions(s, between, limit) >= limit
  {
    forall between: seq<Attempt>, again: Attempt
      | again.envelope.actionId == Keys(s.results)[i] && Resends(s, between, again, limit)
      ensures Insertions(s, between, limit) >= limit
    {
      ResentOnlyAfterEviction(s, i, between, again, limit);
    }
  }

  lemma LatestHasNoneBehind(s: Store, s1: Store, id: string, i: nat, limit: nat)
    requires Valid(s, limit) && i < |Keys(s1.results)| && IsLatest(Keys(s.results), id)
    requires id in Keys(s.results) ==> |Keys(s1.results)| == |Keys(s.results)| && Keys(s.results)[i] == id
    requires id !in Keys(s.results) ==> Behind(s1, i) == 0
    ensures Behind(s1, i) == 0
  {
    var ks := Keys(s.results);
    if id in ks {
      assert Distinct(ks) && ks[i] == ks[|ks| - 1];
    }
  }

  lemma EvictedIsResent(s: Store, run: seq<Attempt>, id: string, limit: nat)
    requires Inv(s, limit) && AllWellFormed(run) && id !in Keys(Run(s, run, limit).results)
    ensures Resends(s, run, Through(id), limit)
  {
    GetIff(Run(s, run, limit).results, id);
    ReplayedIff(Run(s, run, limit), Through(id), limit);
  }

  const EMPTY := Store([], [])

  /** The keys after one submission, where the new action fits or evicts the first of two. */
  lemma KeysOfTwo(s: Store, a: Attempt)
    requires Inv(s, 2) && WellFormed(a) && a.envelope.actionId !in Keys(s.results)
    ensures var ks, id, s' := Keys(s.results), a.envelope.actionId, Step(s, a, 2).store;
            && Inv(s', 2)
            && Keys(s'.results) == (if |ks| < 2 then ks + [id] else ks[1..] + [id])
  {
    StepKeepsInv(s, a, 2);
    KeysAreFew(s, 2);
  }

  lemma EmptyInv()
    ensures Inv(EMPTY, 2) && Keys(EMPTY.results) == []
  {
  }

  /** With room for two, "a" is refused for its token, and then "b" is taken in. */
  lemma RefusedFirst() returns (s: Store)
    ensures s == Run(EMPTY, [Through("a").(denied := true), Offline("b")], 2)
    ensures Inv(s, 2) && Keys(s.results) == ["a", "b"] && !Settled(s, "a")
  {
    var denied, offline := Through("a").(denied := true), Offline("b");
    EmptyInv();
    KeysOfTwo(EMPTY, denied);
    var s0 := Step(EMPTY, denied, 2).store;
    assert Keys(s0.results) == ["a"];
    StoredAfter(EMPTY, denied, 2, "a");
    KeysOfTwo(s0, offline);
    s := Step(s0, offline, 2).store;
    StoredAfter(s0, offline, 2, "a");
    assert [denied, offline][1..] == [offline] && [offline][1..] == [];
    assert Run(s0, [offline], 2) == Run(s, [], 2) == s;
  }

  /** And then "a" is sent, one insertion evicts it, and it is sent again. */
  lemma RefusedTokenShortensTheBound() returns (s: Store, between: seq<Attempt>)
    ensures s == Run(EMPTY, [Through("a").(denied := true), Offline("b")], 2) && Inv(s, 2)
    ensures Step(s, Through("a"), 2).sent
    ensures var s1 := Step(s, Through("a"), 2).store;
            Insertions(s1, between, 2) == 1 && Resends(s1, between, Through("a"), 2)
  {
    s := RefusedFirst();
    ReplayedIff(s, Through("a"), 2);
    StepKeepsInv(s, Through("a"), 2);
    var s1 := Step(s, Through("a"), 2).store;
    between := EvictingRun(s1, 0, 2);
    EvictedIsResent(s1, between, "a", 2);
  }

  // ---------------------------------------------------------------- the tracker object

  class ActionTracker {
    var actions: OrderedMap<string, Envelope>
    var results: OrderedMap<string, Result>
    const maxHistory: nat

    function State(): Store
      reads this
    {
      Store(actions, results)
    }

    constructor (maxHistory: nat)
      ensures State() == Store([], []) && this.maxHistory == maxHistory
    {
      this.maxHistory := maxHistory;
      actions, results := [], [];
    }

    method Submit(e: Envelope) returns (r: Result)
      modifies this`actions, this`results
      ensures State() == Submitted(old(State()), e, maxHistory) && r == Plain(e.actionId, Pending, "")
    {
      actions := Put(actions, e.actionId, e);
      r := Plain(e.actionId, Pending, "");
      results := Put(results, e.actionId, r);
      Trim();
    }

    method Trim()
      modifies this`actions, this`results
      ensures State() == Trimmed(old(State()), maxHistory)
    {
      while |actions| > maxHistory
        invariant Trimmed(State(), maxHistory) == Trimmed(old(State()), maxHistory)
        decreases |actions|
      {
        var key := actions[0].0;
        actions := actions[1..];
        results := Remove(results, key);
      }
    }

    method UpdateResult(id: string, status: Status, error: string, changed: map<string, string>)
      modifies this`results
      ensures State() == Updated(old(State()), id, status, error, changed)
    {
      var stored := Get(results, id);
      if stored.Some? {
        var r := stored.value.(status := status, error := error);
        if changed != map[] {
          r := r.(changed := changed);
        }
        results := Put(results, id, r);
      }
    }

    method GetResult(id: string) returns (r: Option<Result>)
      ensures r == Get(results, id)
    {
      r := Get(results, id);
    }
  }

  /** The submission route: a settled action is answered from the tracker, any other is carried out. */
  method SubmitAction(tracker: ActionTracker, a: Attempt) returns (response: Option<Result>, sent: bool)
    modifies tracker`actions, tracker`results
    ensures Answer(tracker.State(), response, sent) == Step(old(tracker.State()), a, tracker.maxHistory)
  {
    var id := a.envelope.actionId;
    sent := false;
    var existing := tracker.GetResult(id);
    if existing.Some? && IsSettled(existing.value.status) {
      return existing, false;
    }
    var pending := tracker.Submit(a.envelope);
    if !a.connected {
      tracker.UpdateResult(id, Failed, NOT_CONNECTED, map[]);
      return Some(Plain(id, Failed, NOT_CONNECTED)), false;
    }
    if a.denied {
      return None, false;
    }
    if a.refusal.Some? {
      tracker.UpdateResult(id, a.refusal.value.status, a.refusal.value.error, map[]);
      return a.refusal, false;
    }
    tracker.UpdateResult(id, Executing, "", map[]);
    sent := true;
    match a.outcome {
      case Raised(error) =>
        tracker.UpdateResult(id, Failed, error, map[]);
        response := Some(Plain(id, Failed, error));
      case Replied(r, areaError) =>
        tracker.UpdateResult(id, r.status, r.error, r.changed);
        response := Some(r);
        if areaError.Some? {
          tracker.UpdateResult(id, Failed, areaError.value, map[]);
          response := Some(Plain(id, Failed, areaError.value));
        }
    }
  }
}
