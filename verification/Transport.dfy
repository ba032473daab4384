/**
  The GameScript transport as a protocol: calls are sent under fresh correlation ids, packets are
  filed under the ids they name, and every call ends once, by a reply, by a timeout, or by a
  connection loss. A run is any sequence of enabled steps.
*/
module Transport {
  import opened Sequences
  import opened Decimals
  import opened Json
  import opened Chunks
  import Splitting
  import opened KeyedSort

  const UNPARSEABLE_RESYNC_AFTER := 3

  // ---------------------------------------------------------------- correlation ids

  function Id(n: nat): string {
    "gs_" + Decimal(n)
  }

  lemma IdIsInjective(a: nat, b: nat)
    requires Id(a) == Id(b)
    ensures a == b
  {
    assert Id(a)[3..] == Decimal(a) && Id(b)[3..] == Decimal(b);
    DecimalIsInjective(a, b);
  }

  // ---------------------------------------------------------------- states and steps

  /**
    The client's tables and counters. `waiting` holds the suspended calls, each with the number of
    unparseable packets it noted when it was sent.
  */
  datatype Client = Client(counter: nat, responses: map<string, seq<Object>>, released: map<string, bool>,
                           totals: map<string, int>, waiting: map<string, nat>,
                           unparseableTotal: nat, streak: nat, resyncs: nat, connected: bool)

  datatype Event =
    | Send
    | Receive(packet: Object)
    | NotAnObject
    | Unparseable
    | ConnectionLost
    | ServerShutdown
    | Reconnected
    | TimedOut(cid: string)
    | Woken(cid: string)

  datatype Outcome = Nothing | Returned(cid: string, reply: Object)

  const INITIAL := Client(0, map[], map[], map[], map[], 0, 0, 0, false)

  function ReleaseAll(released: map<string, bool>): map<string, bool> {
    map k | k in released :: true
  }

  function Sent(s: Client): Client {
    var cid := Id(s.counter + 1);
    s.(counter := s.counter + 1, responses := s.responses[cid := []], released := s.released[cid := false],
       totals := s.totals[cid := 1], waiting := s.waiting[cid := s.unparseableTotal])
  }

  function TotalOf(packet: Object): int {
    match Field(packet, "_total", Num(1))
    case Num(n) => n
    case _ => 1
  }

  /** The packet is a reply to the call: not an unsolicited event, and it names the id. */
  predicate Names(packet: Object, cid: string) {
    !Truthy(Field(packet, "_event", Null)) && Field(packet, "id", Str("")) == Str(cid)
  }

  /** Lists and tables are no keys of a dictionary. */
  predicate HasNoUsableId(packet: Object) {
    !Truthy(Field(packet, "_event", Null)) && (Field(packet, "id", Str("")).Arr? || Field(packet, "id", Str("")).Obj?)
  }

  function Filed(s: Client, packet: Object): Client {
    if Truthy(Field(packet, "_event", Null)) then s
    else
      match Field(packet, "id", Str(""))
      case Str(cid) =>
        if cid !in s.released || cid !in s.responses then s
        else
          var got := s.responses[cid] + [packet];
          s.(totals := s.totals[cid := TotalOf(packet)], responses := s.responses[cid := got],
             released := if |got| >= TotalOf(packet) then s.released[cid := true] else s.released)
      case _ => s
  }

  function Noted(s: Client): Client {
    var t := s.(unparseableTotal := s.unparseableTotal + 1, streak := s.streak + 1);
    if t.streak < UNPARSEABLE_RESYNC_AFTER then t
    else t.(resyncs := t.resyncs + 1, streak := 0, connected := false, released := ReleaseAll(t.released))
  }

  function Retired(s: Client, cid: string): Client {
    s.(responses := s.responses - {cid}, released := s.released - {cid}, totals := s.totals - {cid},
       waiting := s.waiting - {cid})
  }

  function TimeoutReply(s: Client, cid: string): Object
    requires cid in s.waiting
  {
    map["id" := Str(cid), "success" := Bool(false),
        "error" := Str(if s.unparseableTotal > s.waiting[cid] then "transport" else "timeout")]
  }

  /** A call wakes only when it has been released; until it does, its deadline may still come first. */
  predicate Enabled(s: Client, e: Event) {
    match e
    case TimedOut(cid) => cid in s.waiting && cid in s.released
    case Woken(cid) => cid in s.waiting && cid in s.responses && cid in s.released && s.released[cid]
    case _ => true
  }

  function Next(s: Client, e: Event): Client {
    match e
    case Send => Sent(s)
    case Receive(packet) => Filed(s.(streak := 0), packet)
    case NotAnObject => Noted(s.(streak := 0))
    case Unparseable => Noted(s)
    case ConnectionLost => s.(connected := false, released := ReleaseAll(s.released))
    case ServerShutdown => s.(connected := false)
    case Reconnected => s.(connected := true)
    case TimedOut(cid) => Retired(s, cid)
    case Woken(cid) => Retired(s, cid)
  }

  function Result(s: Client, e: Event): Outcome
    requires Enabled(s, e)
  {
    match e
    case TimedOut(cid) => Returned(cid, TimeoutReply(s, cid))
    case Woken(cid) => Returned(cid, Merge(cid, s.responses[cid]))
    case _ => Nothing
  }

  function Run(s: Client, es: seq<Event>): Client
    decreases |es|
  {
    if es == [] then s else Run(Next(s, es[0]), es[1..])
  }

  /** Every step of the run is enabled when it is taken. */
  predicate IsRun(s: Client, es: seq<Event>)
    decreases |es|
  {
    es == [] || (Enabled(s, es[0]) && IsRun(Next(s, es[0]), es[1..]))
  }

  /** What the calls of a run return, in order. */
  function Outcomes(s: Client, es: seq<Event>): seq<Outcome>
    requires IsRun(s, es)
    decreases |es|
  {
    if es == [] then [] else [Result(s, es[0])] + Outcomes(Next(s, es[0]), es[1..])
  }

  // ---------------------------------------------------------------- bookkeeping over every run

  ghost predicate Issued(s: Client, cid: string) {
    exists k :: 1 <= k <= s.counter && cid == Id(k)
  }

  /**
    The three tables and the suspended calls have the same ids, all of them issued; and every three
    unparseable packets in a row were one resynchronisation.
  */
  ghost predicate Inv(s: Client) {
    && s.responses.Keys == s.released.Keys == s.totals.Keys == s.waiting.Keys
    && (forall cid :: cid in s.waiting ==> Issued(s, cid) && s.waiting[cid] <= s.unparseableTotal)
    && 3 * s.resyncs + s.streak <= s.unparseableTotal
    && s.streak < UNPARSEABLE_RESYNC_AFTER
  }

  lemma IssuedLater(s: Client, s': Client, cid: string)
    requires Issued(s, cid) && s.counter <= s'.counter
    ensures Issued(s', cid)
  {
    var k :| 1 <= k <= s.counter && cid == Id(k);
    assert 1 <= k <= s'.counter;
  }

  /** The next id was never issued, so no table can hold it. */
  lemma NextIdIsFresh(s: Client)
    ensures !Issued(s, Id(s.counter + 1)) && Issued(Sent(s), Id(s.counter + 1))
  {
    forall k: nat | 1 <= k <= s.counter ensures Id(k) != Id(s.counter + 1) {
      if Id(k) == Id(s.counter + 1) {
        IdIsInjective(k, s.counter + 1);
      }
    }
    assert Sent(s).counter == s.counter + 1;
  }

  /** The invariant survives in any state that issues no less, waits for no more, and keeps the counts in step. */
  lemma KeepsInv(s: Client, s': Client)
    requires Inv(s) && s.counter <= s'.counter && s.unparseableTotal <= s'.unparseableTotal
    requires s'.responses.Keys == s'.released.Keys == s'.totals.Keys == s'.waiting.Keys
    requires forall cid :: cid in s'.waiting ==>
               (cid in s.waiting && s'.waiting[cid] == s.waiting[cid]) || (Issued(s', cid) && s'.waiting[cid] <= s'.unparseableTotal)
    requires 3 * s'.resyncs + s'.streak <= s'.unparseableTotal && s'.streak < UNPARSEABLE_RESYNC_AFTER
    ensures Inv(s')
  {
    forall cid | cid in s'.waiting ensures Issued(s', cid) {
      if cid in s.waiting {
        IssuedLater(s, s', cid);
      }
    }
  }

  lemma FiledAdds(s: Client, packet: Object)
    requires s.responses.Keys == s.released.Keys == s.totals.Keys
    ensures var s' := Filed(s, packet);
            && s'.responses.Keys == s'.released.Keys == s'.totals.Keys == s.responses.Keys
            && s' == s.(responses := s'.responses, released := s'.released, totals := s'.totals)
  {
  }

  /** Every enabled step keeps the bookkeeping. */
  lemma NextKeepsInv(s: Client, e: Event)
    requires Inv(s) && Enabled(s, e)
    ensures Inv(Next(s, e)) && s.counter <= Next(s, e).counter
  {
    match e
    case Send => SendKeepsInv(s);
    case Receive(packet) => ReceiveKeepsInv(s, packet);
    case _ => KeepsInv(s, Next(s, e));
  }

  lemma SendKeepsInv(s: Client)
    requires Inv(s)
    ensures Inv(Sent(s))
  {
    NextIdIsFresh(s);
    KeepsInv(s, Sent(s));
  }

  lemma ReceiveKeepsInv(s: Client, packet: Object)
    requires Inv(s)
    ensures Inv(Filed(s.(streak := 0), packet)) && Filed(s.(streak := 0), packet).counter == s.counter
  {
    FiledAdds(s.(streak := 0), packet);
    KeepsInv(s, Filed(s.(streak := 0), packet));
  }

  /** The bookkeeping holds from the start, and in every state that a run reaches. */
  lemma {:induction false} RunKeepsInv(s: Client, es: seq<Event>)
    requires Inv(s) && IsRun(s, es)
    ensures Inv(INITIAL) && Inv(Run(s, es)) && s.counter <= Run(s, es).counter
    decreases |es|
  {
    if es != [] {
      NextKeepsInv(s, es[0]);
      RunKeepsInv(Next(s, es[0]), es[1..]);
    }
  }

  /** A packet that names no outstanding call, or is an unsolicited event, changes no table. */
  lemma StrayPacketIsIgnored(s: Client, packet: Object)
    requires forall cid :: cid in s.released ==> !Names(packet, cid)
    ensures Next(s, Receive(packet)) == s.(streak := 0)
  {
  }

  /** An id that was issued and is no longer in the tables. */
  ghost predicate Spent(s: Client, cid: string) {
    Issued(s, cid) && cid !in s.responses && cid !in s.released && cid !in s.totals && cid !in s.waiting
  }

  /** A call that returns has left all tables. */
  lemma ReturnRetires(s: Client, e: Event)
    requires Inv(s) && Enabled(s, e) && Result(s, e).Returned?
    ensures Spent(Next(s, e), Result(s, e).cid)
  {
    IssuedLater(s, Next(s, e), Result(s, e).cid);
  }

  lemma SpentStaysSpentOneStep(s: Client, cid: string, e: Event)
    requires Inv(s) && Enabled(s, e) && Spent(s, cid)
    ensures Spent(Next(s, e), cid)
    ensures Result(s, e).Returned? ==> Result(s, e).cid != cid
  {
    NextIdIsFresh(s);
    NextKeepsInv(s, e);
    IssuedLater(s, Next(s, e), cid);
    if e.Receive? {
      FiledAdds(s.(streak := 0), e.packet);
    }
  }

  /** A returned id never comes back: it stays out of every table, and no later step returns it again. */
  lemma {:induction false} SpentStaysSpent(s: Client, cid: string, es: seq<Event>)
    requires Inv(s) && IsRun(s, es) && Spent(s, cid)
    ensures Spent(Run(s, es), cid)
    ensures forall o :: o in Outcomes(s, es) && o.Returned? ==> o.cid != cid
    decreases |es|
  {
    if es != [] {
      NextKeepsInv(s, es[0]);
      SpentStaysSpentOneStep(s, cid, es[0]);
      SpentStaysSpent(Next(s, es[0]), cid, es[1..]);
    }
  }

  /** Over a whole run no id is returned twice. */
  lemma {:induction false} EachCallReturnsOnce(s: Client, es: seq<Event>, i: nat, j: nat)
    requires Inv(s) && IsRun(s, es) && i < j < |es|
    ensures |Outcomes(s, es)| == |es|
    ensures var os := Outcomes(s, es); os[i].Returned? && os[j].Returned? ==> os[i].cid != os[j].cid
    decreases |es|
  {
    OutcomeCount(s, es);
    NextKeepsInv(s, es[0]);
    var rest := Outcomes(Next(s, es[0]), es[1..]);
    OutcomeCount(Next(s, es[0]), es[1..]);
    if i > 0 {
      EachCallReturnsOnce(Next(s, es[0]), es[1..], i - 1, j - 1);
    } else if Result(s, es[0]).Returned? {
      ReturnRetires(s, es[0]);
      SpentStaysSpent(Next(s, es[0]), Result(s, es[0]).cid, es[1..]);
      assert rest[j - 1] in rest;
    }
  }

  lemma {:induction false} OutcomeCount(s: Client, es: seq<Event>)
    requires IsRun(s, es)
    ensures |Outcomes(s, es)| == |es|
    decreases |es|
  {
    if es != [] {
      OutcomeCount(Next(s, es[0]), es[1..]);
    }
  }

  // ---------------------------------------------------------------- the connection

  /** The step cuts the connection: it is lost, the server goes, or the third packet in a row is unparseable. */
  predicate Cuts(s: Client, e: Event) {
    e.ConnectionLost? || e.ServerShutdown? || (e.Unparseable? && s.streak == 2)
  }

  lemma ConnectedAfterStep(s: Client, e: Event)
    requires Inv(s)
    ensures Next(s, e).connected <==> e.Reconnected? || (s.connected && !Cuts(s, e))
    ensures Next(s, e).resyncs == s.resyncs + if e.Unparseable? && s.streak == 2 then 1 else 0
    ensures Next(s, e).streak == if e.Unparseable? then (s.streak + 1) % 3 else if e.NotAnObject? then 1
                                 else if e.Receive? then 0 else s.streak
  {
  }

  /** Connected since before the `i`th step of the run. */
  ghost predicate ConnectedSince(s: Client, es: seq<Event>, i: nat) {
    && i <= |es| && (if i == 0 then s.connected else es[i - 1].Reconnected?)
    && (forall j :: i <= j < |es| ==> !Cuts(Run(s, es[..j]), es[j]))
  }

  lemma {:induction false} RunSnoc(s: Client, es: seq<Event>, e: Event)
    ensures Run(s, es + [e]) == Next(Run(s, es), e)
    ensures IsRun(s, es + [e]) <==> IsRun(s, es) && Enabled(Run(s, es), e)
    decreases |es|
  {
    if es == [] {
      assert (es + [e])[1..] == [];
    } else {
      RunSnoc(Next(s, es[0]), es[1..], e);
      assert (es + [e])[1..] == es[1..] + [e];
    }
  }

  lemma SinceOneMore(s: Client, es: seq<Event>, e: Event, i: nat)
    requires i <= |es|
    ensures ConnectedSince(s, es + [e], i) <==> ConnectedSince(s, es, i) && !Cuts(Run(s, es), e)
  {
    assert forall j :: 0 <= j <= |es| ==> (es + [e])[..j] == es[..j];
    assert (es + [e])[..|es|] == es && (es + [e])[|es|] == e;
    assert forall j :: 0 <= j < |es| ==> (es + [e])[j] == es[j];
  }

  /** After a run the client is connected if and only if it came to be, or was, and nothing cut it since. */
  lemma {:induction false} ConnectedIff(s: Client, es: seq<Event>)
    requires Inv(s) && IsRun(s, es)
    ensures Run(s, es).connected <==> exists i :: ConnectedSince(s, es, i)
    decreases |es|
  {
    if es == [] {
      assert s.connected ==> ConnectedSince(s, es, 0);
    } else {
      var front, last := es[..|es| - 1], es[|es| - 1];
      assert es == front + [last];
      RunSnoc(s, front, last);
      ConnectedIff(s, front);
      RunKeepsInv(s, front);
      ConnectedAfterStep(Run(s, front), last);
      ConnectedLast(s, front, last);
    }
  }

  lemma ConnectedLast(s: Client, front: seq<Event>, last: Event)
    ensures (exists i :: ConnectedSince(s, front + [last], i))
            <==> last.Reconnected? || ((exists i :: ConnectedSince(s, front, i)) && !Cuts(Run(s, front), last))
  {
    var es := front + [last];
    if i: nat :| ConnectedSince(s, es, i) {
      if i <= |front| {
        SinceOneMore(s, front, last, i);
      }
    }
    if last.Reconnected? {
      assert ConnectedSince(s, es, |es|);
    }
    if i: nat :| ConnectedSince(s, front, i) {
      SinceOneMore(s, front, last, i);
    }
  }

  /** Every third unparseable packet in a row resynchronises the stream, and only those do. */
  lemma {:induction false} UnparseableInARow(s: Client, n: nat)
    requires Inv(s) && s.streak == 0
    ensures var s' := Run(s, seq(n, _ => Unparseable));
            && Inv(s') && s'.resyncs == s.resyncs + n / 3 && s'.streak == n % 3
            && s'.unparseableTotal == s.unparseableTotal + n && (n >= 3 ==> !s'.connected)
    decreases n
  {
    if n > 0 {
      var front := seq(n - 1, _ => Unparseable);
      UnparseableInARow(s, n - 1);
      assert seq(n, _ => Unparseable) == front + [Unparseable];
      RunSnoc(s, front, Unparseable);
      NextKeepsInv(Run(s, front), Unparseable);
      ConnectedAfterStep(Run(s, front), Unparseable);
    }
  }

  // ---------------------------------------------------------------- what a timeout says

  /** The step counts as one unparseable packet. */
  predicate Garbles(e: Event) {
    e.Unparseable? || e.NotAnObject?
  }

  function GarbledIn(es: seq<Event>): nat {
    if es == [] then 0 else (if Garbles(es[0]) then 1 else 0) + GarbledIn(es[1..])
  }

  predicate Ends(e: Event, cid: string) {
    (e.TimedOut? || e.Woken?) && e.cid == cid
  }

  /** No step of the run returns the call. */
  predicate Outlasts(es: seq<Event>, cid: string) {
    forall i :: 0 <= i < |es| ==> !Ends(es[i], cid)
  }

  /** What one step does to a call that it does not return. */
  datatype Effect = Effect(got: seq<Object>, released: bool, noted: nat)

  function View(s: Client, cid: string): Effect
    requires cid in s.responses && cid in s.released && cid in s.waiting
  {
    Effect(s.responses[cid], s.released[cid], s.waiting[cid])
  }

  function AfterStep(v: Effect, s: Client, cid: string, e: Event): Effect {
    match e
    case Receive(packet) =>
      if Names(packet, cid) then
        Effect(v.got + [packet], v.released || |v.got| + 1 >= TotalOf(packet), v.noted)
      else v
    case Unparseable => v.(released := v.released || Releases(s, e))
    case ConnectionLost => v.(released := true)
    case _ => v
  }

  /** The step may release calls whose replies are incomplete. */
  predicate Releases(s: Client, e: Event) {
    e.ConnectionLost? || (e.Unparseable? && s.streak + 1 >= UNPARSEABLE_RESYNC_AFTER)
  }

  lemma ReceiveEffect(s: Client, cid: string, packet: Object)
    requires Inv(s) && cid in s.waiting
    ensures var s' := Next(s, Receive(packet));
            && cid in s'.waiting && cid in s'.responses && cid in s'.released
            && View(s', cid) == AfterStep(View(s, cid), s, cid, Receive(packet))
  {
  }

  lemma SendEffect(s: Client, cid: string)
    requires Inv(s) && cid in s.waiting
    ensures var s' := Sent(s);
            && cid in s'.waiting && cid in s'.responses && cid in s'.released
            && View(s', cid) == View(s, cid)
  {
    NextIdIsFresh(s);
  }

  /** Each step touches a waiting call in one way only, and counts one unparseable packet or none. */
  lemma StepEffect(s: Client, cid: string, e: Event)
    requires Inv(s) && Enabled(s, e) && cid in s.waiting && !Ends(e, cid)
    ensures var s' := Next(s, e);
            && cid in s'.waiting && cid in s'.responses && cid in s'.released
            && View(s', cid) == AfterStep(View(s, cid), s, cid, e)
    ensures Next(s, e).unparseableTotal == s.unparseableTotal + (if Garbles(e) then 1 else 0)
  {
    match e
    case Send => SendEffect(s, cid);
    case Receive(packet) => ReceiveEffect(s, cid, packet);
    case _ =>
  }

  lemma OutlastsRest(es: seq<Event>, cid: string)
    requires Outlasts(es, cid) && es != []
    ensures !Ends(es[0], cid) && Outlasts(es[1..], cid)
  {
  }

  lemma {:induction false} WaitsThrough(s: Client, cid: string, es: seq<Event>)
    requires Inv(s) && IsRun(s, es) && cid in s.waiting && Outlasts(es, cid)
    ensures Inv(Run(s, es)) && cid in Run(s, es).waiting && Run(s, es).waiting[cid] == s.waiting[cid]
    ensures Run(s, es).unparseableTotal == s.unparseableTotal + GarbledIn(es)
    decreases |es|
  {
    if es != [] {
      OutlastsRest(es, cid);
      NextKeepsInv(s, es[0]);
      StepEffect(s, cid, es[0]);
      WaitsThrough(Next(s, es[0]), cid, es[1..]);
    }
  }

  /** A timeout blames the transport exactly when an unparseable packet came while the call was out. */
  lemma TimeoutTellsTheCause(s: Client, es: seq<Event>)
    requires Inv(s)
    requires var cid := Id(s.counter + 1);
             IsRun(Sent(s), es) && Outlasts(es, cid) && Enabled(Run(Sent(s), es), TimedOut(cid))
    ensures var cid := Id(s.counter + 1);
            var o := Result(Run(Sent(s), es), TimedOut(cid));
            && o.Returned? && o.cid == cid && Field(o.reply, "id", Null) == Str(cid)
            && Field(o.reply, "success", Null) == Bool(false)
            && Field(o.reply, "error", Null) == Str(if GarbledIn(es) > 0 then "transport" else "timeout")
  {
    NextKeepsInv(s, Send);
    WaitsThrough(Sent(s), Id(s.counter + 1), es);
  }

  // ---------------------------------------------------------------- what a reply is made of

  /** The packets of a run that reply to the call, in order of arrival. */
  function RepliesTo(es: seq<Event>, cid: string): seq<Object> {
    if es == [] then [] else ReplyIn(es[0], cid) + RepliesTo(es[1..], cid)
  }

  function ReplyIn(e: Event, cid: string): seq<Object> {
    if e.Receive? && Names(e.packet, cid) then [e.packet] else []
  }

  lemma {:induction false} Collects(s: Client, cid: string, es: seq<Event>)
    requires Inv(s) && IsRun(s, es) && cid in s.waiting && Outlasts(es, cid)
    ensures cid in Run(s, es).responses && Run(s, es).responses[cid] == s.responses[cid] + RepliesTo(es, cid)
    decreases |es|
  {
    if es != [] {
      OutlastsRest(es, cid);
      NextKeepsInv(s, es[0]);
      CollectsFirst(s, cid, es[0]);
      Collects(Next(s, es[0]), cid, es[1..]);
      Regroup(s.responses[cid], ReplyIn(es[0], cid), RepliesTo(es[1..], cid));
    }
  }

  lemma CollectsFirst(s: Client, cid: string, e: Event)
    requires Inv(s) && Enabled(s, e) && cid in s.waiting && !Ends(e, cid)
    ensures var s' := Next(s, e);
            cid in s'.waiting && cid in s'.responses && s'.responses[cid] == s.responses[cid] + ReplyIn(e, cid)
  {
    StepEffect(s, cid, e);
  }

  /** A call that is woken returns what its replies merge into. */
  lemma CallReturnsMerged(s: Client, es: seq<Event>)
    requires Inv(s)
    requires var cid := Id(s.counter + 1);
             IsRun(Sent(s), es) && Outlasts(es, cid) && Enabled(Run(Sent(s), es), Woken(cid))
    ensures var cid := Id(s.counter + 1);
            Result(Run(Sent(s), es), Woken(cid)) == Returned(cid, Merge(cid, RepliesTo(es, cid)))
  {
    var cid := Id(s.counter + 1);
    NextKeepsInv(s, Send);
    Collects(Sent(s), cid, es);
    assert Sent(s).responses[cid] + RepliesTo(es, cid) == RepliesTo(es, cid);
  }

  /**
    A call whose packets all arrived, once each, in any order and interleaved with anything else,
    returns the reply that the script split.
  */
  lemma CallGetsOriginal(s: Client, es: seq<Event>, r: Reply)
    requires Inv(s) && WellFormed(r) && Named(r) && |r.groups| >= 2
    requires var cid := Id(s.counter + 1);
             && IsRun(Sent(s), es) && Outlasts(es, cid) && Enabled(Run(Sent(s), es), Woken(cid))
             && multiset(RepliesTo(es, cid)) == multiset(Packets(cid, r))
    ensures var cid := Id(s.counter + 1);
            Result(Run(Sent(s), es), Woken(cid)) == Returned(cid, Original(cid, r))
  {
    var cid := Id(s.counter + 1);
    CallReturnsMerged(s, es);
    ReassemblyIsExact(cid, r, RepliesTo(es, cid));
  }

  /**
    And whatever the handler answered, split or not: the call returns the handler's own payload
    exactly when that is not one the splitting loses.
  */
  lemma CallGetsPayloadIff(s: Client, es: seq<Event>, handled: Object, m: Splitting.Mostly)
    requires Inv(s) && Splitting.IsMostly(Payload(handled), m)
    requires var cid := Id(s.counter + 1);
             && IsRun(Sent(s), es) && Outlasts(es, cid) && Enabled(Run(Sent(s), es), Woken(cid))
             && multiset(RepliesTo(es, cid)) == multiset(Splitting.PacketsOf(cid, handled, m))
    ensures var cid := Id(s.counter + 1);
            var o := Result(Run(Sent(s), es), Woken(cid));
            o.Returned? && (Payload(o.reply) == Payload(handled) <==> !Splitting.IsLost(Payload(handled), m))
  {
    var cid := Id(s.counter + 1);
    CallReturnsMerged(s, es);
    Splitting.PayloadSurvivesIff(cid, handled, m, RepliesTo(es, cid));
  }

  /** And its verdict is the handler's own, with its explanations. */
  lemma CallGetsVerdict(s: Client, es: seq<Event>, handled: Object, m: Splitting.Mostly)
    requires Inv(s)
    requires var cid := Id(s.counter + 1);
             && IsRun(Sent(s), es) && Outlasts(es, cid) && Enabled(Run(Sent(s), es), Woken(cid))
             && multiset(RepliesTo(es, cid)) == multiset(Splitting.PacketsOf(cid, handled, m))
    ensures var cid := Id(s.counter + 1);
            var o := Result(Run(Sent(s), es), Woken(cid));
            o.Returned? && o.cid == cid && Splitting.SameVerdict(cid, o.reply, handled)
  {
    var cid := Id(s.counter + 1);
    CallReturnsMerged(s, es);
    Splitting.VerdictSurvives(cid, handled, m, RepliesTo(es, cid));
  }

  /** A call released by a lost connection before any packet came is answered as empty, and as no success. */
  lemma NothingCame(s: Client, es: seq<Event>)
    requires Inv(s)
    requires var cid := Id(s.counter + 1);
             IsRun(Sent(s), es) && Outlasts(es, cid) && Enabled(Run(Sent(s), es), Woken(cid)) && RepliesTo(es, cid) == []
    ensures var cid := Id(s.counter + 1);
            var o := Result(Run(Sent(s), es), Woken(cid));
            && o.Returned? && o.cid == cid && Field(o.reply, "id", Null) == Str(cid)
            && Field(o.reply, "success", Null) == Bool(false) && Field(o.reply, "error", Null) == Str("empty")
  {
    CallReturnsMerged(s, es);
  }

  /** No step of the run releases incomplete replies. */
  ghost predicate Undisturbed(s: Client, es: seq<Event>)
    decreases |es|
  {
    es == [] || (!Releases(s, es[0]) && Undisturbed(Next(s, es[0]), es[1..]))
  }

  /** Released exactly when as many packets as announced have arrived. */
  ghost predicate ReleasedWhenFull(s: Client, cid: string, total: nat) {
    cid in s.released && cid in s.responses && (s.released[cid] <==> |s.responses[cid]| >= total)
  }

  lemma {:induction false} FullThrough(s: Client, cid: string, es: seq<Event>, total: nat)
    requires Inv(s) && IsRun(s, es) && cid in s.waiting && Outlasts(es, cid) && Undisturbed(s, es)
    requires ReleasedWhenFull(s, cid, total)
    requires forall p :: p in RepliesTo(es, cid) ==> TotalOf(p) == total
    ensures ReleasedWhenFull(Run(s, es), cid, total)
    decreases |es|
  {
    if es != [] {
      OutlastsRest(es, cid);
      NextKeepsInv(s, es[0]);
      StepEffect(s, cid, es[0]);
      FullAfterStep(View(s, cid), s, cid, es[0], total);
      FullThrough(Next(s, es[0]), cid, es[1..], total);
    }
  }

  lemma FullAfterStep(v: Effect, s: Client, cid: string, e: Event, total: nat)
    requires (v.released <==> |v.got| >= total) && !Releases(s, e)
    requires e.Receive? && Names(e.packet, cid) ==> TotalOf(e.packet) == total
    ensures var v' := AfterStep(v, s, cid, e); v'.released <==> |v'.got| >= total
  {
  }

  lemma PacketTotal(cid: string, r: Reply, p: Object)
    requires WellFormed(r) && p in Packets(cid, r)
    ensures TotalOf(p) == |r.groups|
  {
    var i :| 0 <= i < |r.groups| && p == Packets(cid, r)[i];
    PacketIndices(cid, r, i);
  }

  /** While the connection holds, a call wakes exactly when its last packet has arrived. */
  lemma WakesWhenComplete(s: Client, es: seq<Event>, r: Reply)
    requires Inv(s) && WellFormed(r)
    requires var cid := Id(s.counter + 1);
             && IsRun(Sent(s), es) && Outlasts(es, cid) && Undisturbed(Sent(s), es)
             && (forall p :: p in RepliesTo(es, cid) ==> p in Packets(cid, r))
    ensures var cid := Id(s.counter + 1);
            Enabled(Run(Sent(s), es), Woken(cid)) <==> |RepliesTo(es, cid)| >= |r.groups|
  {
    var cid := Id(s.counter + 1);
    NextKeepsInv(s, Send);
    forall p | p in RepliesTo(es, cid) ensures TotalOf(p) == |r.groups| {
      PacketTotal(cid, r, p);
    }
    FullThrough(Sent(s), cid, es, |r.groups|);
    WaitsThrough(Sent(s), cid, es);
    Collects(Sent(s), cid, es);
  }

  // ---------------------------------------------------------------- the client object

  method JoinShares(chunks: seq<Object>) returns (merged: seq<Value>)
    ensures merged == Shares(chunks)
  {
    merged := [];
    for i := 0 to |chunks|
      invariant merged + Shares(chunks[i..]) == Shares(chunks)
    {
      assert chunks[i..][1..] == chunks[i + 1..];
      merged := merged + Share(chunks[i]);
    }
  }

  method CopyFields(into: Object, from: Object, names: seq<string>) returns (merged: Object)
    ensures merged == Copied(into, from, names)
  {
    merged := into;
    for i := 0 to |names|
      invariant Copied(merged, from, names[i..]) == Copied(into, from, names)
    {
      assert names[i..][1..] == names[i + 1..];
      if names[i] in from {
        merged := merged[names[i] := from[names[i]]];
      }
    }
  }

  class AdminClient {
    var gsCounter: nat
    var gsResponses: map<string, seq<Object>>
    var gsEvents: map<string, bool>
    var gsTotals: map<string, int>
    /** The suspended calls' own local: the unparseable count noted before sending. */
    var garbledBefore: map<string, nat>
    var unparseableTotal: nat
    var unparseableStreak: nat
    var resyncs: nat
    var connected: bool

    function State(): Client
      reads this
    {
      Client(gsCounter, gsResponses, gsEvents, gsTotals, garbledBefore, unparseableTotal, unparseableStreak, resyncs, connected)
    }

    constructor ()
      ensures State() == INITIAL
    {
      gsCounter := 0;
      gsResponses, gsEvents, gsTotals, garbledBefore := map[], map[], map[], map[];
      unparseableTotal, unparseableStreak, resyncs := 0, 0, 0;
      connected := false;
    }

    /** The part of a call before it suspends. */
    method SendGamescript() returns (cid: string)
      modifies this
      ensures State() == Next(old(State()), Send) && cid == Id(old(gsCounter) + 1)
    {
      gsCounter := gsCounter + 1;
      cid := Id(gsCounter);
      gsResponses := gsResponses[cid := []];
      gsEvents := gsEvents[cid := false];
      gsTotals := gsTotals[cid := 1];
      garbledBefore := garbledBefore[cid := unparseableTotal];
    }

    /** A parsed packet arrives. An id that cannot be looked up raises, and leaves the tables alone. */
    method HandleGsResponse(packet: Object) returns (raised: bool)
      requires gsResponses.Keys == gsEvents.Keys
      modifies this
      ensures State() == Next(old(State()), Receive(packet))
      ensures raised <==> HasNoUsableId(packet)
      ensures raised ==> State() == old(State()).(streak := 0)
    {
      unparseableStreak := 0;
      raised := false;
      if Truthy(Field(packet, "_event", Null)) {
        return;
      }
      var id := Field(packet, "id", Str(""));
      if id.Arr? || id.Obj? {
        raised := true;
        return;
      }
      if !id.Str? || id.s !in gsEvents {
        return;
      }
      var cid := id.s;
      var total := TotalOf(packet);
      gsTotals := gsTotals[cid := total];
      gsResponses := gsResponses[cid := gsResponses[cid] + [packet]];
      if |gsResponses[cid]| >= total {
        gsEvents := gsEvents[cid := true];
      }
    }

    method ReleaseWaiters()
      modifies this`gsEvents
      ensures gsEvents == ReleaseAll(old(gsEvents))
    {
      gsEvents := map k | k in gsEvents :: true;
    }

    /** Records a packet that could not be read; returns whether the stream was restarted. */
    method NoteUnparseable() returns (restarted: bool)
      modifies this
      ensures State() == Next(old(State()), Unparseable)
      ensures restarted <==> old(unparseableStreak) + 1 >= UNPARSEABLE_RESYNC_AFTER
    {
      unparseableTotal := unparseableTotal + 1;
      unparseableStreak := unparseableStreak + 1;
      if unparseableStreak < UNPARSEABLE_RESYNC_AFTER {
        return false;
      }
      resyncs := resyncs + 1;
      unparseableStreak := 0;
      connected := false;
      ReleaseWaiters();
      return true;
    }

    method LoseConnection()
      modifies this
      ensures State() == Next(old(State()), ConnectionLost)
    {
      connected := false;
      ReleaseWaiters();
    }

    /** The part of a call after its deadline passed. */
    method TimeOut(cid: string) returns (reply: Object)
      requires Enabled(State(), TimedOut(cid))
      modifies this
      ensures State() == Next(old(State()), TimedOut(cid))
      ensures Returned(cid, reply) == Result(old(State()), TimedOut(cid))
    {
      gsResponses := gsResponses - {cid};
      var garbled := unparseableTotal - garbledBefore[cid];
      var error := if garbled > 0 then "transport" else "timeout";
      gsEvents := gsEvents - {cid};
      gsTotals := gsTotals - {cid};
      garbledBefore := garbledBefore - {cid};
      reply := map["id" := Str(cid), "success" := Bool(false), "error" := Str(error)];
    }

    /** The part of a call after it was released. */
    method Finish(cid: string) returns (reply: Object)
      requires Enabled(State(), Woken(cid))
      modifies this
      ensures State() == Next(old(State()), Woken(cid))
      ensures Returned(cid, reply) == Result(old(State()), Woken(cid))
    {
      gsEvents := gsEvents - {cid};
      gsTotals := gsTotals - {cid};
      garbledBefore := garbledBefore - {cid};
      reply := MergeChunks(cid);
    }

    method MergeChunks(cid: string) returns (reply: Object)
      requires cid in gsResponses
      modifies this`gsResponses
      ensures gsResponses == old(gsResponses) - {cid}
      ensures reply == Merge(cid, old(gsResponses)[cid])
    {
      var chunks := gsResponses[cid];
      gsResponses := gsResponses - {cid};
      if chunks == [] {
        return map["id" := Str(cid), "success" := Bool(false), "error" := Str("empty")];
      }
      if |chunks| == 1 {
        return chunks[0];
      }
      chunks := Sort(ChunkIndex, chunks);
      SortSorts(ChunkIndex, old(gsResponses)[cid]);
      assert |chunks| == |multiset(chunks)| == |old(gsResponses)[cid]|;
      var mergedResult := JoinShares(chunks);
      var merged: Object := map["id" := Str(cid), "success" := Field(chunks[0], "success", Bool(true))];
      merged := CopyFields(merged, chunks[0], EXPLANATIONS);
      reply := merged["result" := Rebuilt(chunks[0], mergedResult)];
    }
  }
}
