/**
  The script's side of a reply: it measures the payload before encoding it, splits only what is
  over budget, and fills each packet up to the budget.
*/
module Splitting {
  import opened Json
  import opened KeyedSort
  import opened Chunks

  const BUDGET := 1000
  const MAX_DEPTH := 6

  // ---------------------------------------------------------------- the approximate size

  /** About how many characters a value takes; what is nested too deeply counts as a number. */
  ghost function ApproxSize(v: Value, depth: nat): (n: nat)
    ensures v.Arr? && depth <= MAX_DEPTH ==> n >= 2
    decreases MAX_DEPTH + 1 - depth, 0, 0
  {
    if depth > MAX_DEPTH then 8
    else
      match v
      case Arr(items) => 2 + ItemsSize(items, depth + 1)
      case Obj(fields) => 2 + FieldsSize(fields, depth + 1)
      case Str(s) => |s| + 2
      case Bool(_) => 5
      case Null => 4
      case Num(_) => 8
  }

  ghost function ItemsSize(items: seq<Value>, depth: nat): nat
    decreases MAX_DEPTH + 1 - depth, 1, |items|
  {
    if items == [] then 0 else ItemsSize(items[..|items| - 1], depth) + ApproxSize(items[|items| - 1], depth) + 1
  }

  ghost function FieldsSize(fields: map<string, Value>, depth: nat): nat
    decreases MAX_DEPTH + 1 - depth, 1, |fields|
  {
    if fields == map[] then 0
    else
      var key :| key in fields;
      |key| + 3 + ApproxSize(fields[key], depth) + 1 + FieldsSize(fields - {key}, depth)
  }

  /** A table's size does not depend on the order its fields are met in. */
  lemma {:induction false} FieldsSizeByAny(fields: map<string, Value>, depth: nat, k: string)
    requires k in fields
    ensures FieldsSize(fields, depth) == |k| + 3 + ApproxSize(fields[k], depth) + 1 + FieldsSize(fields - {k}, depth)
    decreases |fields|
  {
    var key :| key in fields && FieldsSize(fields, depth) == |key| + 3 + ApproxSize(fields[key], depth) + 1 + FieldsSize(fields - {key}, depth);
    if key != k {
      FieldsSizeByAny(fields - {key}, depth, k);
      FieldsSizeByAny(fields - {k}, depth, key);
      assert fields - {key} - {k} == fields - {k} - {key};
    }
  }

  // ---------------------------------------------------------------- filling packets

  /** What elements take up in a packet, each with its separator. */
  function Weight(items: seq<Value>, size: Value -> nat): nat {
    if items == [] then 0 else Weight(items[..|items| - 1], size) + size(items[|items| - 1]) + 1
  }

  /** The groups still to come, with the current one begun. */
  function GroupsFrom(items: seq<Value>, current: seq<Value>, size: Value -> nat): seq<seq<Value>>
    decreases |items|
  {
    if items == [] then (if current == [] then [] else [current])
    else if current != [] && Weight(current, size) + size(items[0]) + 1 > BUDGET then
      [current] + GroupsFrom(items[1..], [items[0]], size)
    else GroupsFrom(items[1..], current + [items[0]], size)
  }

  function Groups(items: seq<Value>, size: Value -> nat): (groups: seq<seq<Value>>)
    ensures |groups| >= 1
  {
    if items == [] then [[]]
    else
      StartedIsSome(items[1..], [items[0]], size);
      assert [] + [items[0]] == [items[0]];
      GroupsFrom(items, [], size)
  }

  lemma {:induction false} StartedIsSome(items: seq<Value>, current: seq<Value>, size: Value -> nat)
    requires current != []
    ensures |GroupsFrom(items, current, size)| >= 1
    decreases |items|
  {
    if items != [] && !(Weight(current, size) + size(items[0]) + 1 > BUDGET) {
      StartedIsSome(items[1..], current + [items[0]], size);
    }
  }

  method GroupBySize(items: seq<Value>, size: Value -> nat) returns (groups: seq<seq<Value>>)
    ensures groups == Groups(items, size)
  {
    groups := [];
    var current: seq<Value> := [];
    var currentSize := 0;
    for i := 0 to |items|
      invariant currentSize == Weight(current, size)
      invariant groups + GroupsFrom(items[i..], current, size) == GroupsFrom(items, [], size)
      invariant i > 0 ==> current != []
    {
      var item := items[i];
      var itemSize := size(item) + 1;
      assert items[i..][0] == item && items[i..][1..] == items[i + 1..];
      if current != [] && currentSize + itemSize > BUDGET {
        groups := groups + [current];
        current := [];
        currentSize := 0;
      }
      WeightOneMore(current, item, size);
      current := current + [item];
      currentSize := currentSize + itemSize;
    }
    assert items[|items|..] == [];
    if current != [] {
      groups := groups + [current];
    }
    if groups == [] {
      groups := [[]];
    }
  }

  lemma WeightOneMore(items: seq<Value>, item: Value, size: Value -> nat)
    ensures Weight(items + [item], size) == Weight(items, size) + size(item) + 1
  {
    assert (items + [item])[..|items|] == items;
  }

  lemma {:induction false} WeightConcat(a: seq<Value>, b: seq<Value>, size: Value -> nat)
    ensures Weight(a + b, size) == Weight(a, size) + Weight(b, size)
    decreases |b|
  {
    if b == [] {
      assert a + b == a;
    } else {
      assert (a + b)[..|a + b| - 1] == a + b[..|b| - 1];
      WeightConcat(a, b[..|b| - 1], size);
    }
  }

  /** A packet is within the budget, or holds a single element. */
  predicate Fits(group: seq<Value>, size: Value -> nat) {
    |group| <= 1 || Weight(group, size) <= BUDGET
  }

  lemma {:induction false} StartedFits(items: seq<Value>, current: seq<Value>, size: Value -> nat)
    requires Fits(current, size)
    ensures forall g :: g in GroupsFrom(items, current, size) ==> Fits(g, size)
    decreases |items|
  {
    if items != [] {
      WeightOneMore(current, items[0], size);
      if current != [] && Weight(current, size) + size(items[0]) + 1 > BUDGET {
        StartedFits(items[1..], [items[0]], size);
      } else {
        StartedFits(items[1..], current + [items[0]], size);
      }
    }
  }

  lemma BulkOfFirst(first: seq<Value>, rest: seq<seq<Value>>)
    ensures Bulk([first] + rest) == first + Bulk(rest)
  {
    assert ([first] + rest)[1..] == rest;
  }

  lemma {:induction false} StartedIsWhole(items: seq<Value>, current: seq<Value>, size: Value -> nat)
    ensures Bulk(GroupsFrom(items, current, size)) == current + items
    decreases |items|
  {
    if items == [] {
      BulkOfFirst(current, []);
      assert [current] + [] == [current];
    } else {
      StartedIsWhole(items[1..], [items[0]], size);
      StartedIsWhole(items[1..], current + [items[0]], size);
      BulkOfFirst(current, GroupsFrom(items[1..], [items[0]], size));
      assert items == [items[0]] + items[1..];
      assert current + items == (current + [items[0]]) + items[1..];
    }
  }

  /** The groups are the array in order, each within the budget or a single element. */
  lemma GroupsAreWhole(items: seq<Value>, size: Value -> nat)
    ensures Bulk(Groups(items, size)) == items
    ensures forall g :: g in Groups(items, size) ==> Fits(g, size)
  {
    if items == [] {
      assert Bulk([[]]) == [] + Bulk([[]][1..]);
    } else {
      StartedFits(items, [], size);
      StartedIsWhole(items, [], size);
      assert [] + items == items;
    }
  }

  lemma {:induction false} StartedIsOne(items: seq<Value>, current: seq<Value>, size: Value -> nat)
    requires current != []
    ensures |GroupsFrom(items, current, size)| == 1 <==> items == [] || Weight(current + items, size) <= BUDGET
    decreases |items|
  {
    if items != [] {
      var more := current + [items[0]];
      WeightOneMore(current, items[0], size);
      assert current + items == more + items[1..];
      WeightConcat(more, items[1..], size);
      if Weight(current, size) + size(items[0]) + 1 > BUDGET {
        StartedIsSome(items[1..], [items[0]], size);
      } else {
        StartedIsOne(items[1..], more, size);
        assert items[1..] == [] ==> more + items[1..] == more;
      }
    }
  }

  /** An array goes into one packet exactly when it has at most one element or its elements are within the budget. */
  lemma OneGroupIff(items: seq<Value>, size: Value -> nat)
    ensures |Groups(items, size)| == 1 <==> Fits(items, size)
  {
    if items != [] {
      assert [] + [items[0]] == [items[0]];
      StartedIsOne(items[1..], [items[0]], size);
      assert [items[0]] + items[1..] == items;
    }
  }

  // ---------------------------------------------------------------- sending a reply

  /** The array a payload is mostly made of: the payload itself, or a field of a table. */
  datatype Mostly = NoArray | Whole | Under(key: string)

  ghost predicate IsArrayField(payload: Value, key: string) {
    payload.Obj? && key in payload.fields && payload.fields[key].Arr?
  }

  /** The largest array of a table is split; which of several equally large ones is left open. */
  ghost predicate IsMostly(payload: Value, m: Mostly) {
    match m
    case Whole => payload.Arr?
    case Under(key) =>
      && IsArrayField(payload, key)
      && forall k :: IsArrayField(payload, k) ==> ApproxSize(payload.fields[k], 0) <= ApproxSize(payload.fields[key], 0)
    case NoArray => !payload.Arr? && forall k :: !IsArrayField(payload, k)
  }

  function Elements(payload: Value, m: Mostly): seq<Value> {
    if m.Whole? && payload.Arr? then payload.items
    else if m.Under? && payload.Obj? && m.key in payload.fields && payload.fields[m.key].Arr? then payload.fields[m.key].items
    else []
  }

  ghost predicate OverBudget(payload: Value, m: Mostly) {
    m != NoArray && ApproxSize(Arr(Elements(payload, m)), 0) > BUDGET
  }

  /** The verdict fields that are let through; an error, a name and a reason only when there is one. */
  function Verdict(handled: Object): Object {
    map k | k in handled && (k == "success" || k in EXPLANATIONS)
            && (k in ["error", "error_name", "reason"] ==> handled[k] != Null) :: handled[k]
  }

  ghost function SizeInPacket(): Value -> nat {
    v => ApproxSize(v, 0)
  }

  ghost function SplitOf(handled: Object, m: Mostly): Reply {
    var payload := Payload(handled);
    Reply(Groups(Elements(payload, m), SizeInPacket()), Verdict(handled),
          if m.Under? && payload.Obj? then Table(m.key, payload.fields - {m.key}) else NoTable)
  }

  /** The one packet of a reply within the budget. */
  function Unsplit(cid: string, handled: Object): Object {
    var said := map["id" := Str(cid)] + Verdict(handled);
    if Payload(handled) == Null then said else said["result" := Payload(handled)]
  }

  /** The packets that a handler's result is sent as. */
  ghost function PacketsOf(cid: string, handled: Object, m: Mostly): seq<Object> {
    if OverBudget(Payload(handled), m) then Packets(cid, SplitOf(handled, m)) else [Unsplit(cid, handled)]
  }

  /**
    A payload that does not come back: a table that is over the budget, though the elements of its
    largest array fit one packet, or whose key is empty.
  */
  ghost predicate IsLost(payload: Value, m: Mostly) {
    m.Under? && OverBudget(payload, m) && (Fits(Elements(payload, m), SizeInPacket()) || m.key == "")
  }

  lemma SplitIsWellFormed(handled: Object, m: Mostly)
    ensures WellFormed(SplitOf(handled, m)) && (Named(SplitOf(handled, m)) <==> !(m.Under? && Payload(handled).Obj? && m.key == ""))
  {
  }

  /** The bulk and the rest make up the payload again. */
  lemma SplitIsWhole(cid: string, handled: Object, m: Mostly)
    requires IsMostly(Payload(handled), m) && m != NoArray
    ensures Payload(Original(cid, SplitOf(handled, m))) == Payload(handled)
    ensures Arr(Bulk(SplitOf(handled, m).groups)) == Payload(handled) <==> m.Whole?
  {
    var payload := Payload(handled);
    GroupsAreWhole(Elements(payload, m), SizeInPacket());
    if m.Under? {
      assert (payload.fields - {m.key})[m.key := payload.fields[m.key]] == payload.fields;
    }
  }

  /**
    Whatever a handler answers and in whatever order the packets come, the caller reads the
    handler's own payload out of them exactly when it is not a lost one.
  */
  lemma PayloadSurvivesIff(cid: string, handled: Object, m: Mostly, arrivals: seq<Object>)
    requires IsMostly(Payload(handled), m) && multiset(arrivals) == multiset(PacketsOf(cid, handled, m))
    ensures Payload(Merge(cid, arrivals)) == Payload(handled) <==> !IsLost(Payload(handled), m)
  {
    var payload := Payload(handled);
    if OverBudget(payload, m) {
      SplitIsWellFormed(handled, m);
      SplitIsWhole(cid, handled, m);
      SplitPayload(cid, SplitOf(handled, m), arrivals);
      OneGroupIff(Elements(payload, m), SizeInPacket());
    } else {
      OneArrival(arrivals, Unsplit(cid, handled));
      assert "result" !in Verdict(handled);
    }
  }

  lemma OneArrival(arrivals: seq<Object>, packet: Object)
    requires multiset(arrivals) == multiset([packet])
    ensures arrivals == [packet]
  {
    assert |arrivals| == |multiset(arrivals)| == |multiset([packet])| == 1;
    assert arrivals[0] in multiset([packet]);
  }

  // ---------------------------------------------------------------- the verdict of a reply

  predicate IsExplanation(k: string) {
    k == "error" || k == "error_code" || k == "error_category" || k == "error_name" || k == "reason"
  }

  /** An explanation that the handler gave; an error, a name or a reason of null is none. */
  predicate Given(handled: Object, k: string) {
    k in handled && (k == "error" || k == "error_name" || k == "reason" ==> handled[k] != Null)
  }

  /** A reply to the call that says of success what the handler said, and explains it as the handler did. */
  ghost predicate SameVerdict(cid: string, reply: Object, handled: Object) {
    && Field(reply, "id", Null) == Str(cid)
    && Field(reply, "success", Bool(true)) == Field(handled, "success", Bool(true))
    && ("success" in handled ==> "success" in reply)
    && (forall k :: IsExplanation(k) ==> Field(reply, k, Null) == if Given(handled, k) then handled[k] else Null)
    && (forall k :: IsExplanation(k) ==> (k in reply <==> Given(handled, k)))
  }

  lemma VerdictField(handled: Object, k: string)
    ensures k in Verdict(handled) <==> (k == "success" || IsExplanation(k)) && Given(handled, k)
    ensures k in Verdict(handled) ==> Verdict(handled)[k] == handled[k]
    ensures k in EXPLANATIONS <==> IsExplanation(k)
    ensures IsExplanation(k) ==> k != "id" && k != "success" && k != "result" && k != "_chunk" && k != "_total" && k != "_key" && k != "_meta"
  {
  }

  lemma UnsplitVerdict(cid: string, handled: Object)
    ensures SameVerdict(cid, Unsplit(cid, handled), handled)
  {
    VerdictField(handled, "id");
    VerdictField(handled, "success");
    forall k | IsExplanation(k)
      ensures k in Unsplit(cid, handled) <==> Given(handled, k)
      ensures Field(Unsplit(cid, handled), k, Null) == if Given(handled, k) then handled[k] else Null
    {
      VerdictField(handled, k);
    }
  }

  lemma FirstPacketVerdict(cid: string, handled: Object, m: Mostly)
    ensures SameVerdict(cid, PacketAt(cid, SplitOf(handled, m), 0), handled)
  {
    var r := SplitOf(handled, m);
    var first := PacketAt(cid, r, 0);
    SplitIsWellFormed(handled, m);
    FirstPacketFields(cid, r);
    PacketIndices(cid, r, 0);
    VerdictField(handled, "success");
    forall k | IsExplanation(k)
      ensures k in first <==> Given(handled, k)
      ensures Field(first, k, Null) == if Given(handled, k) then handled[k] else Null
    {
      VerdictField(handled, k);
    }
  }

  lemma MergedKey(base: Object, first: Object, result: Value, k: string)
    requires k != "result"
    ensures var merged := Copied(base, first, EXPLANATIONS)["result" := result];
            && (k in merged <==> k in base || (k in first && IsExplanation(k)))
            && (k in merged ==> merged[k] == if k in first && IsExplanation(k) then first[k] else base[k])
  {
    CopiedField(base, first, EXPLANATIONS, k);
    VerdictField(first, k);
  }

  lemma CopiedVerdict(cid: string, first: Object, result: Value, handled: Object)
    requires SameVerdict(cid, first, handled)
    ensures var base: Object := map["id" := Str(cid), "success" := Field(first, "success", Bool(true))];
            SameVerdict(cid, Copied(base, first, EXPLANATIONS)["result" := result], handled)
  {
    var base: Object := map["id" := Str(cid), "success" := Field(first, "success", Bool(true))];
    var merged := Copied(base, first, EXPLANATIONS)["result" := result];
    MergedKey(base, first, result, "id");
    MergedKey(base, first, result, "success");
    forall k | IsExplanation(k)
      ensures k in merged <==> Given(handled, k)
      ensures Field(merged, k, Null) == if Given(handled, k) then handled[k] else Null
    {
      VerdictField(handled, k);
      MergedKey(base, first, result, k);
    }
  }

  lemma MergedVerdict(cid: string, arrivals: seq<Object>, first: Object, handled: Object)
    requires |arrivals| >= 2 && Sort(ChunkIndex, arrivals) != [] && Sort(ChunkIndex, arrivals)[0] == first
    requires SameVerdict(cid, first, handled)
    ensures SameVerdict(cid, Merge(cid, arrivals), handled)
  {
    CopiedVerdict(cid, first, Rebuilt(first, Shares(Sort(ChunkIndex, arrivals))), handled);
  }

  /** Whatever a handler answers, split or not, and in whatever order the packets come, the caller gets its verdict. */
  lemma VerdictSurvives(cid: string, handled: Object, m: Mostly, arrivals: seq<Object>)
    requires multiset(arrivals) == multiset(PacketsOf(cid, handled, m))
    ensures SameVerdict(cid, Merge(cid, arrivals), handled)
  {
    if OverBudget(Payload(handled), m) {
      var r := SplitOf(handled, m);
      SplitIsWellFormed(handled, m);
      ArrivalCount(cid, r, arrivals);
      FirstPacketVerdict(cid, handled, m);
      assert Packets(cid, r)[0] == PacketAt(cid, r, 0);
      if |r.groups| == 1 {
        assert Packets(cid, r) == [PacketAt(cid, r, 0)];
        OneArrival(arrivals, PacketAt(cid, r, 0));
      } else {
        ArrivalsSortToPackets(cid, r, arrivals);
        MergedVerdict(cid, arrivals, PacketAt(cid, r, 0), handled);
      }
    } else {
      OneArrival(arrivals, Unsplit(cid, handled));
      UnsplitVerdict(cid, handled);
    }
  }

  /** It does happen: of tables whose one array has a single element, to those with 996 characters or more. */
  lemma LongElementIsLost(s: string)
    ensures var payload := Obj(map["spots" := Arr([Str(s)])]);
            IsMostly(payload, Under("spots")) && (IsLost(payload, Under("spots")) <==> |s| >= 996)
  {
    var payload := Obj(map["spots" := Arr([Str(s)])]);
    assert Elements(payload, Under("spots")) == [Str(s)];
    assert [Str(s)][..0] == [];
    assert ItemsSize([Str(s)], 1) == ApproxSize(Str(s), 1) + 1;
  }
}
