/**
  Chunked GameScript replies: how the script splits one reply over packets, and how the client
  rebuilds it from the packets in whatever order they came.
*/
module Chunks {
  import opened Json
  import opened KeyedSort

  /** The fields that explain a verdict; they travel with it. */
  const EXPLANATIONS: seq<string> := ["error", "error_code", "error_category", "error_name", "reason"]

  // ---------------------------------------------------------------- the client's side

  function ChunkIndex(o: Object): int {
    match Field(o, "_chunk", Num(0))
    case Num(n) => n
    case _ => 0
  }

  /** One packet's share of the merged list: its array, or its single value. */
  function Share(o: Object): seq<Value> {
    match Field(o, "result", Arr([]))
    case Arr(items) => items
    case v => [v]
  }

  function Shares(os: seq<Object>): seq<Value> {
    if os == [] then [] else Share(os[0]) + Shares(os[1..])
  }

  /** Copies to `into` those of the named fields that `o` has. */
  function Copied(into: Object, o: Object, names: seq<string>): Object
    decreases |names|
  {
    if names == [] then into
    else Copied(if names[0] in o then into[names[0] := o[names[0]]] else into, o, names[1..])
  }

  /** The table a reply's bulk was taken from, with the bulk put back under its key. */
  function Rebuilt(first: Object, bulk: seq<Value>): Value {
    match Field(first, "_key", Null)
    case Str(key) =>
      if key == "" then Arr(bulk)
      else
        var meta := match Field(first, "_meta", Null) case Obj(fields) => fields case _ => map[];
        Obj(meta[key := Arr(bulk)])
    case _ => Arr(bulk)
  }

  /** The one reply made of a call's packets. */
  function Merge(cid: string, chunks: seq<Object>): Object {
    if chunks == [] then map["id" := Str(cid), "success" := Bool(false), "error" := Str("empty")]
    else if |chunks| == 1 then chunks[0]
    else
      var sorted := Sort(ChunkIndex, chunks);
      if sorted == [] then map[]
      else
        var merged := map["id" := Str(cid), "success" := Field(sorted[0], "success", Bool(true))];
        Copied(merged, sorted[0], EXPLANATIONS)["result" := Rebuilt(sorted[0], Shares(sorted))]
  }

  // ---------------------------------------------------------------- the script's side

  /** A reply to be split: its bulk in groups, its verdict fields, and the table around the bulk, if any. */
  datatype Reply = Reply(groups: seq<seq<Value>>, verdict: Object, table: Table)
  datatype Table = NoTable | Table(key: string, rest: Object)

  /** A verdict holds nothing but the success flag and its explanations; a table's bulk is apart from its rest. */
  predicate WellFormed(r: Reply) {
    && |r.groups| >= 1
    && (forall k :: k in r.verdict ==> k == "success" || k in EXPLANATIONS)
    && (r.table.Table? ==> r.table.key !in r.table.rest)
  }

  /** The client takes an empty key for none. */
  predicate Named(r: Reply) {
    r.table.Table? ==> r.table.key != ""
  }

  /** The bulk of the reply, in one piece. */
  function Bulk(groups: seq<seq<Value>>): seq<Value> {
    if groups == [] then [] else groups[0] + Bulk(groups[1..])
  }

  /** The `i`th packet. The first one also carries the verdict and announces the shape. */
  function PacketAt(cid: string, r: Reply, i: nat): Object
    requires i < |r.groups|
  {
    var plain: Object := map["id" := Str(cid), "success" := Bool(true), "result" := Arr(r.groups[i]),
                             "_chunk" := Num(i), "_total" := Num(|r.groups|)];
    if i > 0 then plain
    else
      match r.table
      case NoTable => plain + r.verdict
      case Table(key, rest) => plain + r.verdict + map["_key" := Str(key), "_meta" := Obj(rest)]
  }

  function Packets(cid: string, r: Reply): seq<Object> {
    seq(|r.groups|, i requires 0 <= i < |r.groups| => PacketAt(cid, r, i))
  }

  /** What the caller should get: the verdict, its explanations, and the original list or table. */
  function Original(cid: string, r: Reply): Object {
    var payload := match r.table
      case NoTable => Arr(Bulk(r.groups))
      case Table(key, rest) => Obj(rest[key := Arr(Bulk(r.groups))]);
    map["id" := Str(cid), "success" := Field(r.verdict, "success", Bool(true))]
    + (map k | k in r.verdict && k in EXPLANATIONS :: r.verdict[k])
    + map["result" := payload]
  }

  // ---------------------------------------------------------------- sorting restores the order

  lemma PacketIndices(cid: string, r: Reply, i: nat)
    requires WellFormed(r) && i < |r.groups|
    ensures ChunkIndex(PacketAt(cid, r, i)) == i && Share(PacketAt(cid, r, i)) == r.groups[i]
    ensures PacketAt(cid, r, i)["id"] == Str(cid) && PacketAt(cid, r, i)["_total"] == Num(|r.groups|)
    ensures "_event" !in PacketAt(cid, r, i)
  {
  }

  lemma ArrivalsSortToPackets(cid: string, r: Reply, arrivals: seq<Object>)
    requires WellFormed(r) && multiset(arrivals) == multiset(Packets(cid, r))
    ensures Sort(ChunkIndex, arrivals) == Packets(cid, r)
  {
    forall i, j | 0 <= i < j < |r.groups| ensures ChunkIndex(Packets(cid, r)[i]) < ChunkIndex(Packets(cid, r)[j]) {
      PacketIndices(cid, r, i);
      PacketIndices(cid, r, j);
    }
    SortRestores(ChunkIndex, arrivals, Packets(cid, r));
  }

  lemma {:induction false} SharesFrom(cid: string, r: Reply, i: nat)
    requires WellFormed(r) && i <= |r.groups|
    ensures Shares(Packets(cid, r)[i..]) == Bulk(r.groups[i..])
    decreases |r.groups| - i
  {
    if i < |r.groups| {
      SharesFrom(cid, r, i + 1);
      PacketIndices(cid, r, i);
      assert Packets(cid, r)[i..][1..] == Packets(cid, r)[i + 1..];
      assert r.groups[i..][1..] == r.groups[i + 1..];
    }
  }

  lemma CopiedField(into: Object, o: Object, names: seq<string>, k: string)
    ensures k in Copied(into, o, names) <==> k in into || (k in o && k in names)
    ensures k in Copied(into, o, names) ==> Copied(into, o, names)[k] == if k in o && k in names then o[k] else into[k]
    decreases |names|
  {
    if names != [] {
      CopiedField(if names[0] in o then into[names[0] := o[names[0]]] else into, o, names[1..], k);
    }
  }

  // ---------------------------------------------------------------- reassembly

  lemma FirstPacketFields(cid: string, r: Reply)
    requires WellFormed(r)
    ensures var first := PacketAt(cid, r, 0);
            && Field(first, "success", Bool(true)) == Field(r.verdict, "success", Bool(true))
            && (forall k :: k in EXPLANATIONS ==> (k in first <==> k in r.verdict) && (k in first ==> first[k] == r.verdict[k]))
  {
  }

  lemma FirstPacketTable(cid: string, r: Reply)
    requires WellFormed(r)
    ensures var first := PacketAt(cid, r, 0);
            && Field(first, "_key", Null) == (if r.table.Table? then Str(r.table.key) else Null)
            && (r.table.Table? ==> Field(first, "_meta", Null) == Obj(r.table.rest))
  {
  }

  /** The merged object, field by field. */
  lemma MergedFields(cid: string, r: Reply, k: string)
    requires WellFormed(r) && Named(r)
    ensures var first := PacketAt(cid, r, 0);
            var base: Object := map["id" := Str(cid), "success" := Field(first, "success", Bool(true))];
            var merged := Copied(base, first, EXPLANATIONS)["result" := Payload(Original(cid, r))];
            && (k in merged <==> k in Original(cid, r))
            && (k in merged ==> merged[k] == Original(cid, r)[k])
  {
    var first := PacketAt(cid, r, 0);
    FirstPacketFields(cid, r);
    var base: Object := map["id" := Str(cid), "success" := Field(first, "success", Bool(true))];
    CopiedField(base, first, EXPLANATIONS, k);
  }

  /** What the client makes of the packets' shares: the bulk, in its table where that has a name. */
  lemma BulkIsRestored(cid: string, r: Reply)
    requires WellFormed(r)
    ensures Rebuilt(PacketAt(cid, r, 0), Shares(Packets(cid, r)))
            == if Named(r) then Payload(Original(cid, r)) else Arr(Bulk(r.groups))
  {
    SharesFrom(cid, r, 0);
    assert Packets(cid, r)[0..] == Packets(cid, r) && r.groups[0..] == r.groups;
    FirstPacketTable(cid, r);
  }

  lemma ArrivalCount(cid: string, r: Reply, arrivals: seq<Object>)
    requires multiset(arrivals) == multiset(Packets(cid, r))
    ensures |arrivals| == |r.groups|
  {
    assert |arrivals| == |multiset(arrivals)| == |multiset(Packets(cid, r))|;
  }

  /**
    A reply split over two or more packets is rebuilt exactly, in whatever order the packets came:
    the original list, or the original table with its bulk key and other fields, with the first
    packet's verdict and explanations.
  */
  lemma ReassemblyIsExact(cid: string, r: Reply, arrivals: seq<Object>)
    requires WellFormed(r) && Named(r) && |r.groups| >= 2
    requires multiset(arrivals) == multiset(Packets(cid, r))
    ensures Merge(cid, arrivals) == Original(cid, r)
  {
    ArrivalCount(cid, r, arrivals);
    ArrivalsSortToPackets(cid, r, arrivals);
    BulkIsRestored(cid, r);
    assert Packets(cid, r)[0] == PacketAt(cid, r, 0);
    forall k ensures (k in Merge(cid, arrivals) <==> k in Original(cid, r))
                     && (k in Merge(cid, arrivals) ==> Merge(cid, arrivals)[k] == Original(cid, r)[k])
    {
      MergedFields(cid, r, k);
    }
  }

  /** The payload a caller reads out of a reply. */
  function Payload(o: Object): Value {
    Field(o, "result", Null)
  }

  /**
    The payload that is read out of a split reply: the original one, unless it was a table and its
    bulk fitted one packet, or its key is empty: then it is the bare bulk.
  */
  lemma SplitPayload(cid: string, r: Reply, arrivals: seq<Object>)
    requires WellFormed(r) && multiset(arrivals) == multiset(Packets(cid, r))
    ensures Payload(Merge(cid, arrivals))
            == if r.table.NoTable? || (|r.groups| >= 2 && Named(r)) then Payload(Original(cid, r)) else Arr(Bulk(r.groups))
  {
    ArrivalCount(cid, r, arrivals);
    if |r.groups| >= 2 {
      ArrivalsSortToPackets(cid, r, arrivals);
      BulkIsRestored(cid, r);
      assert Packets(cid, r)[0] == PacketAt(cid, r, 0);
    } else {
      OnePacket(cid, r, arrivals);
    }
  }

  lemma OnePacket(cid: string, r: Reply, arrivals: seq<Object>)
    requires WellFormed(r) && |r.groups| == 1 && multiset(arrivals) == multiset(Packets(cid, r))
    ensures Payload(Merge(cid, arrivals)) == Arr(Bulk(r.groups))
  {
    ArrivalCount(cid, r, arrivals);
    assert arrivals[0] in multiset(Packets(cid, r));
    PacketIndices(cid, r, 0);
    assert Bulk(r.groups) == r.groups[0] + Bulk(r.groups[1..]) == r.groups[0];
    assert "result" !in r.verdict;
  }
}
