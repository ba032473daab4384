/**
  The command id-to-name table: a packet type byte, then entries of one flag byte, a two-byte
  little-endian id and a NUL-terminated name. Decoding a name's bytes may fail.
*/
module CommandNames {
  import opened Options

  type byte = b: int | 0 <= b < 256

  const FLAG_WIDTH := 1
  const ID_WIDTH := 2

  type Decoder = seq<byte> -> Option<string>

  /** Index of the first NUL, or -1. */
  function FindNul(s: seq<byte>): (i: int)
    ensures -1 <= i < |s|
  {
    if s == [] then -1
    else if s[0] == 0 then 0
    else if FindNul(s[1..]) < 0 then -1
    else FindNul(s[1..]) + 1
  }

  lemma {:induction false} FindNulNone(s: seq<byte>)
    ensures FindNul(s) == -1 <==> 0 !in s
  {
    if s != [] {
      FindNulNone(s[1..]);
      assert s == [s[0]] + s[1..];
    }
  }

  function Named(decode: Decoder, names: map<int, string>, id: int, bytes: seq<byte>): map<int, string> {
    match decode(bytes)
    case Some(name) => names[id := name]
    case None => names
  }

  function LittleEndian(low: int, high: int): int {
    low + 256 * high
  }

  /** The walk over the rest of a table. */
  function Parse(decode: Decoder, rest: seq<byte>, names: map<int, string>): map<int, string>
    decreases |rest|
  {
    if |rest| < FLAG_WIDTH + ID_WIDTH || rest[0] == 0 then names
    else
      var end := FindNul(rest[3..]);
      if end < 0 then names
      else Parse(decode, rest[3 + end + 1..], Named(decode, names, LittleEndian(rest[1], rest[2]), rest[3..3 + end]))
  }

  /** What is left of a body from an offset that may lie past its end. */
  function From(body: seq<byte>, offset: nat): seq<byte> {
    if offset <= |body| then body[offset..] else []
  }

  /** One turn of the walk, in terms of positions in the body. */
  lemma ParseStep(decode: Decoder, body: seq<byte>, offset: nat, end: nat, names: map<int, string>)
    requires offset + 3 <= |body| && body[offset] != 0
    requires end == FindNul(body[offset + 3..])
    ensures Parse(decode, From(body, offset), names)
            == Parse(decode, From(body, offset + 3 + end + 1),
                     Named(decode, names, LittleEndian(body[offset + 1], body[offset + 2]), body[offset + 3..offset + 3 + end]))
  {
    var rest := body[offset..];
    assert rest[3..] == body[offset + 3..];
    assert rest[3..3 + end] == body[offset + 3..offset + 3 + end];
    assert rest[3 + end + 1..] == body[offset + 3 + end + 1..];
  }

  lemma ParseStops(decode: Decoder, body: seq<byte>, offset: nat, names: map<int, string>)
    requires offset + 3 <= |body| && (body[offset] == 0 || FindNul(body[offset + 3..]) < 0)
    ensures Parse(decode, From(body, offset), names) == names
  {
    assert body[offset..][3..] == body[offset + 3..];
  }

  /** Reads one entry into `names`; stops at a false flag or at a name that breaks off. */
  method ReadEntryAt(decode: Decoder, body: seq<byte>, offset: nat, names: map<int, string>)
    returns (more: bool, next: nat, extended: map<int, string>)
    requires offset + FLAG_WIDTH + ID_WIDTH <= |body|
    ensures more ==> offset < next && Parse(decode, From(body, offset), names) == Parse(decode, From(body, next), extended)
    ensures !more ==> Parse(decode, From(body, offset), names) == names
  {
    more, next, extended := false, offset, names;
    if body[offset] == 0 {
      ParseStops(decode, body, offset, names);
      return;
    }
    next := offset + FLAG_WIDTH;
    var commandId := LittleEndian(body[next], body[next + 1]);
    next := next + ID_WIDTH;
    assert next == offset + 3;
    var end := FindNul(body[next..]);
    if end < 0 {
      ParseStops(decode, body, offset, names);
      return;
    }
    var name := body[next..next + end];
    extended := Named(decode, names, commandId, name);
    ParseStep(decode, body, offset, end, names);
    more, next := true, next + end + 1;
  }

  method ParseCommandNames(decode: Decoder, body: seq<byte>) returns (names: map<int, string>)
    ensures names == Parse(decode, From(body, 1), map[])
  {
    names := map[];
    var offset := 1; // skip the packet type byte
    var more := true;
    while more && offset + FLAG_WIDTH + ID_WIDTH <= |body|
      invariant more ==> Parse(decode, From(body, offset), names) == Parse(decode, From(body, 1), map[])
      invariant !more ==> names == Parse(decode, From(body, 1), map[])
      decreases more, |body| - offset
    {
      var extended;
      more, offset, extended := ReadEntryAt(decode, body, offset, names);
      if more {
        names := extended;
      }
    }
  }

  // ---------------------------------------------------------------- what the server writes

  datatype Entry = Entry(flag: byte, id: int, name: seq<byte>)

  predicate IsEntry(e: Entry) {
    e.flag != 0 && 0 <= e.id < 0x1_0000 && 0 !in e.name
  }

  predicate AreEntries(es: seq<Entry>) {
    forall i :: 0 <= i < |es| ==> IsEntry(es[i])
  }

  function Written(e: Entry): seq<byte>
    requires IsEntry(e)
  {
    [e.flag, e.id % 256, e.id / 256] + e.name + [0]
  }

  function Table(es: seq<Entry>): seq<byte>
    requires AreEntries(es)
  {
    if es == [] then [] else Written(es[0]) + Table(es[1..])
  }

  /** The map the entries spell out from `names` on: a later entry for an id overrides an earlier one. */
  function Collect(decode: Decoder, es: seq<Entry>, names: map<int, string>): map<int, string> {
    if es == [] then names else Collect(decode, es[1..], Named(decode, names, es[0].id, es[0].name))
  }

  /** How many entries lie wholly within the first `n` bytes of the table. */
  function Whole(es: seq<Entry>, n: int): (k: nat)
    requires AreEntries(es)
    ensures k <= |es|
  {
    if es == [] || |Written(es[0])| > n then 0 else 1 + Whole(es[1..], n - |Written(es[0])|)
  }

  // ---------------------------------------------------------------- round trips

  lemma {:induction false} FindNulAfter(name: seq<byte>, more: seq<byte>)
    requires 0 !in name
    ensures FindNul(name + [0] + more) == |name|
  {
    var s := name + [0] + more;
    if name == [] {
      assert s[0] == 0;
    } else {
      assert s[0] == name[0];
      assert s[1..] == name[1..] + [0] + more;
      FindNulAfter(name[1..], more);
    }
  }

  /** An entry at the front is read whole. */
  lemma ReadsEntry(decode: Decoder, e: Entry, more: seq<byte>, names: map<int, string>)
    requires IsEntry(e)
    ensures Parse(decode, Written(e) + more, names) == Parse(decode, more, Named(decode, names, e.id, e.name))
  {
    var rest := Written(e) + more;
    assert rest[3..] == e.name + [0] + more;
    FindNulAfter(e.name, more);
    assert rest[3..3 + |e.name|] == e.name;
    assert rest[3 + |e.name| + 1..] == more;
    assert LittleEndian(e.id % 256, e.id / 256) == e.id;
  }

  /** An entry byte by byte: after a set flag the id's low byte, its high byte, and the name up to its NUL. */
  lemma ReadsBytes(decode: Decoder, flag: byte, low: byte, high: byte, name: seq<byte>, more: seq<byte>, names: map<int, string>)
    requires flag != 0 && 0 !in name
    ensures Parse(decode, [flag, low, high] + name + [0] + more, names)
            == Parse(decode, more, if decode(name).Some? then names[low + 256 * high := decode(name).value] else names)
  {
    var e := Entry(flag, low + 256 * high, name);
    assert Written(e) == [flag, low, high] + name + [0];
    ReadsEntry(decode, e, more, names);
  }

  /** The rest of a body is the beginning of the entries' table: it may break off anywhere. */
  lemma {:induction false} ReadsPrefix(decode: Decoder, rest: seq<byte>, es: seq<Entry>, names: map<int, string>)
    requires AreEntries(es) && rest <= Table(es)
    ensures Parse(decode, rest, names) == Collect(decode, es[..Whole(es, |rest|)], names)
    decreases |es|
  {
    if es != [] {
      var w := Written(es[0]);
      SplitPrefix(rest, w, Table(es[1..]));
      if |w| <= |rest| {
        var more := rest[|w|..];
        ReadsEntry(decode, es[0], more, names);
        ReadsPrefix(decode, more, es[1..], Named(decode, names, es[0].id, es[0].name));
        var k := Whole(es[1..], |more|);
        assert es[..k + 1][1..] == es[1..][..k];
      } else {
        BreaksOff(decode, rest, es[0], names);
      }
    }
  }

  lemma SplitPrefix(rest: seq<byte>, w: seq<byte>, t: seq<byte>)
    requires rest <= w + t
    ensures |w| <= |rest| ==> rest == w + rest[|w|..] && rest[|w|..] <= t
    ensures |w| > |rest| ==> rest < w
  {
  }

  /** An entry that breaks off is not read. */
  lemma BreaksOff(decode: Decoder, rest: seq<byte>, e: Entry, names: map<int, string>)
    requires IsEntry(e) && rest < Written(e)
    ensures Parse(decode, rest, names) == names
  {
    if |rest| >= 3 {
      assert rest[3..] == e.name[..|rest| - 3];
      FindNulNone(rest[3..]);
    }
  }

  /**
    Parsing any prefix of a written table gives the map of the entries that lie wholly within it,
    with the last entry for an id winning.
  */
  lemma PrefixRoundTrip(decode: Decoder, packetType: byte, es: seq<Entry>, n: nat)
    requires AreEntries(es) && n <= 1 + |Table(es)|
    ensures Parse(decode, From(([packetType] + Table(es))[..n], 1), map[])
            == Collect(decode, es[..Whole(es, n - 1)], map[])
  {
    var body := ([packetType] + Table(es))[..n];
    if n >= 1 {
      assert body[1..] == Table(es)[..n - 1];
      ReadsPrefix(decode, body[1..], es, map[]);
    } else {
      assert es[..0] == [];
    }
  }

  lemma {:induction false} WholeTable(es: seq<Entry>)
    requires AreEntries(es)
    ensures Whole(es, |Table(es)|) == |es|
  {
    if es != [] {
      WholeTable(es[1..]);
    }
  }

  /** Parsing a whole table gives back its entries. */
  lemma RoundTrip(decode: Decoder, packetType: byte, es: seq<Entry>)
    requires AreEntries(es)
    ensures Parse(decode, From([packetType] + Table(es), 1), map[]) == Collect(decode, es, map[])
  {
    var body := [packetType] + Table(es);
    PrefixRoundTrip(decode, packetType, es, |body|);
    WholeTable(es);
    assert body[..|body|] == body && es[..|es|] == es;
  }

  lemma {:induction false} ReadsThenStops(decode: Decoder, es: seq<Entry>, junk: seq<byte>, names: map<int, string>)
    requires AreEntries(es)
    ensures Parse(decode, Table(es) + [0] + junk, names) == Collect(decode, es, names)
    decreases |es|
  {
    if es != [] {
      var w := Written(es[0]);
      assert Table(es) + [0] + junk == w + (Table(es[1..]) + [0] + junk);
      ReadsEntry(decode, es[0], Table(es[1..]) + [0] + junk, names);
      ReadsThenStops(decode, es[1..], junk, Named(decode, names, es[0].id, es[0].name));
    }
  }

  /** The terminating zero flag ends the table, whatever bytes follow it. */
  lemma TerminatorEndsTable(decode: Decoder, packetType: byte, es: seq<Entry>, junk: seq<byte>)
    requires AreEntries(es)
    ensures Parse(decode, From([packetType] + Table(es) + [0] + junk, 1), map[]) == Collect(decode, es, map[])
  {
    var body := [packetType] + Table(es) + [0] + junk;
    assert body[1..] == Table(es) + [0] + junk;
    ReadsThenStops(decode, es, junk, map[]);
  }

  /** Collecting maps each id to its last decodable name. */
  lemma {:induction false} LastNameWins(decode: Decoder, es: seq<Entry>, names: map<int, string>, i: nat)
    requires i < |es| && decode(es[i].name).Some?
    requires forall j :: i < j < |es| && es[j].id == es[i].id ==> decode(es[j].name).None?
    ensures es[i].id in Collect(decode, es, names)
    ensures Collect(decode, es, names)[es[i].id] == decode(es[i].name).value
    decreases |es|
  {
    var first := Named(decode, names, es[0].id, es[0].name);
    if i > 0 {
      LastNameWins(decode, es[1..], first, i - 1);
    } else {
      Unnamed(decode, es[1..], first, es[0].id);
    }
  }

  lemma {:induction false} Unnamed(decode: Decoder, es: seq<Entry>, names: map<int, string>, id: int)
    requires forall j :: 0 <= j < |es| && es[j].id == id ==> decode(es[j].name).None?
    ensures id in Collect(decode, es, names) <==> id in names
    ensures id in names ==> Collect(decode, es, names)[id] == names[id]
    decreases |es|
  {
    if es != [] {
      Unnamed(decode, es[1..], Named(decode, names, es[0].id, es[0].name), id);
    }
  }
}
