/** The rows of reported spend, and the per-company totals of participant_report.py.
    Money is counted in whole micro-dollars; a price may be unknown. */
module Spend {
  import opened Options
  import opened Sequences
  import opened OrderedMaps
  import opened Totals
  import Text

  datatype Entry = Entry(model: string, role: string, prompt: nat, completion: nat, cost: Option<nat>)

  /** One recorded report: whose it is, the game date it arrived on, and a named model. */
  datatype Row = Row(company: int, gameDate: int, entry: Entry)

  function CompanyOf(r: Row): int { r.company }
  function ModelOf(r: Row): string { r.entry.model }
  function Pair(r: Row): (string, string) { (r.entry.model, r.entry.role) }
  function Prompt(r: Row): int { r.entry.prompt }
  function Completion(r: Row): int { r.entry.completion }
  function Tokens(r: Row): int { Prompt(r) + Completion(r) }
  function Cost(r: Row): int { OrElse(r.entry.cost, 0) }
  predicate Priced(r: Row) { r.entry.cost.Some? }

  ghost predicate AllPriced(rows: seq<Row>) {
    forall r :: r in rows ==> Priced(r)
  }

  ghost predicate SomePriced(rows: seq<Row>) {
    exists r :: r in rows && Priced(r)
  }

  /** The rows that a declaration leaves: entries without a model name are dropped. */
  function Kept(company: int, gameDate: int, entries: seq<Entry>): (rows: seq<Row>)
    ensures forall r :: r in rows ==> r.company == company && r.entry.model != ""
  {
    if entries == [] then []
    else
      var e := entries[|entries| - 1];
      Kept(company, gameDate, entries[..|entries| - 1])
      + (if Text.Strip(e.model) == "" then [] else [Row(company, gameDate, e.(model := Text.Strip(e.model)))])
  }

  // ---------------------------------------------------------------- buckets

  datatype Bucket = Bucket(prompt: nat, completion: nat, cost: nat, priced: bool)

  type Ledger = OrderedMap<(string, string), Bucket>

  const EMPTY := Bucket(0, 0, 0, false)

  function Charged(b: Bucket, r: Row): Bucket {
    Bucket(b.prompt + Prompt(r), b.completion + Completion(r), b.cost + Cost(r), b.priced || Priced(r))
  }

  function GetOr<K(==), V>(m: OrderedMap<K, V>, k: K, default: V): V {
    OrElse(Get(m, k), default)
  }

  function Booked(l: Ledger, r: Row): Ledger {
    Put(l, Pair(r), Charged(GetOr(l, Pair(r), EMPTY), r))
  }

  function LedgerOf(rows: seq<Row>): Ledger {
    if rows == [] then [] else Booked(LedgerOf(rows[..|rows| - 1]), rows[|rows| - 1])
  }

  /** What a bucket holds, told from its rows. */
  ghost predicate Holds(b: Bucket, rows: seq<Row>) {
    && b.prompt == Sum(rows, Prompt) && b.completion == Sum(rows, Completion) && b.cost == Sum(rows, Cost)
    && (b.priced <==> SomePriced(rows))
  }

  lemma HoldsStep(b: Bucket, rows: seq<Row>, r: Row)
    requires Holds(b, rows)
    ensures Holds(Charged(b, r), rows + [r])
  {
    SumStep(rows, r, Prompt);
    SumStep(rows, r, Completion);
    SumStep(rows, r, Cost);
    assert SomePriced(rows + [r]) <==> SomePriced(rows) || Priced(r) by {
      assert forall x :: x in rows + [r] <==> x in rows || x == r;
    }
  }

  /** Each (model, role) pair has one bucket, which holds that pair's rows. */
  lemma {:induction false} LedgerHolds(rows: seq<Row>, k: (string, string))
    ensures Get(LedgerOf(rows), k).None? <==> Part(rows, Pair, k) == []
    ensures Holds(GetOr(LedgerOf(rows), k, EMPTY), Part(rows, Pair, k))
    decreases |rows|
  {
    if rows != [] {
      var front, r := rows[..|rows| - 1], rows[|rows| - 1];
      var l := LedgerOf(front);
      LedgerHolds(front, k);
      PutGet(l, Pair(r), Charged(GetOr(l, Pair(r), EMPTY), r), k);
      if Pair(r) == k {
        HoldsStep(GetOr(l, k, EMPTY), Part(front, Pair, k), r);
      } else {
        assert Part(rows, Pair, k) == Part(front, Pair, k);
      }
    }
  }

  lemma {:induction false} LedgerKeys(rows: seq<Row>)
    ensures Distinct(Keys(LedgerOf(rows)))
    ensures forall r :: r in rows ==> Pair(r) in Keys(LedgerOf(rows))
    decreases |rows|
  {
    if rows != [] {
      var r := rows[|rows| - 1];
      LedgerKeys(rows[..|rows| - 1]);
      PutDistinct(LedgerOf(rows[..|rows| - 1]), Pair(r), Charged(GetOr(LedgerOf(rows[..|rows| - 1]), Pair(r), EMPTY), r));
      assert rows == rows[..|rows| - 1] + [r];
    }
  }
}
