/** The per-company detail that a result carries: declared identity, reported spend by
    (model, role), observed action counts.  Fed by the route that also records each report. */
module ParticipantReports {
  import opened Options
  import opened Sequences
  import opened OrderedMaps
  import opened Totals
  import opened Spend
  import Text

  type Identity = map<string, string>

  type Books = map<int, Ledger>

  const IDENTITY_FIELDS := ["nttd_framework", "agent_id", "participant_type"]

  // ---------------------------------------------------------------- the books of all companies

  function LedgerFor(books: Books, company: int): Ledger {
    if company in books then books[company] else []
  }

  function Posted(books: Books, r: Row): Books {
    books[r.company := Booked(LedgerFor(books, r.company), r)]
  }

  function PostedAll(books: Books, rows: seq<Row>): Books {
    if rows == [] then books else Posted(PostedAll(books, rows[..|rows| - 1]), rows[|rows| - 1])
  }

  lemma {:induction false} PostedConcat(books: Books, a: seq<Row>, b: seq<Row>)
    ensures PostedAll(books, a + b) == PostedAll(PostedAll(books, a), b)
    decreases |b|
  {
    if b == [] {
      assert a + b == a;
    } else {
      assert (a + b)[..|a + b| - 1] == a + b[..|b| - 1];
      PostedConcat(books, a, b[..|b| - 1]);
    }
  }

  /** Each company's ledger is the one its own rows make. */
  lemma {:induction false} BooksByCompany(rows: seq<Row>, company: int)
    ensures LedgerFor(PostedAll(map[], rows), company) == LedgerOf(Part(rows, CompanyOf, company))
    ensures company in PostedAll(map[], rows) <==> Part(rows, CompanyOf, company) != []
    decreases |rows|
  {
    if rows != [] {
      var front, r := rows[..|rows| - 1], rows[|rows| - 1];
      BooksByCompany(front, company);
      var own := Part(front, CompanyOf, company);
      if r.company == company {
        assert (own + [r])[..|own|] == own;
      } else {
        assert Part(rows, CompanyOf, company) == own;
      }
    }
  }

  // ---------------------------------------------------------------- the detail of one company

  datatype Line = Line(model: string, role: string, prompt: int, completion: int, cost: Option<int>)

  datatype Counts = Counts(total: nat, successful: nat)

  datatype Detail = Detail(
    identity: Identity,
    models: set<string>,
    prompt: int,
    completion: int,
    totalCost: int,
    costIsReported: bool,
    spendIsReported: bool,
    breakdown: seq<Line>,
    counts: Counts)

  function LineModel(l: Line): string { l.model }
  function LinePrompt(l: Line): int { l.prompt }
  function LineCompletion(l: Line): int { l.completion }
  function LineCost(l: Line): int { match l.cost case None => 0 case Some(c) => c }

  function LineOf(item: ((string, string), Bucket)): Line {
    Line(item.0.0, item.0.1, item.1.prompt, item.1.completion, if item.1.priced then Some(item.1.cost) else None)
  }

  function Breakdown(l: Ledger): seq<Line> {
    seq(|l|, i requires 0 <= i < |l| => LineOf(l[i]))
  }

  function PairsOf(lines: seq<Line>): (pairs: seq<(string, string)>)
    ensures |pairs| == |lines|
  {
    seq(|lines|, i requires 0 <= i < |lines| => (lines[i].model, lines[i].role))
  }

  /** A line carries the sums of its pair's rows, and a price when one was ever stated. */
  ghost predicate LineTells(l: Line, own: seq<Row>) {
    var rows := Part(own, Pair, (l.model, l.role));
    && rows != []
    && l.prompt == Sum(rows, Prompt) && l.completion == Sum(rows, Completion)
    && l.cost == if SomePriced(rows) then Some(Sum(rows, Cost)) else None
  }

  /** One line for each (model, role) pair of the rows. */
  ghost predicate LinesTell(lines: seq<Line>, own: seq<Row>) {
    && Distinct(PairsOf(lines))
    && (forall i :: 0 <= i < |lines| ==> LineTells(lines[i], own))
    && (forall r :: r in own ==> Pair(r) in PairsOf(lines))
  }

  /** Every pair among the rows has been priced at least once. */
  ghost predicate PairsPriced(own: seq<Row>) {
    forall r :: r in own ==> SomePriced(Part(own, Pair, Pair(r)))
  }

  ghost predicate NamesModels(models: set<string>, own: seq<Row>) {
    && (forall r :: r in own ==> ModelOf(r) in models)
    && (forall m :: m in models ==> exists r :: r in own && ModelOf(r) == m)
  }

  /** What the detail of a company must say of that company's own rows. */
  ghost predicate TellsSpend(d: Detail, own: seq<Row>) {
    && d.prompt == Sum(own, Prompt)
    && d.completion == Sum(own, Completion)
    && (d.spendIsReported <==> own != [])
    && NamesModels(d.models, own)
    && (d.costIsReported <==> own != [] && PairsPriced(own))
    && d.totalCost == (if d.costIsReported then Sum(own, Cost) else 0)
    && LinesTell(d.breakdown, own)
  }

  predicate AllLinesPriced(lines: seq<Line>) {
    forall i :: 0 <= i < |lines| ==> lines[i].cost.Some?
  }

  const BLANK: Identity := map["participant_type" := "agent", "agent_id" := "", "nttd_framework" := ""]

  function DetailOf(declared: Identity, l: Ledger, counts: Counts): Detail {
    var lines := Breakdown(l);
    var priced := lines != [] && AllLinesPriced(lines);
    Detail(BLANK + declared, set line | line in lines :: LineModel(line), Sum(lines, LinePrompt), Sum(lines, LineCompletion),
           if priced then Sum(lines, LineCost) else 0, priced, lines != [], lines, counts)
  }

  lemma PairsAreKeys(l: Ledger)
    ensures PairsOf(Breakdown(l)) == Keys(l)
  {
  }

  lemma LineAt(own: seq<Row>, i: nat)
    requires i < |LedgerOf(own)|
    ensures LineTells(LineOf(LedgerOf(own)[i]), own)
  {
    var l := LedgerOf(own);
    LedgerKeys(own);
    GetAt(l, i);
    LedgerHolds(own, l[i].0);
  }

  lemma LinesAreTold(own: seq<Row>)
    ensures LinesTell(Breakdown(LedgerOf(own)), own)
  {
    var l := LedgerOf(own);
    LedgerKeys(own);
    PairsAreKeys(l);
    forall i | 0 <= i < |l| ensures LineTells(Breakdown(l)[i], own) {
      LineAt(own, i);
    }
  }

  lemma LinesPriced(lines: seq<Line>, own: seq<Row>)
    requires LinesTell(lines, own)
    ensures AllLinesPriced(lines) <==> PairsPriced(own)
  {
    var pairs := PairsOf(lines);
    forall r | r in own ensures AllLinesPriced(lines) ==> SomePriced(Part(own, Pair, Pair(r))) {
      var i :| 0 <= i < |pairs| && pairs[i] == Pair(r);
      assert LineTells(lines[i], own);
    }
    forall i | 0 <= i < |lines| ensures PairsPriced(own) ==> lines[i].cost.Some? {
      var r := RowOfLine(lines, own, i);
    }
  }

  /** Some row has the line's pair. */
  lemma RowOfLine(lines: seq<Line>, own: seq<Row>, i: nat) returns (r: Row)
    requires i < |lines| && LinesTell(lines, own)
    ensures r in own && Pair(r) == (lines[i].model, lines[i].role)
  {
    assert LineTells(lines[i], own);
    PartHas(own, Pair, (lines[i].model, lines[i].role));
    r := Part(own, Pair, (lines[i].model, lines[i].role))[0];
  }

  lemma LinesNameModels(lines: seq<Line>, own: seq<Row>)
    requires LinesTell(lines, own)
    ensures NamesModels(set line | line in lines :: LineModel(line), own)
    ensures lines == [] <==> own == []
  {
    var models, pairs := (set line | line in lines :: LineModel(line)), PairsOf(lines);
    forall r | r in own ensures ModelOf(r) in models {
      var i :| 0 <= i < |pairs| && pairs[i] == Pair(r);
      assert lines[i] in lines;
    }
    forall m | m in models ensures exists r :: r in own && ModelOf(r) == m {
      var i :| 0 <= i < |lines| && LineModel(lines[i]) == m;
      var r := RowOfLine(lines, own, i);
    }
    if lines != [] {
      var r := RowOfLine(lines, own, 0);
    }
    assert own != [] ==> own[0] in own;
  }

  lemma LinesSum(lines: seq<Line>, own: seq<Row>)
    requires LinesTell(lines, own)
    ensures Sum(lines, LinePrompt) == Sum(own, Prompt) && Sum(lines, LineCompletion) == Sum(own, Completion)
    ensures AllLinesPriced(lines) ==> Sum(lines, LineCost) == Sum(own, Cost)
  {
    var pairs := PairsOf(lines);
    assert forall i :: 0 <= i < |lines| ==> LineTells(lines[i], own);
    PartsPartition(own, Pair, Prompt, pairs);
    ItemsSum(lines, LinePrompt, own, Pair, Prompt, pairs);
    PartsPartition(own, Pair, Completion, pairs);
    ItemsSum(lines, LineCompletion, own, Pair, Completion, pairs);
    if AllLinesPriced(lines) {
      PartsPartition(own, Pair, Cost, pairs);
      ItemsSum(lines, LineCost, own, Pair, Cost, pairs);
    }
  }

  /** A company's detail tells its own rows, whatever else was declared and counted. */
  lemma DetailTells(declared: Identity, own: seq<Row>, counts: Counts)
    ensures TellsSpend(DetailOf(declared, LedgerOf(own), counts), own)
  {
    var lines := Breakdown(LedgerOf(own));
    LinesAreTold(own);
    LinesSum(lines, own);
    LinesPriced(lines, own);
    LinesNameModels(lines, own);
  }

  // ---------------------------------------------------------------- the classes

  /** The recorder's series of spend rows. */
  class Recorder {
    var rows: seq<Row>

    constructor ()
      ensures rows == []
    {
      rows := [];
    }

    method RecordSpend(r: Row)
      modifies this
      ensures rows == old(rows) + [r]
    {
      rows := rows + [r];
    }
  }

  /** The identity after reading the named fields of a declaration. */
  function Redeclared(was: Identity, fields: Identity, names: seq<string>): Identity {
    if names == [] then was
    else
      var before := Redeclared(was, fields, names[..|names| - 1]);
      var name := names[|names| - 1];
      if name in fields && fields[name] != "" then before[name := fields[name]] else before
  }

  /** A named field takes a stated value; everything else stays. */
  lemma {:induction false} RedeclaredReplaces(was: Identity, fields: Identity, names: seq<string>, f: string)
    ensures var now := Redeclared(was, fields, names);
      if f in names && f in fields && fields[f] != "" then f in now && now[f] == fields[f]
      else (f in now <==> f in was) && (f in now ==> now[f] == was[f])
    decreases |names|
  {
    if names != [] {
      RedeclaredReplaces(was, fields, names[..|names| - 1], f);
      assert names == names[..|names| - 1] + [names[|names| - 1]];
    }
  }

  function IdentityFor(identity: map<int, Identity>, company: int): Identity {
    if company in identity then identity[company] else map[]
  }

  function DetailFor(identity: map<int, Identity>, books: Books, actionCounts: map<int, Counts>, company: int): Detail {
    DetailOf(IdentityFor(identity, company), LedgerFor(books, company),
             if company in actionCounts then actionCounts[company] else Counts(0, 0))
  }

  class ParticipantReport {
    var identity: map<int, Identity>
    var spend: Books

    constructor ()
      ensures identity == map[] && spend == map[]
    {
      identity := map[];
      spend := map[];
    }

    /** Adds one usage to its bucket; an entry that names no model is ignored. */
    method AddModelSpend(company: int, ghost gameDate: int, entry: Entry)
      modifies this`spend
      ensures spend == PostedAll(old(spend), Kept(company, gameDate, [entry]))
    {
      KeptOne(company, gameDate, entry);
      var model := Text.Strip(entry.model);
      if model == "" {
        return;
      }
      var ledger := if company in spend then spend[company] else [];
      var key := (model, entry.role);
      var bucket := GetOr(ledger, key, EMPTY);
      bucket := bucket.(prompt := bucket.prompt + entry.prompt, completion := bucket.completion + entry.completion);
      if entry.cost.Some? {
        bucket := bucket.(cost := bucket.cost + entry.cost.value, priced := true);
      }
      spend := spend[company := Put(ledger, key, bucket)];
    }

    method DeclareIdentity(company: int, fields: Identity)
      modifies this`identity
      ensures identity == old(identity)[company := Redeclared(IdentityFor(old(identity), company), fields, IDENTITY_FIELDS)]
    {
      var known := IdentityFor(identity, company);
      ghost var was := known;
      for i := 0 to |IDENTITY_FIELDS|
        invariant known == Redeclared(was, fields, IDENTITY_FIELDS[..i])
        invariant identity == old(identity)
      {
        assert IDENTITY_FIELDS[..i + 1][..i] == IDENTITY_FIELDS[..i];
        var field := IDENTITY_FIELDS[i];
        if field in fields && fields[field] != "" {
          known := known[field := fields[field]];
        }
      }
      assert IDENTITY_FIELDS[..|IDENTITY_FIELDS|] == IDENTITY_FIELDS;
      identity := identity[company := known];
    }

    /** Identity is replaced, spend is added; the rows posted are those the recorder keeps. */
    method Declare(company: int, ghost gameDate: int, fields: Identity, models: seq<Entry>)
      modifies this
      ensures spend == PostedAll(old(spend), Kept(company, gameDate, models))
      ensures identity == old(identity)[company := Redeclared(IdentityFor(old(identity), company), fields, IDENTITY_FIELDS)]
    {
      DeclareIdentity(company, fields);
      AddAllSpend(company, gameDate, models);
    }

    method AddAllSpend(company: int, ghost gameDate: int, models: seq<Entry>)
      modifies this`spend
      ensures spend == PostedAll(old(spend), Kept(company, gameDate, models))
    {
      for i := 0 to |models|
        invariant spend == PostedAll(old(spend), Kept(company, gameDate, models[..i]))
      {
        AddModelSpend(company, gameDate, models[i]);
        KeptPrefix(old(spend), company, gameDate, models, i);
      }
      assert models[..|models|] == models;
    }

    /** One detail for every company that declared, spent or acted. */
    method Build(actionCounts: map<int, Counts>) returns (summary: map<int, Detail>)
      ensures summary.Keys == identity.Keys + spend.Keys + actionCounts.Keys
      ensures forall c :: c in summary ==> summary[c] == DetailsIn(identity, spend, actionCounts)(c)
    {
      summary := Tabulate(identity.Keys + spend.Keys + actionCounts.Keys, DetailsIn(identity, spend, actionCounts));
    }
  }

  method Tabulate<V>(keys: set<int>, entry: int -> V) returns (table: map<int, V>)
    ensures table.Keys == keys && forall k :: k in keys ==> table[k] == entry(k)
  {
    var left := keys;
    table := map[];
    while left != {}
      invariant left <= keys && table.Keys == keys - left
      invariant forall k :: k in table ==> table[k] == entry(k)
      decreases |left|
    {
      assert exists k :: k in left by {
        assert (forall k :: k !in left) ==> left == {};
      }
      var k :| k in left;
      table := table[k := entry(k)];
      left := left - {k};
    }
  }

  function DetailsIn(identity: map<int, Identity>, books: Books, actionCounts: map<int, Counts>): int -> Detail {
    c => DetailFor(identity, books, actionCounts, c)
  }

  lemma KeptOne(company: int, gameDate: int, entry: Entry)
    ensures Kept(company, gameDate, [entry])
            == if Text.Strip(entry.model) == "" then [] else [Row(company, gameDate, entry.(model := Text.Strip(entry.model)))]
  {
    assert [entry][..0] == [];
  }

  lemma KeptAt(rows: seq<Row>, company: int, gameDate: int, entries: seq<Entry>, i: nat)
    requires i < |entries|
    ensures var soFar, model := rows + Kept(company, gameDate, entries[..i]), Text.Strip(entries[i].model);
            rows + Kept(company, gameDate, entries[..i + 1])
            == if model == "" then soFar else soFar + [Row(company, gameDate, entries[i].(model := model))]
  {
    assert entries[..i + 1][..i] == entries[..i];
  }

  lemma KeptStep(company: int, gameDate: int, entries: seq<Entry>, e: Entry)
    ensures Kept(company, gameDate, entries + [e]) == Kept(company, gameDate, entries) + Kept(company, gameDate, [e])
  {
    KeptOne(company, gameDate, e);
    assert (entries + [e])[..|entries|] == entries;
  }

  lemma KeptPrefix(books: Books, company: int, gameDate: int, entries: seq<Entry>, i: nat)
    requires i < |entries|
    ensures PostedAll(PostedAll(books, Kept(company, gameDate, entries[..i])), Kept(company, gameDate, [entries[i]]))
            == PostedAll(books, Kept(company, gameDate, entries[..i + 1]))
  {
    assert entries[..i + 1] == entries[..i] + [entries[i]];
    KeptStep(company, gameDate, entries[..i], entries[i]);
    PostedConcat(books, Kept(company, gameDate, entries[..i]), Kept(company, gameDate, [entries[i]]));
  }

  method RecordAll(recorder: Recorder, company: int, gameDate: int, models: seq<Entry>)
    modifies recorder
    ensures recorder.rows == old(recorder.rows) + Kept(company, gameDate, models)
  {
    for i := 0 to |models|
      invariant recorder.rows == old(recorder.rows) + Kept(company, gameDate, models[..i])
    {
      KeptAt(old(recorder.rows), company, gameDate, models, i);
      var model := Text.Strip(models[i].model);
      if model != "" {
        recorder.RecordSpend(Row(company, gameDate, models[i].(model := model)));
      }
    }
    assert models[..|models|] == models;
  }

  /** The route: the same entries go into the totals and, row by row, into the series,
      and so the totals stay those of the series. */
  method ReportSpend(report: ParticipantReport, recorder: Recorder, company: int, gameDate: int,
                     fields: Identity, models: seq<Entry>)
    modifies report, recorder
    ensures recorder.rows == old(recorder.rows) + Kept(company, gameDate, models)
    ensures old(report.spend) == PostedAll(map[], old(recorder.rows)) ==> report.spend == PostedAll(map[], recorder.rows)
  {
    PostedConcat(map[], recorder.rows, Kept(company, gameDate, models));
    report.Declare(company, gameDate, fields, models);
    RecordAll(recorder, company, gameDate, models);
  }

  // ---------------------------------------------------------------- conservation over a session

  lemma DetailTotals(rows: seq<Row>, identity: map<int, Identity>, actionCounts: map<int, Counts>, company: int)
    ensures TellsSpend(DetailFor(identity, PostedAll(map[], rows), actionCounts, company), Part(rows, CompanyOf, company))
    ensures DetailTokens(DetailFor(identity, PostedAll(map[], rows), actionCounts, company))
            == Sum(Part(rows, CompanyOf, company), Tokens)
  {
    var own := Part(rows, CompanyOf, company);
    BooksByCompany(rows, company);
    DetailTells(IdentityFor(identity, company), own, if company in actionCounts then actionCounts[company] else Counts(0, 0));
    TokensSum(own);
  }

  /** The details of all companies add up to the recorded rows, token for token. */
  lemma SessionTotals(rows: seq<Row>, identity: map<int, Identity>, actionCounts: map<int, Counts>,
                      companies: seq<int>, details: seq<Detail>)
    requires Distinct(companies) && |details| == |companies| && forall r :: r in rows ==> r.company in companies
    requires forall i :: 0 <= i < |companies| ==>
               details[i] == DetailFor(identity, PostedAll(map[], rows), actionCounts, companies[i])
    ensures Sum(details, DetailTokens) == Sum(rows, Tokens)
  {
    forall i | 0 <= i < |companies| ensures DetailTokens(details[i]) == Sum(Part(rows, CompanyOf, companies[i]), Tokens) {
      DetailTotals(rows, identity, actionCounts, companies[i]);
    }
    forall r | r in rows ensures CompanyOf(r) in companies {
    }
    PartsPartition(rows, CompanyOf, Tokens, companies);
    ItemsSum(details, DetailTokens, rows, CompanyOf, Tokens, companies);
  }

  function DetailTokens(d: Detail): int { d.prompt + d.completion }

  lemma {:induction false} TokensSum(rows: seq<Row>)
    ensures Sum(rows, Tokens) == Sum(rows, Prompt) + Sum(rows, Completion)
    decreases |rows|
  {
    if rows != [] {
      TokensSum(rows[..|rows| - 1]);
    }
  }

  /** Which rows there are, not their order, decides whether every pair has been priced. */
  lemma PricedInAnyOrder(a: seq<Row>, b: seq<Row>)
    requires multiset(a) == multiset(b)
    ensures PairsPriced(a) ==> PairsPriced(b)
  {
    assert forall r :: r in a <==> r in multiset(a);
    assert forall r :: r in b <==> r in multiset(b);
    if PairsPriced(a) {
      forall r | r in b ensures SomePriced(Part(b, Pair, Pair(r))) {
        assert SomePriced(Part(a, Pair, Pair(r)));
        var q :| q in Part(a, Pair, Pair(r)) && Priced(q);
        PartHas(a, Pair, Pair(r));
        PartHas(b, Pair, Pair(r));
        assert q in Part(b, Pair, Pair(r));
      }
    }
  }

  lemma SameSpendInAnyOrder(a: seq<Row>, b: seq<Row>, d: Detail, e: Detail)
    requires multiset(a) == multiset(b) && TellsSpend(d, a) && TellsSpend(e, b)
    ensures d.prompt == e.prompt && d.completion == e.completion && d.spendIsReported == e.spendIsReported
    ensures d.costIsReported == e.costIsReported && d.totalCost == e.totalCost
  {
    SumOfPermutation(a, b, Prompt);
    SumOfPermutation(a, b, Completion);
    SumOfPermutation(a, b, Cost);
    PricedInAnyOrder(a, b);
    PricedInAnyOrder(b, a);
    assert |a| == |multiset(a)| == |multiset(b)| == |b|;
  }

  /** Reports that arrive in another order, or split otherwise over declarations, leave a company the
      same totals, of tokens and of money, and the same word on whether they are reported. */
  lemma OrderDoesNotMatter(a: seq<Row>, b: seq<Row>, identity: map<int, Identity>, actionCounts: map<int, Counts>, company: int)
    requires multiset(a) == multiset(b)
    ensures var d := DetailFor(identity, PostedAll(map[], a), actionCounts, company);
            var e := DetailFor(identity, PostedAll(map[], b), actionCounts, company);
      && d.prompt == e.prompt && d.completion == e.completion && d.spendIsReported == e.spendIsReported
      && d.costIsReported == e.costIsReported && d.totalCost == e.totalCost
  {
    DetailTotals(a, identity, actionCounts, company);
    DetailTotals(b, identity, actionCounts, company);
    PartsOfPermutation(a, b, CompanyOf, company);
    SameSpendInAnyOrder(Part(a, CompanyOf, company), Part(b, CompanyOf, company),
                        DetailFor(identity, PostedAll(map[], a), actionCounts, company),
                        DetailFor(identity, PostedAll(map[], b), actionCounts, company));
  }

  // ---------------------------------------------------------------- identity over a session

  /** What a company stated of itself. */
  datatype Declaration = Declaration(company: int, fields: Identity)

  /** The identities after these declarations. */
  function IdentitiesAfter(ds: seq<Declaration>): map<int, Identity> {
    if ds == [] then map[]
    else
      var before, d := IdentitiesAfter(ds[..|ds| - 1]), ds[|ds| - 1];
      before[d.company := Redeclared(IdentityFor(before, d.company), d.fields, IDENTITY_FIELDS)]
  }

  predicate States(d: Declaration, company: int, f: string) {
    d.company == company && f in d.fields && d.fields[f] != ""
  }

  /** The value was stated, and nothing else was stated later. */
  ghost predicate IsLastStated(ds: seq<Declaration>, company: int, f: string, v: string) {
    exists i :: 0 <= i < |ds| && States(ds[i], company, f) && ds[i].fields[f] == v
                && forall j :: i < j < |ds| ==> !States(ds[j], company, f)
  }

  ghost predicate NeverStated(ds: seq<Declaration>, company: int, f: string) {
    forall i :: 0 <= i < |ds| ==> !States(ds[i], company, f)
  }

  predicate IsIdentityField(f: string) {
    f == "nttd_framework" || f == "agent_id" || f == "participant_type"
  }

  lemma IdentityFields(f: string)
    ensures f in IDENTITY_FIELDS <==> IsIdentityField(f)
  {
  }

  lemma LastStatedStep(ds: seq<Declaration>, d: Declaration, company: int, f: string, v: string)
    ensures IsLastStated(ds + [d], company, f, v)
            <==> if States(d, company, f) then v == d.fields[f] else IsLastStated(ds, company, f, v)
    ensures NeverStated(ds + [d], company, f) <==> NeverStated(ds, company, f) && !States(d, company, f)
  {
    var all := ds + [d];
    assert all[|ds|] == d && forall i :: 0 <= i < |ds| ==> all[i] == ds[i];
    if i: nat :| i < |ds| && States(ds[i], company, f) && ds[i].fields[f] == v && forall j :: i < j < |ds| ==> !States(ds[j], company, f) {
      assert all[i] == ds[i];
    }
    if States(d, company, f) && v == d.fields[f] {
      assert States(all[|ds|], company, f) && all[|ds|].fields[f] == v;
    }
  }

  /** Each field of each company's identity holds what was last stated for it, if anything was. */
  lemma {:induction false} IdentityIsLastStated(ds: seq<Declaration>, company: int, f: string)
    ensures var identity := IdentityFor(IdentitiesAfter(ds), company);
            && (f in identity <==> IsIdentityField(f) && !NeverStated(ds, company, f))
            && (f in identity ==> IsLastStated(ds, company, f, identity[f]))
    ensures company in IdentitiesAfter(ds) <==> exists i :: 0 <= i < |ds| && ds[i].company == company
    decreases |ds|
  {
    if ds != [] {
      var front, d := ds[..|ds| - 1], ds[|ds| - 1];
      assert ds == front + [d];
      IdentityIsLastStated(front, company, f);
      IdentityFields(f);
      RedeclaredReplaces(IdentityFor(IdentitiesAfter(front), d.company), d.fields, IDENTITY_FIELDS, f);
      var identity := IdentityFor(IdentitiesAfter(ds), company);
      LastStatedStep(front, d, company, f, if f in identity then identity[f] else "");
      assert ds[|ds| - 1].company == d.company && forall i :: 0 <= i < |front| ==> ds[i] == front[i];
    }
  }

  function DefaultFor(f: string): string {
    if f == "participant_type" then "agent" else ""
  }

  lemma BlankFields(declared: Identity, f: string)
    requires f in declared ==> IsIdentityField(f)
    ensures f in BLANK + declared <==> IsIdentityField(f)
    ensures f in BLANK + declared ==> (BLANK + declared)[f] == if f in declared then declared[f] else DefaultFor(f)
  {
  }

  /**
    A company's detail states of it what it last stated of itself, field by field, or the default;
    and its actions are counted as handed in, as none if they were not.
  */
  lemma DetailIdentifies(ds: seq<Declaration>, books: Books, actionCounts: map<int, Counts>, company: int, f: string)
    ensures var d := DetailFor(IdentitiesAfter(ds), books, actionCounts, company);
            && (f in d.identity <==> IsIdentityField(f))
            && (IsIdentityField(f) ==> if NeverStated(ds, company, f) then d.identity[f] == DefaultFor(f)
                                       else IsLastStated(ds, company, f, d.identity[f]))
            && d.counts == if company in actionCounts then actionCounts[company] else Counts(0, 0)
  {
    IdentityIsLastStated(ds, company, f);
    BlankFields(IdentityFor(IdentitiesAfter(ds), company), f);
  }
}
