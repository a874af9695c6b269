/**
 * The stats route (GET): how many images the selection holds and how many of
 * them are verified (`isGoldStandard === true`), over every page of the
 * read the strategy chooses.
 */
module Stats {
  import opened Wrappers
  import opened Records
  import opened Filters
  import opened Store
  import opened Params
  import opened Seqs
  import opened Cursor

  /** The checks made in code on each row: `farmerNeed` on the trimmed farmer, `cropNeed` on the lower-cased crop. */
  datatype Need = Need(farmer: Option<string>, crop: Option<string>)

  /** A row passes unless a given need differs from its normalised attribute. */
  predicate Passes(r: Record, need: Need) {
    (!Given(need.farmer) || NormalizeStr(Attr(r, "farmerName")) == need.farmer.value) &&
    (!Given(need.crop) || NormalizeLower(Attr(r, "cropName")) == need.crop.value)
  }

  /** `d.isGoldStandard === true`. */
  predicate IsVerified(r: Record) {
    IsTrue(Attr(r, "isGoldStandard"))
  }

  /** The rows `total` counts. */
  function TotalTest(need: Need): Record -> bool {
    r => Passes(r, need)
  }

  /** The rows `verified` counts. */
  function VerifiedTest(need: Need): Record -> bool {
    r => Passes(r, need) && IsVerified(r)
  }

  datatype Tally = Tally(total: nat, verified: nat)

  /** The counts over a sequence of rows: the rows `count` accepts, and of those the rows `gold` accepts. */
  function TallyOf(rows: seq<Record>, count: Record -> bool, gold: Record -> bool): (t: Tally)
    ensures t.total <= |rows| && t.verified <= |rows|
  {
    Tally(Seqs.Count(rows, count), Seqs.Count(rows, gold))
  }

  /** Counts over a concatenation add up. */
  lemma TallyAppend(a: seq<Record>, b: seq<Record>, count: Record -> bool, gold: Record -> bool)
    ensures TallyOf(a + b, count, gold).total == TallyOf(a, count, gold).total + TallyOf(b, count, gold).total
    ensures TallyOf(a + b, count, gold).verified == TallyOf(a, count, gold).verified + TallyOf(b, count, gold).verified
  {
    CountAppend(a, b, count);
    CountAppend(a, b, gold);
  }

  /** `countRows` and the inline loop of the scan: add one page's rows to the running counts. */
  method CountRows(rows: seq<Record>, need: Need, total0: nat, verified0: nat) returns (total: nat, verified: nat)
    ensures total == total0 + TallyOf(rows, TotalTest(need), VerifiedTest(need)).total
    ensures verified == verified0 + TallyOf(rows, TotalTest(need), VerifiedTest(need)).verified
  {
    total, verified := total0, verified0;
    for i := 0 to |rows|
      invariant total == total0 + TallyOf(rows[..i], TotalTest(need), VerifiedTest(need)).total
      invariant verified == verified0 + TallyOf(rows[..i], TotalTest(need), VerifiedTest(need)).verified
    {
      var d := rows[i];
      CountPrefix(rows, i, TotalTest(need));
      CountPrefix(rows, i, VerifiedTest(need));
      if Given(need.farmer) && NormalizeStr(Attr(d, "farmerName")) != need.farmer.value {
        continue;
      }
      if Given(need.crop) && NormalizeLower(Attr(d, "cropName")) != need.crop.value {
        continue;
      }
      total := total + 1;
      if IsTrue(Attr(d, "isGoldStandard")) {
        verified := verified + 1;
      }
    }
    assert rows[..|rows|] == rows;
  }

  /**
   * The running counts after every page from `q` until the key is falsy,
   * starting from `total` and `verified`; `None` when a request fails.
   */
  function Counted(fetch: Request -> Response, measure: Request -> nat, q: Request, count: Record -> bool,
                   gold: Record -> bool, total: nat, verified: nat): Option<Tally>
    requires Progress(fetch, measure)
    decreases measure(q)
  {
    match fetch(q)
    case Failed => None
    case Ok(p) =>
      var t := total + TallyOf(p.items, count, gold).total;
      var v := verified + TallyOf(p.items, count, gold).verified;
      if !KeyTruthy(p.lastKey) then Some(Tally(t, v))
      else Counted(fetch, measure, From(q, p.lastKey), count, gold, t, v)
  }

  /** The counts of a whole read under the in-code checks `need`, from zero. */
  function Outcome(fetch: Request -> Response, measure: Request -> nat, q: Request, need: Need): Option<Tally>
    requires Progress(fetch, measure)
  {
    Counted(fetch, measure, q, TotalTest(need), VerifiedTest(need), 0, 0)
  }

  /** Counting page by page is counting over the concatenation of every page. */
  lemma {:induction false} CountedWalk(fetch: Request -> Response, measure: Request -> nat, q: Request,
                                       count: Record -> bool, gold: Record -> bool, total: nat, verified: nat)
    requires Progress(fetch, measure)
    ensures Counted(fetch, measure, q, count, gold, total, verified) ==
      match Walk(fetch, measure, q)
      case None => None
      case Some(rows) => Some(Tally(total + TallyOf(rows, count, gold).total, verified + TallyOf(rows, count, gold).verified))
    decreases measure(q)
  {
    match fetch(q)
    case Failed =>
    case Ok(p) =>
      if KeyTruthy(p.lastKey) {
        var next := From(q, p.lastKey);
        var here := TallyOf(p.items, count, gold);
        CountedWalk(fetch, measure, next, count, gold, total + here.total, verified + here.verified);
        if Walk(fetch, measure, next).Some? {
          TallyAppend(p.items, Walk(fetch, measure, next).value, count, gold);
        }
      }
  }

  /** The counts of a whole read are the counts over every row of the walk. */
  lemma OutcomeWalk(fetch: Request -> Response, measure: Request -> nat, q: Request, need: Need)
    requires Progress(fetch, measure)
    ensures Outcome(fetch, measure, q, need).Some? <==> Walk(fetch, measure, q).Some?
    ensures Outcome(fetch, measure, q, need).Some? ==>
      Outcome(fetch, measure, q, need).value == TallyOf(Walk(fetch, measure, q).value, TotalTest(need), VerifiedTest(need))
  {
    CountedWalk(fetch, measure, q, TotalTest(need), VerifiedTest(need), 0, 0);
  }

  /** The last page, or one more page and the rest, once the page is counted into `t` and `v`. */
  lemma CountedStep(fetch: Request -> Response, measure: Request -> nat, q: Request, p: Page, count: Record -> bool,
                    gold: Record -> bool, total: nat, verified: nat, t: nat, v: nat)
    requires Progress(fetch, measure) && fetch(q) == Ok(p)
    requires t == total + TallyOf(p.items, count, gold).total && v == verified + TallyOf(p.items, count, gold).verified
    ensures Counted(fetch, measure, q, count, gold, total, verified) ==
      if !KeyTruthy(p.lastKey) then Some(Tally(t, v))
      else Counted(fetch, measure, From(q, p.lastKey), count, gold, t, v)
  {
  }

  /** `do { … countRows(rows) … } while (ExclusiveStartKey)`: count every page until the key is falsy. */
  method CountAll(fetch: Request -> Response, measure: Request -> nat, q0: Request, need: Need) returns (r: Option<Tally>)
    requires Progress(fetch, measure)
    ensures r == Outcome(fetch, measure, q0, need)
  {
    var total: nat := 0;
    var verified: nat := 0;
    var q := q0;
    while true
      invariant Outcome(fetch, measure, q0, need) == Counted(fetch, measure, q, TotalTest(need), VerifiedTest(need), total, verified)
      decreases measure(q)
    {
      var res := fetch(q);
      if res.Failed? {
        return None;
      }
      var t, v := CountRows(res.page.items, need, total, verified);
      CountedStep(fetch, measure, q, res.page, TotalTest(need), VerifiedTest(need), total, verified, t, v);
      total, verified := t, v;
      if !KeyTruthy(res.page.lastKey) {
        return Some(Tally(total, verified));
      }
      q := From(q, res.page.lastKey);
    }
  }

  // ----- the route -----

  datatype StatsResponse = StatsOk(total: nat, verified: nat) | StatsFailed

  /** The read and the in-code checks of each strategy: the crop is checked in code only on the farmer index. */
  function Plan(s: Strategy, filter: Filter): (Request, Need) {
    match s
    case FarmerAndCrop(f, c) => (Request(FarmerIndex(f), filter, None, None), Need(None, Some(c)))
    case FarmerOnly(f) => (Request(FarmerIndex(f), filter, None, None), Need(None, None))
    case CropOnly(c) => (Request(CropIndex(c), filter, None, None), Need(None, None))
    case FullScan => (Request(WholeTable, filter, None, None), Need(None, None))
  }

  /** The answer for a strategy and a filter. */
  function StatsFor(fetch: Request -> Response, measure: Request -> nat, s: Strategy, filter: Filter): StatsResponse
    requires Progress(fetch, measure)
  {
    match Outcome(fetch, measure, Plan(s, filter).0, Plan(s, filter).1)
    case None => StatsFailed
    case Some(t) => StatsOk(t.total, t.verified)
  }

  /** The filter of a query: `pestDetected` and `diseaseDetected` only. */
  function StatsFilter(q: Query): Filter {
    FilterFor(Param(q, "pestDetected"), Param(q, "diseaseDetected"), None)
  }

  /** The whole answer of the route. */
  function StatsSpec(fetch: Request -> Response, measure: Request -> nat, q: Query): StatsResponse
    requires Progress(fetch, measure)
  {
    StatsFor(fetch, measure, StrategyOf(q), StatsFilter(q))
  }

  /** `GET /api/stats`. */
  method Get(fetch: Request -> Response, measure: Request -> nat, q: Query) returns (resp: StatsResponse)
    requires Progress(fetch, measure)
    ensures resp == StatsSpec(fetch, measure, q)
  {
    var crop := CropSelection(q);
    var farmer := FarmerSelection(q);
    var filter := BuildFilter(Param(q, "pestDetected"), Param(q, "diseaseDetected"), None);
    var usingFarmerQuery := Using(farmer);
    var usingCropQuery := Using(crop);
    var r: Option<Tally>;
    if usingFarmerQuery {
      var need := Need(None, if usingCropQuery then crop else None);
      r := CountAll(fetch, measure, Request(FarmerIndex(farmer.value), filter, None, None), need);
    } else if usingCropQuery {
      var need := Need(None, None);
      r := CountAll(fetch, measure, Request(CropIndex(crop.value), filter, None, None), need);
    } else {
      var cropNeed := if usingCropQuery then crop else None;
      var farmerNeed := if usingFarmerQuery then farmer else None;
      var need := Need(farmerNeed, cropNeed);
      r := CountAll(fetch, measure, Request(WholeTable, filter, None, None), need);
    }
    resp := if r.None? then StatsFailed else StatsOk(r.value.total, r.value.verified);
  }

  // ----- properties -----

  /**
   * The answer is the count over the concatenation of every page the read
   * returns: it fails exactly when some request fails.
   */
  lemma StatsOverWalk(fetch: Request -> Response, measure: Request -> nat, s: Strategy, filter: Filter)
    requires Progress(fetch, measure)
    ensures var req := Plan(s, filter).0;
      StatsFor(fetch, measure, s, filter).StatsOk? <==> Walk(fetch, measure, req).Some?
    ensures var (req, need) := Plan(s, filter);
      Walk(fetch, measure, req).Some? ==>
        StatsFor(fetch, measure, s, filter).total == Seqs.Count(Walk(fetch, measure, req).value, TotalTest(need)) &&
        StatsFor(fetch, measure, s, filter).verified == Seqs.Count(Walk(fetch, measure, req).value, VerifiedTest(need))
  {
    OutcomeWalk(fetch, measure, Plan(s, filter).0, Plan(s, filter).1);
  }

  /** Whatever the strategy, the verified count never exceeds the total. */
  lemma VerifiedAtMostTotal(fetch: Request -> Response, measure: Request -> nat, s: Strategy, filter: Filter)
    requires Progress(fetch, measure)
    requires StatsFor(fetch, measure, s, filter).StatsOk?
    ensures StatsFor(fetch, measure, s, filter).verified <= StatsFor(fetch, measure, s, filter).total
  {
    var (req, need) := Plan(s, filter);
    StatsOverWalk(fetch, measure, s, filter);
    CountMono(Walk(fetch, measure, req).value, VerifiedTest(need), TotalTest(need));
  }

  /** The filter only ever constrains `pestPresent` and `diseasePresent`: `goldStandard` is not read. */
  lemma StatsFilterIgnoresGold(q: Query)
    ensures Scoped(StatsFilter(q))
    ensures forall r :: Holds(StatsFilter(q), r) <==>
      FlagSelects(Param(q, "pestDetected"), Attr(r, "pestPresent")) &&
      FlagSelects(Param(q, "diseaseDetected"), Attr(r, "diseasePresent"))
  {
    FilterSelects(Param(q, "pestDetected"), Param(q, "diseaseDetected"), None);
  }

  /** Two queries that differ only in `goldStandard` get the same answer. */
  lemma StatsIndependentOfGold(fetch: Request -> Response, measure: Request -> nat, q1: Query, q2: Query)
    requires Progress(fetch, measure)
    requires forall name :: name != "goldStandard" ==> Param(q1, name) == Param(q2, name)
    ensures StatsSpec(fetch, measure, q1) == StatsSpec(fetch, measure, q2)
  {
    assert Param(q1, "crop") == Param(q2, "crop");
    assert Param(q1, "farmer") == Param(q2, "farmer");
    assert Param(q1, "pestDetected") == Param(q2, "pestDetected");
    assert Param(q1, "diseaseDetected") == Param(q2, "diseaseDetected");
  }

  /** Without in-code checks every row of the walk counts, and `verified` counts the rows whose flag is exactly true. */
  lemma NoNeedCountsEveryRow(fetch: Request -> Response, measure: Request -> nat, q: Request)
    requires Progress(fetch, measure)
    requires Walk(fetch, measure, q).Some?
    ensures var rows := Walk(fetch, measure, q).value;
      Outcome(fetch, measure, q, Need(None, None)) ==
      Some(Tally(|rows|, Seqs.Count(rows, r => IsVerified(r))))
  {
    var rows := Walk(fetch, measure, q).value;
    OutcomeWalk(fetch, measure, q, Need(None, None));
    assert forall i :: 0 <= i < |rows| ==> TotalTest(Need(None, None))(rows[i]);
    CountEvery(rows, TotalTest(Need(None, None)));
    SameCount(rows, VerifiedTest(Need(None, None)), r => IsVerified(r));
  }

  /**
   * The scan is chosen only when neither a farmer nor a crop is used, so its
   * in-code farmer and crop checks never reject a row: it counts every row
   * the filter lets through.
   */
  lemma ScanCountsEveryRow(fetch: Request -> Response, measure: Request -> nat, filter: Filter)
    requires Progress(fetch, measure)
    requires Walk(fetch, measure, Request(WholeTable, filter, None, None)).Some?
    ensures StatsFor(fetch, measure, FullScan, filter).StatsOk?
    ensures StatsFor(fetch, measure, FullScan, filter).total == |Walk(fetch, measure, Request(WholeTable, filter, None, None)).value|
  {
    NoNeedCountsEveryRow(fetch, measure, Request(WholeTable, filter, None, None));
  }

  /** On the farmer index with a crop, exactly the rows of that crop count. */
  lemma FarmerCropCounts(fetch: Request -> Response, measure: Request -> nat, f: string, c: string, filter: Filter)
    requires Progress(fetch, measure)
    requires c != []
    requires Walk(fetch, measure, Request(FarmerIndex(f), filter, None, None)).Some?
    ensures var rows := Walk(fetch, measure, Request(FarmerIndex(f), filter, None, None)).value;
      StatsFor(fetch, measure, FarmerAndCrop(f, c), filter) ==
      StatsOk(Seqs.Count(rows, r => NormalizeLower(Attr(r, "cropName")) == c),
              Seqs.Count(rows, r => NormalizeLower(Attr(r, "cropName")) == c && IsVerified(r)))
  {
    var rows := Walk(fetch, measure, Request(FarmerIndex(f), filter, None, None)).value;
    var need := Need(None, Some(c));
    StatsOverWalk(fetch, measure, FarmerAndCrop(f, c), filter);
    SameCount(rows, TotalTest(need), r => NormalizeLower(Attr(r, "cropName")) == c);
    SameCount(rows, VerifiedTest(need), r => NormalizeLower(Attr(r, "cropName")) == c && IsVerified(r));
  }

  /** Two tests that agree count the same. */
  lemma {:induction false} SameCount(rows: seq<Record>, a: Record -> bool, b: Record -> bool)
    requires forall r :: a(r) == b(r)
    ensures Seqs.Count(rows, a) == Seqs.Count(rows, b)
  {
    CountMono(rows, a, b);
    CountMono(rows, b, a);
  }
}
