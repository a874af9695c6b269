/**
 * The images route (GET): the page size and cursor from the query string,
 * the read strategy, the farmer-and-crop accumulation loop, the projection of
 * records to items and the per-item signed URL.
 */
module Images {
  import opened Wrappers
  import opened JsNumber
  import Json
  import opened Cursor
  import opened Records
  import opened Filters
  import opened Store
  import opened Params
  import opened Seqs

  // ----- page size -----

  /** `Math.min(Number(get("limit") ?? "50"), 200)`: clamped from above only. */
  function Limit(q: Query): (n: Number)
    ensures !n.PosInf?
    ensures n.Finite? ==> n.v <= 200.0
  {
    var requested := ToNumber(Param(q, "limit").GetOr("50"));
    Min(requested, Finite(200.0))
  }

  /** `Number` of the text of a natural number. */
  lemma NumberOfDigits(n: nat, text: string)
    requires text == DecimalString(n)
    ensures ToNumber(text) == Finite(n as real)
  {
    DecimalStringToNumber(n);
  }

  lemma Fifty()
    ensures ToNumber("50") == Finite(50.0)
  {
    assert DecimalString(5) == "5";
    assert DecimalString(50) == "50";
    NumberOfDigits(50, "50");
  }

  /** Without a `limit` parameter the page size is 50. */
  lemma LimitDefault(q: Query)
    requires Param(q, "limit").None?
    ensures Limit(q) == Finite(50.0)
  {
    Fifty();
    assert Param(q, "limit").GetOr("50") == "50";
  }

  /** There is no lower clamp: `limit=0` stays 0. */
  lemma LimitZero()
    ensures Limit([("limit", "0")]) == Finite(0.0)
  {
    var q := [("limit", "0")];
    assert Param(q, "limit") == Some("0");
    assert DecimalString(0) == "0";
    NumberOfDigits(0, "0");
  }

  // ----- farmer and crop: collect matches page by page -----

  /** `normalizeLower(d.cropName) === crop`. */
  predicate CropIs(r: Record, crop: string) {
    NormalizeLower(Attr(r, "cropName")) == crop
  }

  /** The crop test as a value, the argument of `filter`. */
  function CropTest(crop: string): Record -> bool {
    r => CropIs(r, crop)
  }

  /** `pageData.filter(d => normalizeLower(d.cropName) === crop)`: the rows of the crop, in order. */
  function Matches(rows: seq<Record>, crop: string): (m: seq<Record>)
    ensures |m| <= |rows|
  {
    Select(rows, CropTest(crop))
  }

  /** Every match is of the crop, and no row of the crop is dropped. */
  lemma MatchesSelect(rows: seq<Record>, crop: string)
    ensures forall i :: 0 <= i < |Matches(rows, crop)| ==> CropIs(Matches(rows, crop)[i], crop)
    ensures forall i :: 0 <= i < |rows| && CropIs(rows[i], crop) ==> rows[i] in Matches(rows, crop)
  {
    SelectComplete(rows, CropTest(crop));
  }

  /** Filtering page by page is filtering the concatenation. */
  lemma MatchesAppend(a: seq<Record>, b: seq<Record>, crop: string)
    ensures Matches(a + b, crop) == Matches(a, crop) + Matches(b, crop)
  {
    SelectAppend(a, b, CropTest(crop));
  }

  /**
   * The loop of the farmer-and-crop case, continued from request `q` with
   * `acc` already collected: fetch a page, append the rows `keep` accepts, and stop once
   * at least `limit` rows are collected or the page has no truthy key. The
   * result is everything collected and the last page's key; `None` when a
   * request fails.
   */
  function Accumulate(fetch: Request -> Response, measure: Request -> nat, q: Request, keep: Record -> bool,
                      limit: Number, acc: seq<Record>): Option<(seq<Record>, Option<Json.Json>)>
    requires Progress(fetch, measure)
    decreases measure(q)
  {
    match fetch(q)
    case Failed => None
    case Ok(p) =>
      var collected := acc + Select(p.items, keep);
      if AtLeast(|collected|, limit) || !KeyTruthy(p.lastKey) then Some((collected, p.lastKey))
      else Accumulate(fetch, measure, From(q, p.lastKey), keep, limit, collected)
  }

  /** The `do { … } while (startKey)` loop, with its early `break`. */
  method CollectFarmerCrop(fetch: Request -> Response, measure: Request -> nat, q0: Request, keep: Record -> bool,
                           limit: Number) returns (r: Option<(seq<Record>, Option<Json.Json>)>)
    requires Progress(fetch, measure)
    ensures r == Accumulate(fetch, measure, q0, keep, limit, [])
  {
    var collected: seq<Record> := [];
    var q := q0;
    while true
      invariant Accumulate(fetch, measure, q0, keep, limit, []) == Accumulate(fetch, measure, q, keep, limit, collected)
      decreases measure(q)
    {
      var res := fetch(q);
      if res.Failed? {
        return None;
      }
      var cropMatches := Select(res.page.items, keep);
      collected := collected + cropMatches;
      var startKey := res.page.lastKey;
      if AtLeast(|collected|, limit) {
        return Some((collected, startKey));
      }
      if !KeyTruthy(startKey) {
        return Some((collected, startKey));
      }
      q := From(q, startKey);
    }
  }

  /** The loop only appends, and only rows `keep` accepts. */
  lemma {:induction false} AccumulateExtends(fetch: Request -> Response, measure: Request -> nat, q: Request,
                                             keep: Record -> bool, limit: Number, acc: seq<Record>)
    requires Progress(fetch, measure)
    ensures Accumulate(fetch, measure, q, keep, limit, acc).Some? ==>
      var c := Accumulate(fetch, measure, q, keep, limit, acc).value.0;
      acc <= c && forall i :: |acc| <= i < |c| ==> keep(c[i])
    decreases measure(q)
  {
    match fetch(q)
    case Failed =>
    case Ok(p) =>
      var collected := acc + Select(p.items, keep);
      assert forall i :: |acc| <= i < |collected| ==> collected[i] == Select(p.items, keep)[i - |acc|];
      if !(AtLeast(|collected|, limit) || !KeyTruthy(p.lastKey)) {
        AccumulateExtends(fetch, measure, From(q, p.lastKey), keep, limit, collected);
      }
  }

  /** The loop stops only with at least `limit` rows or without a truthy key. */
  lemma {:induction false} AccumulateStops(fetch: Request -> Response, measure: Request -> nat, q: Request,
                                           keep: Record -> bool, limit: Number, acc: seq<Record>)
    requires Progress(fetch, measure)
    ensures Accumulate(fetch, measure, q, keep, limit, acc).Some? ==>
      var (c, key) := Accumulate(fetch, measure, q, keep, limit, acc).value;
      AtLeast(|c|, limit) || !KeyTruthy(key)
    decreases measure(q)
  {
    match fetch(q)
    case Failed =>
    case Ok(p) =>
      var collected := acc + Select(p.items, keep);
      if !(AtLeast(|collected|, limit) || !KeyTruthy(p.lastKey)) {
        AccumulateStops(fetch, measure, From(q, p.lastKey), keep, limit, collected);
      }
  }

  /** What the loop collects is a prefix of the accepted rows of every page of the walk, in order. */
  lemma {:induction false} AccumulatePrefix(fetch: Request -> Response, measure: Request -> nat, q: Request,
                                            keep: Record -> bool, limit: Number, acc: seq<Record>)
    requires Progress(fetch, measure)
    ensures Accumulate(fetch, measure, q, keep, limit, acc).Some? && Walk(fetch, measure, q).Some? ==>
      Accumulate(fetch, measure, q, keep, limit, acc).value.0 <= acc + Select(Walk(fetch, measure, q).value, keep)
    decreases measure(q)
  {
    match fetch(q)
    case Failed =>
    case Ok(p) =>
      var collected := acc + Select(p.items, keep);
      if KeyTruthy(p.lastKey) {
        var next := From(q, p.lastKey);
        if Walk(fetch, measure, next).Some? {
          var rest := Walk(fetch, measure, next).value;
          SelectAppend(p.items, rest, keep);
          assert acc + Select(p.items + rest, keep) == collected + Select(rest, keep);
          if !AtLeast(|collected|, limit) {
            AccumulatePrefix(fetch, measure, next, keep, limit, collected);
          }
        }
      }
  }

  /** Stopping short of `limit` means every page was read: the result is every accepted row. */
  lemma {:induction false} AccumulateExhausts(fetch: Request -> Response, measure: Request -> nat, q: Request,
                                              keep: Record -> bool, limit: Number, acc: seq<Record>)
    requires Progress(fetch, measure)
    ensures Accumulate(fetch, measure, q, keep, limit, acc).Some? &&
            !AtLeast(|Accumulate(fetch, measure, q, keep, limit, acc).value.0|, limit) ==>
      Walk(fetch, measure, q).Some? &&
      Accumulate(fetch, measure, q, keep, limit, acc).value.0 == acc + Select(Walk(fetch, measure, q).value, keep)
    decreases measure(q)
  {
    match fetch(q)
    case Failed =>
    case Ok(p) =>
      var collected := acc + Select(p.items, keep);
      if !AtLeast(|collected|, limit) && KeyTruthy(p.lastKey) {
        var next := From(q, p.lastKey);
        AccumulateExhausts(fetch, measure, next, keep, limit, collected);
        if Walk(fetch, measure, next).Some? {
          var rest := Walk(fetch, measure, next).value;
          SelectAppend(p.items, rest, keep);
          assert acc + Select(p.items + rest, keep) == collected + Select(rest, keep);
        }
      }
  }

  /** Every continuation key the store hands out is a JSON value `JSON.stringify` can write back. */
  ghost predicate KeysWellFormed(fetch: Request -> Response) {
    forall q :: fetch(q).Ok? && fetch(q).page.lastKey.Some? ==> Json.WellFormed(fetch(q).page.lastKey.value)
  }

  /** The key the loop ends with is one the store handed out. */
  lemma {:induction false} AccumulateKey(fetch: Request -> Response, measure: Request -> nat, q: Request,
                                         keep: Record -> bool, limit: Number, acc: seq<Record>)
    requires Progress(fetch, measure) && KeysWellFormed(fetch)
    ensures Accumulate(fetch, measure, q, keep, limit, acc).Some? &&
            Accumulate(fetch, measure, q, keep, limit, acc).value.1.Some? ==>
      Json.WellFormed(Accumulate(fetch, measure, q, keep, limit, acc).value.1.value)
    decreases measure(q)
  {
    match fetch(q)
    case Failed =>
    case Ok(p) =>
      var collected := acc + Select(p.items, keep);
      if !(AtLeast(|collected|, limit) || !KeyTruthy(p.lastKey)) {
        AccumulateKey(fetch, measure, From(q, p.lastKey), keep, limit, collected);
      }
  }

  // ----- projection and signing -----

  /** One image as the route returns it, before its URL is signed. */
  datatype Item = Item(
    key: Value, farmer: Value, crop: Value, weatherLocation: Value, createdAt: Value, plantingDate: Value,
    pestDetected: bool, diseaseDetected: bool, isGoldStandard: bool,
    pestName: Value, pestStage: Value, diseaseName: Value, diseaseStage: Value, cropStage: Value,
    remarks: Value, s3Key: Value)

  /** `data.name ?? ""`. */
  function Text(r: Record, name: string): Value {
    Coalesce(Attr(r, name), Str(""))
  }

  /** The projection of one record; `now` is the ISO text of the current time. */
  function Project(r: Record, now: string): Item {
    Item(
      Text(r, "id"), Text(r, "farmerName"), Text(r, "cropName"), Text(r, "weatherLocation"),
      Coalesce(Attr(r, "timestamp"), Str(now)), Text(r, "plantingDate"),
      Truthy(Attr(r, "pestPresent")), Truthy(Attr(r, "diseasePresent")), Truthy(Attr(r, "isGoldStandard")),
      Text(r, "pestName"), Text(r, "pestStage"), Text(r, "diseaseName"), Text(r, "diseaseStage"),
      Text(r, "cropStage"), Text(r, "remarks"),
      Coalesce(Attr(r, "imageUrl"), Text(r, "s3Key")))
  }

  /** Neither `undefined` nor `null`. */
  predicate Defined(v: Value) {
    !v.Null?
  }

  /**
   * Every field of a projected item is defined; the key is the record's `id`
   * or ""; the flags are the truthiness of the record's attributes; the
   * object key is `imageUrl`, else `s3Key`, else "".
   */
  lemma ProjectDefined(r: Record, now: string)
    ensures var it := Project(r, now);
      Defined(it.key) && Defined(it.farmer) && Defined(it.crop) && Defined(it.weatherLocation) &&
      Defined(it.createdAt) && Defined(it.plantingDate) && Defined(it.pestName) && Defined(it.pestStage) &&
      Defined(it.diseaseName) && Defined(it.diseaseStage) && Defined(it.cropStage) && Defined(it.remarks) &&
      Defined(it.s3Key)
    ensures var it := Project(r, now);
      (if "id" in r && r["id"] != Null then it.key == r["id"] else it.key == Str("")) &&
      it.pestDetected == Truthy(Attr(r, "pestPresent")) &&
      it.diseaseDetected == Truthy(Attr(r, "diseasePresent")) &&
      it.isGoldStandard == Truthy(Attr(r, "isGoldStandard")) &&
      (if "imageUrl" in r && r["imageUrl"] != Null then it.s3Key == r["imageUrl"]
       else if "s3Key" in r && r["s3Key"] != Null then it.s3Key == r["s3Key"]
       else it.s3Key == Str(""))
  {
  }

  /** The item's crop normalises as the record's crop does. */
  lemma ProjectCrop(r: Record, now: string)
    ensures NormalizeLower(Some(Project(r, now).crop)) == NormalizeLower(Attr(r, "cropName"))
  {
  }

  /** An item with its signed URL. */
  datatype Image = Image(item: Item, imageUrl: string)

  /**
   * The URL of the `i`-th item: "" for a falsy object key, otherwise what the
   * presigner gives for that key, or "" where it throws. `sign` stands for
   * the presigner and may fail for any item.
   */
  function SignOne(i: nat, it: Item, sign: (nat, Value) -> Option<string>): string {
    if !Truthy(Some(it.s3Key)) then ""
    else match sign(i, it.s3Key)
      case None => ""
      case Some(url) => url
  }

  /** Signing every item: same length and order, each item unchanged, a failure confined to its item. */
  function SignAll(items: seq<Item>, sign: (nat, Value) -> Option<string>): (out: seq<Image>)
    ensures |out| == |items|
    ensures forall i :: 0 <= i < |out| ==> out[i].item == items[i]
    ensures forall i :: 0 <= i < |out| && !Truthy(Some(items[i].s3Key)) ==> out[i].imageUrl == ""
    ensures forall i :: 0 <= i < |out| && Truthy(Some(items[i].s3Key)) ==>
      out[i].imageUrl == sign(i, items[i].s3Key).GetOr("")
  {
    seq(|items|, i requires 0 <= i < |items| => Image(items[i], SignOne(i, items[i], sign)))
  }

  // ----- the route -----

  datatype ImagesResponse =
    | Images(items: seq<Image>, nextCursor: Option<string>)
    | ImagesFailed

  /** The filter of a query's `pestDetected`, `diseaseDetected` and `goldStandard`. */
  function QueryFilter(q: Query): Filter {
    FilterFor(Param(q, "pestDetected"), Param(q, "diseaseDetected"), Param(q, "goldStandard"))
  }

  /**
   * The farmer-and-crop case: the loop from `q0`, truncated to `limit` rows
   * (`collected.slice(0, limit)`), with the last page's key.
   */
  function FarmerCrop(fetch: Request -> Response, measure: Request -> nat, q0: Request, crop: string,
                      limit: Number): Option<(seq<Record>, Option<Json.Json>)>
    requires Progress(fetch, measure)
  {
    match Accumulate(fetch, measure, q0, CropTest(crop), limit, [])
    case None => None
    case Some((collected, key)) => Some((collected[..SliceEnd(|collected|, limit)], key))
  }

  /** The items and key of one page; `None` when the request fails. */
  function OnePage(res: Response): Option<(seq<Record>, Option<Json.Json>)> {
    match res
    case Failed => None
    case Ok(p) => Some((p.items, p.lastKey))
  }

  /** The request a strategy starts with: page size 200 for the loop, `limit` otherwise. */
  function FirstRequest(s: Strategy, filter: Filter, limit: Number, start: Option<Json.Json>): Request {
    match s
    case FarmerAndCrop(f, _) => Request(FarmerIndex(f), filter, Some(Finite(200.0)), start)
    case FarmerOnly(f) => Request(FarmerIndex(f), filter, Some(limit), start)
    case CropOnly(c) => Request(CropIndex(c), filter, Some(limit), start)
    case FullScan => Request(WholeTable, filter, Some(limit), start)
  }

  /** The rows a strategy reads and the key it ends with; `None` when a request fails. */
  function Fetched(fetch: Request -> Response, measure: Request -> nat, s: Strategy, filter: Filter,
                   limit: Number, start: Option<Json.Json>): Option<(seq<Record>, Option<Json.Json>)>
    requires Progress(fetch, measure)
  {
    if s.FarmerAndCrop? then FarmerCrop(fetch, measure, FirstRequest(s, filter, limit, start), s.crop, limit)
    else OnePage(fetch(FirstRequest(s, filter, limit, start)))
  }

  /** The rows the route projects and the key it turns into the next cursor. */
  function Rows(fetch: Request -> Response, measure: Request -> nat, q: Query): Option<(seq<Record>, Option<Json.Json>)>
    requires Progress(fetch, measure)
  {
    Fetched(fetch, measure, StrategyOf(q), QueryFilter(q), Limit(q), DecodeCursor(Param(q, "cursor")))
  }

  /** The answer for the rows and key read. */
  function Respond(r: Option<(seq<Record>, Option<Json.Json>)>, sign: (nat, Value) -> Option<string>,
                   now: string): ImagesResponse {
    match r
    case None => ImagesFailed
    case Some((rows, key)) =>
      Images(SignAll(ProjectAll(rows, now), sign), EncodeCursor(key))
  }

  /** `rows.map(...)`: every row projected, in order. */
  function ProjectAll(rows: seq<Record>, now: string): (items: seq<Item>)
    ensures |items| == |rows|
    ensures forall i :: 0 <= i < |rows| ==> items[i] == Project(rows[i], now)
  {
    seq(|rows|, i requires 0 <= i < |rows| => Project(rows[i], now))
  }

  /** The whole answer of the route. */
  function ImagesSpec(fetch: Request -> Response, measure: Request -> nat, sign: (nat, Value) -> Option<string>,
                      now: string, q: Query): ImagesResponse
    requires Progress(fetch, measure)
  {
    Respond(Rows(fetch, measure, q), sign, now)
  }

  /** The three read paths of the route. */
  method FetchRows(fetch: Request -> Response, measure: Request -> nat, s: Strategy, filter: Filter,
                   limit: Number, start: Option<Json.Json>) returns (r: Option<(seq<Record>, Option<Json.Json>)>)
    requires Progress(fetch, measure)
    ensures r == Fetched(fetch, measure, s, filter, limit, start)
  {
    if s.FarmerAndCrop? || s.FarmerOnly? {
      if s.FarmerAndCrop? {
        var collected := CollectFarmerCrop(fetch, measure, Request(FarmerIndex(s.farmer), filter, Some(Finite(200.0)), start),
                                           CropTest(s.crop), limit);
        if collected.None? {
          return None;
        }
        r := Some((collected.value.0[..SliceEnd(|collected.value.0|, limit)], collected.value.1));
      } else {
        var res := fetch(Request(FarmerIndex(s.farmer), filter, Some(limit), start));
        r := if res.Failed? then None else Some((res.page.items, res.page.lastKey));
      }
    } else if s.CropOnly? {
      var res := fetch(Request(CropIndex(s.crop), filter, Some(limit), start));
      r := if res.Failed? then None else Some((res.page.items, res.page.lastKey));
    } else {
      var res := fetch(Request(WholeTable, filter, Some(limit), start));
      r := if res.Failed? then None else Some((res.page.items, res.page.lastKey));
    }
  }

  /** `GET /api/images`. */
  method Get(fetch: Request -> Response, measure: Request -> nat, sign: (nat, Value) -> Option<string>,
             now: string, q: Query) returns (resp: ImagesResponse)
    requires Progress(fetch, measure)
    ensures resp == ImagesSpec(fetch, measure, sign, now, q)
  {
    var limit := Limit(q);
    var exclusiveStartKey := DecodeCursor(Param(q, "cursor"));
    var crop := CropSelection(q);
    var farmer := FarmerSelection(q);
    var filter := BuildFilter(Param(q, "pestDetected"), Param(q, "diseaseDetected"), Param(q, "goldStandard"));
    var r := FetchRows(fetch, measure, Choose(farmer, crop), filter, limit, exclusiveStartKey);
    assert r == Rows(fetch, measure, q);
    if r.None? {
      return ImagesFailed;
    }
    var rows := r.value.0;
    var items := ProjectAll(rows, now);
    resp := Images(SignAll(items, sign), EncodeCursor(r.value.1));
  }

  // ----- properties of the route -----

  /**
   * Farmer and crop: at most `limit` rows for a non-negative finite limit,
   * every row of the selected crop, and the rows a prefix of the selected
   * crop's rows over all pages of the walk. The truncation is exact: once
   * `limit` matches are collected there are exactly `⌊limit⌋` rows, and over
   * a walk that completes the rows are the first `⌊limit⌋` matches, or all
   * of them when there are fewer.
   */
  lemma FarmerCropRows(fetch: Request -> Response, measure: Request -> nat, q0: Request, crop: string, limit: Number)
    requires Progress(fetch, measure)
    requires FarmerCrop(fetch, measure, q0, crop, limit).Some?
    ensures var rows := FarmerCrop(fetch, measure, q0, crop, limit).value.0;
      (limit.Finite? && limit.v >= 0.0 ==> |rows| as real <= limit.v) &&
      (forall i :: 0 <= i < |rows| ==> CropIs(rows[i], crop)) &&
      (Walk(fetch, measure, q0).Some? ==> rows <= Matches(Walk(fetch, measure, q0).value, crop))
    ensures var rows := FarmerCrop(fetch, measure, q0, crop, limit).value.0;
      var collected := Accumulate(fetch, measure, q0, CropTest(crop), limit, []).value.0;
      limit.Finite? && limit.v >= 0.0 && AtLeast(|collected|, limit) ==> |rows| == limit.v.Floor
    ensures var rows := FarmerCrop(fetch, measure, q0, crop, limit).value.0;
      limit.Finite? && limit.v >= 0.0 && Walk(fetch, measure, q0).Some? ==>
        var m := Matches(Walk(fetch, measure, q0).value, crop);
        rows == m[..if limit.v.Floor <= |m| then limit.v.Floor else |m|]
  {
    var collected := Accumulate(fetch, measure, q0, CropTest(crop), limit, []).value.0;
    AccumulateExtends(fetch, measure, q0, CropTest(crop), limit, []);
    AccumulatePrefix(fetch, measure, q0, CropTest(crop), limit, []);
    AccumulateExhausts(fetch, measure, q0, CropTest(crop), limit, []);
    var rows := FarmerCrop(fetch, measure, q0, crop, limit).value.0;
    assert rows <= collected;
    assert forall i :: 0 <= i < |rows| ==> CropTest(crop)(rows[i]);
    if Walk(fetch, measure, q0).Some? {
      var all := Walk(fetch, measure, q0).value;
      assert [] + Matches(all, crop) == Matches(all, crop);
      if limit.Finite? && limit.v >= 0.0 {
        var m := Matches(all, crop);
        assert collected <= m;
        if !AtLeast(|collected|, limit) {
          assert collected == m;
        }
      }
    }
  }

  /** Farmer and crop, stopped short of `limit`: the rows are every row of the crop the walk reaches, and no cursor follows. */
  lemma FarmerCropExhausted(fetch: Request -> Response, measure: Request -> nat, q0: Request, crop: string, limit: Number)
    requires Progress(fetch, measure)
    requires Accumulate(fetch, measure, q0, CropTest(crop), limit, []).Some?
    requires !AtLeast(|Accumulate(fetch, measure, q0, CropTest(crop), limit, []).value.0|, limit)
    requires limit.Finite?
    ensures Walk(fetch, measure, q0).Some?
    ensures FarmerCrop(fetch, measure, q0, crop, limit).value.0 == Matches(Walk(fetch, measure, q0).value, crop)
    ensures !KeyTruthy(FarmerCrop(fetch, measure, q0, crop, limit).value.1)
  {
    AccumulateExhausts(fetch, measure, q0, CropTest(crop), limit, []);
    AccumulateStops(fetch, measure, q0, CropTest(crop), limit, []);
    var all := Walk(fetch, measure, q0).value;
    assert [] + Matches(all, crop) == Matches(all, crop);
    var collected := Accumulate(fetch, measure, q0, CropTest(crop), limit, []).value.0;
    assert collected[..|collected|] == collected;
  }

  /** Every key a read path ends with is one the store handed out. */
  lemma FetchedKey(fetch: Request -> Response, measure: Request -> nat, s: Strategy, filter: Filter,
                   limit: Number, start: Option<Json.Json>)
    requires Progress(fetch, measure) && KeysWellFormed(fetch)
    requires Fetched(fetch, measure, s, filter, limit, start).Some?
    requires Fetched(fetch, measure, s, filter, limit, start).value.1.Some?
    ensures Json.WellFormed(Fetched(fetch, measure, s, filter, limit, start).value.1.value)
  {
    if s.FarmerAndCrop? {
      AccumulateKey(fetch, measure, FirstRequest(s, filter, limit, start), CropTest(s.crop), limit, []);
    }
  }

  /** A cursor is handed out exactly when the last key is truthy, and it decodes back to that key. */
  lemma NextCursorResumes(fetch: Request -> Response, measure: Request -> nat, sign: (nat, Value) -> Option<string>,
                          now: string, q: Query)
    requires Progress(fetch, measure) && KeysWellFormed(fetch)
    requires ImagesSpec(fetch, measure, sign, now, q).Images?
    ensures var key := Rows(fetch, measure, q).value.1;
      var next := ImagesSpec(fetch, measure, sign, now, q).nextCursor;
      (next.Some? <==> KeyTruthy(key)) && (next.Some? ==> DecodeCursor(next) == key)
  {
    var key := Rows(fetch, measure, q).value.1;
    if KeyTruthy(key) {
      FetchedKey(fetch, measure, StrategyOf(q), QueryFilter(q), Limit(q), DecodeCursor(Param(q, "cursor")));
      CursorRoundTrip(key.value);
    }
  }

  /** One image per row, in row order, each the projection of its row. */
  lemma ImagesFollowRows(fetch: Request -> Response, measure: Request -> nat, sign: (nat, Value) -> Option<string>,
                         now: string, q: Query)
    requires Progress(fetch, measure)
    requires ImagesSpec(fetch, measure, sign, now, q).Images?
    ensures var rows := Rows(fetch, measure, q).value.0;
      var images := ImagesSpec(fetch, measure, sign, now, q).items;
      |images| == |rows| && forall i :: 0 <= i < |rows| ==> images[i].item == Project(rows[i], now)
  {
  }
}
