/**
 * The paged key/value store behind the routes, seen from the outside: a
 * request names an index (or the whole table), a filter, an optional page
 * size and a start key; the answer is a page of records and a continuation
 * key, or a failure. Walking a query means requesting page after page until
 * the continuation key is falsy.
 */
module Store {
  import opened Wrappers
  import opened Json
  import opened JsNumber
  import opened Records
  import opened Filters
  import opened Cursor

  /** What a request reads: an index partition by key value, or the whole table. */
  datatype Source =
    | FarmerIndex(farmer: string)
    | CropIndex(crop: string)
    | WholeTable

  datatype Request = Request(source: Source, filter: Filter, limit: Option<Number>, start: Option<Json>)

  datatype Page = Page(items: seq<Record>, lastKey: Option<Json>)

  datatype Response = Ok(page: Page) | Failed

  /** The same request, continued from `key`. */
  function From(q: Request, key: Option<Json>): (r: Request)
    ensures r.source == q.source && r.filter == q.filter && r.limit == q.limit && r.start == key
  {
    q.(start := key)
  }

  /**
   * The store makes progress: whenever it hands out a truthy continuation
   * key, the request that continues from it is strictly smaller in `measure`.
   * This is what makes every "fetch until no key" loop terminate.
   */
  ghost predicate Progress(fetch: Request -> Response, measure: Request -> nat) {
    forall q :: fetch(q).Ok? && KeyTruthy(fetch(q).page.lastKey) ==>
      measure(From(q, fetch(q).page.lastKey)) < measure(q)
  }

  /** The key condition of an index. */
  predicate KeyHolds(s: Source, r: Record) {
    match s
    case FarmerIndex(f) => Attr(r, "farmerName") == Some(Str(f))
    case CropIndex(c) => Attr(r, "cropName") == Some(Str(c))
    case WholeTable => true
  }

  /** A store that answers every request with records meeting its key condition and its filter. */
  ghost predicate Honest(fetch: Request -> Response) {
    forall q, i :: fetch(q).Ok? && Scoped(q.filter) && 0 <= i < |fetch(q).page.items| ==>
      KeyHolds(q.source, fetch(q).page.items[i]) && Holds(q.filter, fetch(q).page.items[i])
  }

  /** Every record of every page, in order, up to the page without a truthy key; `None` if a request fails. */
  function Walk(fetch: Request -> Response, measure: Request -> nat, q: Request): Option<seq<Record>>
    requires Progress(fetch, measure)
    decreases measure(q)
  {
    match fetch(q)
    case Failed => None
    case Ok(p) =>
      if !KeyTruthy(p.lastKey) then Some(p.items)
      else
        match Walk(fetch, measure, From(q, p.lastKey))
        case None => None
        case Some(rest) => Some(p.items + rest)
  }

  /** Against an honest store, everything a walk returns meets the key condition and the filter. */
  lemma {:induction false} WalkHonest(fetch: Request -> Response, measure: Request -> nat, q: Request)
    requires Progress(fetch, measure) && Honest(fetch) && Scoped(q.filter)
    ensures Walk(fetch, measure, q).Some? ==>
      forall r :: r in Walk(fetch, measure, q).value ==> KeyHolds(q.source, r) && Holds(q.filter, r)
    decreases measure(q)
  {
    match fetch(q)
    case Failed =>
    case Ok(p) =>
      assert forall i :: 0 <= i < |p.items| ==> KeyHolds(q.source, p.items[i]) && Holds(q.filter, p.items[i]);
      if KeyTruthy(p.lastKey) {
        WalkHonest(fetch, measure, From(q, p.lastKey));
      }
  }
}
