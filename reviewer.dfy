/**
 * The reviewer page's state machine (`app/page.tsx`, without rendering):
 * the query a page request carries, the normalisation of the items it
 * returns, appending or replacing the list, editing one field of the
 * current item, the letters-only check that gates a save, and moving to
 * the previous or next image.
 */
module Reviewer {
  import opened Wrappers
  import opened JsText
  import opened Records
  import opened Params

  /** An image as the page holds it: the JSON object of one item. */
  type Item = Record

  /** The filters the page sends: a crop ("all" for every crop), a farmer, and three yes/no/any choices. */
  datatype Choices = Choices(crop: string, farmer: string, pestDetected: Option<bool>, diseaseDetected: Option<bool>, goldStandard: Option<bool>)

  /** `String(b)`. */
  function BoolText(b: bool): string {
    if b then "true" else "false"
  }

  /** `params.set(name, value)` when the value is given, on parameters that do not hold `name` yet. */
  function Opt(name: string, v: Option<string>): Query {
    if v.Some? then [(name, v.value)] else []
  }

  /** A yes/no/any choice as it is sent: `String(b)` when it is set. */
  function Sent(v: Option<bool>): Option<string> {
    if v.Some? then Some(BoolText(v.value)) else None
  }

  /** The crop unless it is "all". */
  function CropSent(crop: string): Option<string> {
    if crop != "all" then Some(crop) else None
  }

  /** The cursor when it is truthy. */
  function CursorSent(cursor: Option<string>): Option<string> {
    if cursor.Some? && cursor.value != [] then cursor else None
  }

  /** The `set` calls of `fetchPage(cursor)` under the filters `c`, in order: a name and its value when one is set. */
  function Sets(c: Choices, cursor: Option<string>): seq<(string, Option<string>)> {
    [("limit", Some("20")),
     ("crop", CropSent(c.crop)),
     ("pestDetected", Sent(c.pestDetected)),
     ("diseaseDetected", Sent(c.diseaseDetected)),
     ("goldStandard", Sent(c.goldStandard)),
     ("cursor", CursorSent(cursor))]
  }

  /** The parameters a run of `set` calls leaves, on parameters that held none of their names. */
  function Flatten(ps: seq<(string, Option<string>)>): Query {
    if ps == [] then [] else Opt(ps[0].0, ps[0].1) + Flatten(ps[1..])
  }

  /** The query of `fetchPage(cursor)` under the filters `c`. */
  function ParamsFor(c: Choices, cursor: Option<string>): Query {
    Flatten(Sets(c, cursor))
  }

  /** One more `set` call at the end of a run. */
  lemma {:induction false} FlattenAppend(ps: seq<(string, Option<string>)>, x: (string, Option<string>))
    ensures Flatten(ps + [x]) == Flatten(ps) + Opt(x.0, x.1)
    decreases |ps|
  {
    if ps == [] {
      assert Flatten([x]) == Opt(x.0, x.1) + Flatten([]);
    } else {
      assert (ps + [x])[1..] == ps[1..] + [x];
      FlattenAppend(ps[1..], x);
    }
  }

  /** `if (value) params.set(name, value)`, on parameters that do not hold `name` yet. */
  method SetGiven(params: Query, name: string, v: Option<string>) returns (r: Query)
    ensures r == params + Opt(name, v)
  {
    r := params;
    if v.Some? {
      r := r + [(name, v.value)];
    }
  }

  /** The `set` call for the `k`-th pair of a run whose first `k` calls are made. */
  method SetNext(params: Query, ghost all: seq<(string, Option<string>)>, k: nat, name: string, v: Option<string>)
    returns (r: Query)
    requires k < |all| && all[k] == (name, v) && params == Flatten(all[..k])
    ensures r == Flatten(all[..k + 1])
  {
    assert all[..k + 1] == all[..k] + [all[k]];
    FlattenAppend(all[..k], all[k]);
    r := SetGiven(params, name, v);
  }

  /** The parameters built one `set` call at a time. */
  method BuildParams(c: Choices, cursor: Option<string>) returns (params: Query)
    ensures params == ParamsFor(c, cursor)
  {
    ghost var all := Sets(c, cursor);
    params := [("limit", "20")];
    assert params == Flatten(all[..1]) by {
      assert all[..1] == [("limit", Some("20"))];
      assert Flatten(all[..1]) == Opt("limit", Some("20")) + Flatten([]);
    }
    params := SetNext(params, all, 1, "crop", CropSent(c.crop));
    params := SetNext(params, all, 2, "pestDetected", Sent(c.pestDetected));
    params := SetNext(params, all, 3, "diseaseDetected", Sent(c.diseaseDetected));
    params := SetNext(params, all, 4, "goldStandard", Sent(c.goldStandard));
    params := SetNext(params, all, 5, "cursor", CursorSent(cursor));
    assert all[..6] == all;
  }

  /** `get` on two runs of parameters: the first run wins. */
  lemma {:induction false} ParamConcat(a: Query, b: Query, name: string)
    ensures Param(a + b, name) == if Param(a, name).Some? then Param(a, name) else Param(b, name)
    decreases |a|
  {
    if a == [] {
      assert a + b == b;
    } else {
      assert (a + b)[0] == a[0];
      assert (a + b)[1..] == a[1..] + b;
      assert Param(a + b, name) == if a[0].0 == name then Some(a[0].1) else Param(a[1..] + b, name);
      ParamConcat(a[1..], b, name);
    }
  }

  /**
   * `get(n)` after a run of `set` calls that name `n` exactly once, at `k`:
   * the value set there, or `null` when that call was skipped.
   */
  lemma {:induction false} ParamFlatten(ps: seq<(string, Option<string>)>, k: nat, n: string)
    requires k < |ps| && ps[k].0 == n
    requires forall j :: 0 <= j < |ps| && j != k ==> ps[j].0 != n
    ensures Param(Flatten(ps), n) == ps[k].1
    decreases k
  {
    ParamConcat(Opt(ps[0].0, ps[0].1), Flatten(ps[1..]), n);
    if k > 0 {
      assert Param(Opt(ps[0].0, ps[0].1), n) == None;
      ParamFlatten(ps[1..], k - 1, n);
    } else if ps[0].1.None? {
      ParamAbsent(ps[1..], n);
    }
  }

  /** `get(n)` after a run of `set` calls none of which names `n`. */
  lemma {:induction false} ParamAbsent(ps: seq<(string, Option<string>)>, n: string)
    requires forall j :: 0 <= j < |ps| ==> ps[j].0 != n
    ensures Param(Flatten(ps), n) == None
    decreases |ps|
  {
    if ps != [] {
      ParamConcat(Opt(ps[0].0, ps[0].1), Flatten(ps[1..]), n);
      assert Param(Opt(ps[0].0, ps[0].1), n) == None;
      ParamAbsent(ps[1..], n);
    }
  }

  /**
   * As the images route reads the query: the limit is always "20"; the crop
   * is sent only when it is not "all"; each yes/no choice only when it is
   * set, as "true" or "false"; the cursor only when it is not empty; and
   * the farmer never.
   */
  lemma ParamsMeans(c: Choices, cursor: Option<string>)
    ensures var q := ParamsFor(c, cursor);
      && Param(q, "limit") == Some("20")
      && Param(q, "crop") == CropSent(c.crop)
      && Param(q, "pestDetected") == Sent(c.pestDetected)
      && Param(q, "diseaseDetected") == Sent(c.diseaseDetected)
      && Param(q, "goldStandard") == Sent(c.goldStandard)
      && Param(q, "cursor") == CursorSent(cursor)
      && Param(q, "farmer") == None
  {
    var ps := Sets(c, cursor);
    ParamFlatten(ps, 0, "limit");
    ParamFlatten(ps, 1, "crop");
    ParamFlatten(ps, 2, "pestDetected");
    ParamFlatten(ps, 3, "diseaseDetected");
    ParamFlatten(ps, 4, "goldStandard");
    ParamFlatten(ps, 5, "cursor");
    ParamAbsent(ps, "farmer");
  }

  // ----- the items of a page -----

  /** `v ?? d` as an attribute. */
  function OrElse(img: Item, name: string, d: Value): Value {
    Coalesce(Attr(img, name), d)
  }

  /** The text attributes that default to "". */
  const Texts: set<string> := {"plantingDate", "pestName", "pestStage", "diseaseName", "cropStage", "remarks"}

  /** The flags that become booleans. */
  const Flags: set<string> := {"isGoldStandard", "pestDetected", "diseaseDetected"}

  /** The attributes `Normalize` sets. */
  const Defaulted: set<string> := {"createdAt"} + Texts + Flags

  /** The normalised value of attribute `k`: `!!img[k]` for a flag, `img[k] ?? now` for the creation time, `img[k] ?? ""` otherwise. */
  function DefaultOf(img: Item, now: string, k: string): (v: Value)
    ensures v != Null
  {
    if k in Flags then Bool(Truthy(Attr(img, k)))
    else if k == "createdAt" then OrElse(img, k, Str(now))
    else OrElse(img, k, Str(""))
  }

  /** `{ ...img, createdAt: …, … }`: the item with the normalised attributes written over it. */
  function Normalize(img: Item, now: string): Item {
    img + map k | k in Defaulted :: DefaultOf(img, now, k)
  }

  /** A normalised item has the attributes of the item and the defaulted ones, and keeps every other attribute as it was. */
  lemma NormalizeKeeps(img: Item, now: string)
    ensures var n := Normalize(img, now);
      && (forall k :: k in n <==> k in img || k in Defaulted)
      && (forall k :: k in img && k !in Defaulted ==> n[k] == img[k])
  {
  }

  /** No defaulted attribute of a normalised item is `null`. */
  lemma NormalizeDefaults(img: Item, now: string)
    ensures var n := Normalize(img, now);
      forall k :: k in Defaulted ==> k in n && n[k] != Null
  {
  }

  /**
   * The three flags of a normalised item are the truthiness of the item's
   * flags, and a text field such as the pest name keeps a value that is
   * given and not `null`, and is "" otherwise.
   */
  lemma NormalizeFlags(img: Item, now: string)
    ensures var n := Normalize(img, now);
      && n["isGoldStandard"] == Bool(Truthy(Attr(img, "isGoldStandard")))
      && n["pestDetected"] == Bool(Truthy(Attr(img, "pestDetected")))
      && n["diseaseDetected"] == Bool(Truthy(Attr(img, "diseaseDetected")))
      && (Attr(img, "pestName").Some? && Attr(img, "pestName") != Some(Null) ==> n["pestName"] == img["pestName"])
      && (Attr(img, "pestName").None? || Attr(img, "pestName") == Some(Null) ==> n["pestName"] == Str(""))
  {
  }

  function NormalizeAll(items: seq<Item>, now: string): (r: seq<Item>)
    ensures |r| == |items|
    ensures forall i :: 0 <= i < |items| ==> r[i] == Normalize(items[i], now)
  {
    if items == [] then [] else [Normalize(items[0], now)] + NormalizeAll(items[1..], now)
  }

  // ----- the state -----

  /** What the page's request to the images route gives back. */
  datatype Reply =
    | Denied                                                  // 401: the page goes to /login
    | Broken                                                  // not ok, or the request failed: `fetchPage` throws
    | Loaded(items: seq<Item>, nextCursor: Option<string>)    // ok, `json.items ?? []` and `json.nextCursor ?? null`

  /** The state `fetchPage`, `updateField`, `goPrev` and `goNext` read and write. */
  datatype View = View(
    images: seq<Item>,
    index: nat,
    nextCursor: Option<string>,
    pageLoading: bool,
    editable: bool,
    dirty: bool,
    direction: int)

  /** `fetchPage(cursor, append)` given its reply: the new state, and whether it returned rather than threw. */
  function FetchSpec(v: View, reply: Reply, append: bool, now: string): (View, bool) {
    match reply
    case Denied => (v.(pageLoading := false), true)
    case Broken => (v.(pageLoading := false), false)
    case Loaded(items, cursor) =>
      var page := NormalizeAll(items, now);
      (v.(images := if append then v.images + page else page,
          nextCursor := cursor,
          index := if append then v.index else 0,
          pageLoading := false), true)
  }

  /** `copy[index] ? index : 0`. */
  function SafeIndex(images: seq<Item>, index: nat): nat {
    if index < |images| then index else 0
  }

  /** `updateField(field, value)`. */
  function UpdateSpec(v: View, field: string, value: Value): View {
    var v := if v.editable then v.(dirty := true) else v;
    var i := SafeIndex(v.images, v.index);
    if i >= |v.images| then v
    else v.(images := v.images[i := v.images[i][field := value]])
  }

  /** `goPrev()`: the new state, and whether it saved first. */
  function PrevSpec(v: View): (View, bool) {
    if v.index == 0 then (v, false)
    else (v.(direction := -1, index := v.index - 1, editable := false, dirty := false), v.editable && v.dirty)
  }

  /**
   * The editing flags after `await saveChanges()`: a request that is sent and
   * succeeds (`saveOk`: the response is ok with `ok: true`) ends editing;
   * a rejected name, a failed request or no current image leaves them.
   */
  function AfterSave(v: View, saveOk: bool): View {
    if SaveSpec(v.images, v.index).Send? && saveOk then v.(editable := false, dirty := false) else v
  }

  /**
   * `goNext()` given the outcome of the save it may start and the reply a
   * page request would get: the new state, and whether it saved first.
   */
  function NextSpec(v: View, saveOk: bool, reply: Reply, now: string): (View, bool) {
    var v := v.(direction := 1);
    var saved := v.editable && v.dirty;
    if v.index < |v.images| - 1 then
      (v.(index := v.index + 1, editable := false, dirty := false), saved)
    else if v.nextCursor.None? || v.nextCursor.value == [] || v.pageLoading then (v, false)
    else
      var u := if saved then AfterSave(v, saveOk) else v;
      var (w, returned) := FetchSpec(u, reply, true, now);
      if !returned then (w, saved)
      else (w.(index := w.index + 1, editable := false, dirty := false), saved)
  }

  /** The refetch when the filters change: no cursor, the first image, and `fetchPage(null, false)`. */
  function ReloadSpec(v: View, reply: Reply, now: string): (View, bool) {
    FetchSpec(v.(nextCursor := None, index := 0), reply, false, now)
  }

  /** The page: its images, the current index, the cursor of the next page and the editing flags. */
  class Pager {
    var images: seq<Item>
    var index: nat
    var nextCursor: Option<string>
    var pageLoading: bool
    var editable: bool
    var dirty: bool
    var direction: int
    const filters: Choices

    function State(): View
      reads this
    {
      View(images, index, nextCursor, pageLoading, editable, dirty, direction)
    }

    constructor(filters: Choices)
      ensures State() == View([], 0, None, false, false, false, 1) && this.filters == filters
    {
      images := [];
      index := 0;
      nextCursor := None;
      pageLoading := false;
      editable := false;
      dirty := false;
      direction := 1;
      this.filters := filters;
    }

    /**
     * `fetchPage(cursor, append)`. `server` stands for the images route;
     * `returned` is false when `fetchPage` throws.
     */
    method FetchPage(cursor: Option<string>, append: bool, server: Query -> Reply, now: string) returns (returned: bool)
      modifies this
      ensures (State(), returned) == FetchSpec(old(State()), server(ParamsFor(filters, cursor)), append, now)
    {
      pageLoading := true;
      var params := BuildParams(filters, cursor);
      var reply := server(params);
      if reply.Denied? {
        pageLoading := false;
        return true;
      }
      if reply.Broken? {
        pageLoading := false;
        return false;
      }
      var normalized := NormalizeAll(reply.items, now);
      images := if append then images + normalized else normalized;
      nextCursor := reply.nextCursor;
      if !append {
        index := 0;
      }
      pageLoading := false;
      return true;
    }

    /** The effect run when the filters change; `returned` is false when `fetchPage` throws. */
    method Reload(server: Query -> Reply, now: string) returns (returned: bool)
      modifies this
      ensures (State(), returned) == ReloadSpec(old(State()), server(ParamsFor(filters, None)), now)
    {
      nextCursor := None;
      index := 0;
      returned := FetchPage(None, false, server, now);
    }

    /** `updateField(field, value)`. */
    method UpdateField(field: string, value: Value)
      modifies this
      ensures State() == UpdateSpec(old(State()), field, value)
    {
      if editable {
        dirty := true;
      }
      var copy := images;
      var safeIndex := if index < |copy| then index else 0;
      if safeIndex >= |copy| {
        return;
      }
      copy := copy[safeIndex := copy[safeIndex][field := value]];
      images := copy;
    }

    /** `goPrev()`; `saved` says whether it saved the current item first. */
    method GoPrev() returns (saved: bool)
      modifies this
      ensures (State(), saved) == PrevSpec(old(State()))
    {
      saved := false;
      if index == 0 {
        return;
      }
      direction := -1;
      saved := editable && dirty;
      index := index - 1;
      editable := false;
      dirty := false;
    }

    /**
     * `goNext()`; `saved` says whether it saved the current item first, and
     * `saveOk` is the outcome of that save's request.
     */
    method GoNext(server: Query -> Reply, saveOk: bool, now: string) returns (saved: bool)
      modifies this
      ensures (State(), saved) == NextSpec(old(State()), saveOk, server(ParamsFor(filters, old(nextCursor))), now)
    {
      saved := false;
      direction := 1;
      if index < |images| - 1 {
        saved := editable && dirty;
        index := index + 1;
        editable := false;
        dirty := false;
        return;
      }
      var cursor := nextCursor;
      if cursor.None? || cursor.value == [] || pageLoading {
        return;
      }
      saved := editable && dirty;
      if saved {
        SaveEffect(saveOk);
      }
      AppendAndAdvance(cursor, server, now);
    }

    /** What `await saveChanges()` does to the editing flags. */
    method SaveEffect(saveOk: bool)
      modifies this
      ensures State() == AfterSave(old(State()), saveOk)
    {
      if SaveSpec(images, index).Send? && saveOk {
        editable := false;
        dirty := false;
      }
    }

    /** The end of `goNext()` at the last image: `await fetchPage(cursor, true)`, then the next index if it returned. */
    method AppendAndAdvance(cursor: Option<string>, server: Query -> Reply, now: string)
      modifies this
      ensures var (w, returned) := FetchSpec(old(State()), server(ParamsFor(filters, cursor)), true, now);
        State() == if returned then w.(index := w.index + 1, editable := false, dirty := false) else w
    {
      var returned := FetchPage(cursor, true, server, now);
      if !returned {
        return;
      }
      index := index + 1;
      editable := false;
      dirty := false;
    }
  }

  // ----- properties of the state changes -----

  /**
   * A page that loads is appended after the images already held, keeping
   * the index, or replaces them and goes back to the first; a page that
   * does not load leaves the images, the index and the cursor as they were.
   * Either way the page is no longer loading.
   */
  lemma FetchMeans(v: View, reply: Reply, append: bool, now: string)
    ensures var (w, _) := FetchSpec(v, reply, append, now);
      && !w.pageLoading
      && w.editable == v.editable && w.dirty == v.dirty && w.direction == v.direction
      && (reply.Loaded? && append ==>
            && |w.images| == |v.images| + |reply.items|
            && w.images[..|v.images|] == v.images
            && (forall i :: 0 <= i < |reply.items| ==> w.images[|v.images| + i] == Normalize(reply.items[i], now))
            && w.index == v.index)
      && (reply.Loaded? && !append ==> w.images == NormalizeAll(reply.items, now) && w.index == 0)
      && (reply.Loaded? ==> w.nextCursor == reply.nextCursor)
      && (!reply.Loaded? ==> w.images == v.images && w.index == v.index && w.nextCursor == v.nextCursor)
  {
    if reply.Loaded? && append {
      var w := FetchSpec(v, reply, append, now).0;
      assert w.images == v.images + NormalizeAll(reply.items, now);
    }
  }

  /**
   * Changing the filters starts over at the first image with the first
   * page: a page that loads replaces the images; one that does not leaves
   * them, with no cursor to go on from.
   */
  lemma ReloadMeans(v: View, reply: Reply, now: string)
    ensures var (w, returned) := ReloadSpec(v, reply, now);
      && w.index == 0 && !w.pageLoading
      && (returned <==> !reply.Broken?)
      && (reply.Loaded? ==> w.images == NormalizeAll(reply.items, now) && w.nextCursor == reply.nextCursor)
      && (!reply.Loaded? ==> w.images == v.images && w.nextCursor == None)
  {
    FetchMeans(v.(nextCursor := None, index := 0), reply, false, now);
  }

  /**
   * Editing changes only the named field of the current item (the first
   * when the index is past the end), and only marks the item dirty when
   * editing is on; with no images nothing but that mark changes.
   */
  lemma UpdateMeans(v: View, field: string, value: Value)
    ensures var w := UpdateSpec(v, field, value);
      var i := SafeIndex(v.images, v.index);
      && |w.images| == |v.images|
      && w.index == v.index && w.nextCursor == v.nextCursor && w.editable == v.editable
      && w.dirty == (v.dirty || v.editable)
      && (v.images == [] ==> w.images == [])
      && (forall j :: 0 <= j < |v.images| && j != i ==> w.images[j] == v.images[j])
      && (v.images != [] ==>
            && w.images[i].Keys == v.images[i].Keys + {field}
            && w.images[i][field] == value
            && forall k :: k in v.images[i] && k != field ==> w.images[i][k] == v.images[i][k])
  {
  }

  /** At the first image going back does nothing; otherwise it moves back one, never below 0, and ends editing. */
  lemma PrevMeans(v: View)
    ensures var (w, saved) := PrevSpec(v);
      && (v.index == 0 ==> w == v && !saved)
      && (v.index > 0 ==> w.index == v.index - 1 && w.images == v.images && !w.editable && !w.dirty && w.direction == -1)
      && (saved <==> v.index > 0 && v.editable && v.dirty)
  {
  }

  /** Before the last image going forward moves on by one without a request. */
  lemma NextWithin(v: View, saveOk: bool, reply: Reply, now: string)
    requires v.index + 1 < |v.images|
    ensures var (w, saved) := NextSpec(v, saveOk, reply, now);
      && w.index == v.index + 1 && w.images == v.images && w.nextCursor == v.nextCursor
      && !w.editable && !w.dirty && w.direction == 1
      && (saved <==> v.editable && v.dirty)
  {
  }

  /** At the last image, with no cursor or a page already loading, going forward changes only the direction. */
  lemma NextStops(v: View, saveOk: bool, reply: Reply, now: string)
    requires v.index + 1 >= |v.images|
    requires v.nextCursor.None? || v.nextCursor.value == [] || v.pageLoading
    ensures NextSpec(v, saveOk, reply, now) == (v.(direction := 1), false)
  {
  }

  /**
   * At the last image with a cursor and no page loading, going forward
   * appends the next page and moves on by one; if the request throws, the
   * index stays and editing has ended only if the save before it was sent
   * and succeeded.
   */
  lemma NextLoads(v: View, saveOk: bool, reply: Reply, now: string)
    requires v.index + 1 >= |v.images|
    requires v.nextCursor.Some? && v.nextCursor.value != [] && !v.pageLoading
    ensures var (w, saved) := NextSpec(v, saveOk, reply, now);
      var ended := v.editable && v.dirty && SaveSpec(v.images, v.index).Send? && saveOk;
      && (saved <==> v.editable && v.dirty)
      && (reply.Loaded? ==> w.images == v.images + NormalizeAll(reply.items, now) && w.index == v.index + 1 && w.nextCursor == reply.nextCursor)
      && (reply.Denied? ==> w.images == v.images && w.index == v.index + 1)
      && (reply.Broken? ==> w.images == v.images && w.index == v.index)
      && (reply.Broken? && ended ==> !w.editable && !w.dirty)
      && (reply.Broken? && !ended ==> w.editable == v.editable && w.dirty == v.dirty)
  {
  }

  /**
   * A next page that comes back empty still moves the index on, past the
   * last image; the current image then falls back to the first one.
   */
  lemma NextEmptyPage(v: View, saveOk: bool, cursor: Option<string>, now: string)
    requires v.images != [] && v.index + 1 == |v.images|
    requires v.nextCursor.Some? && v.nextCursor.value != [] && !v.pageLoading
    ensures var (w, _) := NextSpec(v, saveOk, Loaded([], cursor), now);
      && w.images == v.images && w.index == |v.images|
      && Current(w.images, w.index) == Some(v.images[0])
  {
    assert NormalizeAll([], now) == [];
    assert v.images + [] == v.images;
  }

  // ----- saving -----

  predicate IsLetter(c: char) {
    'A' <= c <= 'Z' || 'a' <= c <= 'z'
  }

  /** `/^[A-Za-z\s]+$/.test(s)`. */
  predicate Letters(s: string)
    decreases |s|
  {
    s != [] && (IsLetter(s[0]) || IsSpace(s[0])) && (|s| == 1 || Letters(s[1..]))
  }

  /** `isAlphabetOnly(value)`: a falsy value passes; anything else must be letters and white space only. */
  predicate IsAlphabetOnly(value: Value)
    requires !value.Null?
  {
    !Truthy(Some(value)) || Letters(ToStr(value))
  }

  lemma {:induction false} LettersMeans(s: string)
    ensures Letters(s) <==> s != [] && forall i :: 0 <= i < |s| ==> IsLetter(s[i]) || IsSpace(s[i])
    decreases |s|
  {
    if |s| > 1 {
      LettersMeans(s[1..]);
      assert forall i :: 1 <= i < |s| ==> s[i] == s[1..][i - 1];
    }
  }

  /** For a string: the empty string passes, and otherwise every character must be an ASCII letter or white space. */
  lemma AlphabetOnlyMeans(s: string)
    ensures IsAlphabetOnly(Str(s)) <==> s == [] || forall i :: 0 <= i < |s| ==> IsLetter(s[i]) || IsSpace(s[i])
  {
    LettersMeans(s);
  }

  /** What `saveChanges()` does before any request. */
  datatype Save =
    | NothingToSave            // no current image
    | PestNameRejected         // "Pest name can only contain alphabets."
    | DiseaseNameRejected      // "Disease name can only contain alphabets."
    | Send(payload: Record)    // the body of the PUT request

  /** `images[index] ?? images[0]`. */
  function Current(images: seq<Item>, index: nat): Option<Item> {
    if images == [] then None else Some(images[SafeIndex(images, index)])
  }

  /** `name: cur[from]`, left out by `JSON.stringify` when `undefined`. */
  function Carry(m: Record, name: string, v: Option<Value>): Record {
    if v.Some? then m[name := v.value] else m
  }

  /** The body `saveChanges` sends for the current item. */
  function Payload(cur: Item): Record {
    var m := Carry(map[], "key", Attr(cur, "key"));
    var m := m["plantingDate" := OrElse(cur, "plantingDate", Str(""))];
    var m := Carry(m, "pestDetected", Attr(cur, "pestDetected"));
    var m := Carry(m, "diseaseDetected", Attr(cur, "diseaseDetected"));
    var m := Carry(m, "goldStandard", Attr(cur, "isGoldStandard"));
    m["pestName" := OrElse(cur, "pestName", Str(""))]
     ["pestStage" := OrElse(cur, "pestStage", Str(""))]
     ["diseaseName" := OrElse(cur, "diseaseName", Str(""))]
     ["cropStage" := OrElse(cur, "cropStage", Str(""))]
     ["remarks" := OrElse(cur, "remarks", Str(""))]
  }

  /** `saveChanges()` up to its request. */
  function SaveSpec(images: seq<Item>, index: nat): Save {
    match Current(images, index)
    case None => NothingToSave
    case Some(cur) =>
      if !IsAlphabetOnly(OrElse(cur, "pestName", Str(""))) then PestNameRejected
      else if !IsAlphabetOnly(OrElse(cur, "diseaseName", Str(""))) then DiseaseNameRejected
      else Send(Payload(cur))
  }

  /**
   * A request is made only for a current image whose pest and disease
   * names both pass `isAlphabetOnly`; the pest name is checked first.
   */
  lemma SaveGate(images: seq<Item>, index: nat)
    ensures var s := SaveSpec(images, index);
      && (s.NothingToSave? <==> images == [])
      && (s.Send? <==>
            && images != []
            && IsAlphabetOnly(OrElse(images[SafeIndex(images, index)], "pestName", Str("")))
            && IsAlphabetOnly(OrElse(images[SafeIndex(images, index)], "diseaseName", Str(""))))
      && (s.PestNameRejected? <==> images != [] && !IsAlphabetOnly(OrElse(images[SafeIndex(images, index)], "pestName", Str(""))))
      && (s.Send? ==> s.payload["pestName"] == OrElse(images[SafeIndex(images, index)], "pestName", Str("")))
  {
  }

  /** A pest name with a digit stops the save before any request. */
  lemma DigitInPestNameBlocksSave(images: seq<Item>, index: nat, name: string, k: nat)
    requires images != [] && k < |name| && '0' <= name[k] <= '9'
    requires Attr(images[SafeIndex(images, index)], "pestName") == Some(Str(name))
    ensures SaveSpec(images, index) == PestNameRejected
  {
    AlphabetOnlyMeans(name);
    assert !IsLetter(name[k]) && !IsSpace(name[k]);
  }
}
