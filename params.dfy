/**
 * The query string of the images and stats routes: `URLSearchParams.get`,
 * the normalised `crop` and `farmer` selections, and the choice between the
 * farmer index, the crop index and a full scan.
 */
module Params {
  import opened Wrappers
  import opened JsText
  import opened Records

  /** The decoded name/value pairs of a query string, in order. */
  type Query = seq<(string, string)>

  /** `searchParams.get(name)`: the first value given for `name`, or `null`. */
  function Param(q: Query, name: string): Option<string> {
    if q == [] then None
    else if q[0].0 == name then Some(q[0].1)
    else Param(q[1..], name)
  }

  /** `get` finds the first pair with the name, and `null` exactly when there is none. */
  lemma {:induction false} ParamMeans(q: Query, name: string)
    ensures Param(q, name).None? <==> forall i :: 0 <= i < |q| ==> q[i].0 != name
    ensures Param(q, name).Some? ==>
      exists i :: 0 <= i < |q| && q[i] == (name, Param(q, name).value) && (forall j :: 0 <= j < i ==> q[j].0 != name)
    decreases |q|
  {
    if q != [] {
      if q[0].0 == name {
        assert q[0] == (name, q[0].1);
      } else {
        ParamMeans(q[1..], name);
        assert forall i :: 1 <= i < |q| ==> q[i] == q[1..][i - 1];
        if Param(q, name).Some? {
          var i :| 0 <= i < |q[1..]| && q[1..][i] == (name, Param(q, name).value) &&
                   forall j :: 0 <= j < i ==> q[1..][j].0 != name;
          assert q[i + 1] == q[1..][i];
        }
      }
    }
  }

  /** JavaScript truthiness of a `string | null`. */
  predicate Given(v: Option<string>) {
    v.Some? && v.value != []
  }

  /** `cropRaw ? normalizeLower(cropRaw) : null`. */
  function CropSelection(q: Query): (r: Option<string>)
    ensures r.Some? <==> Given(Param(q, "crop"))
    ensures r.Some? ==> IsTrimmed(r.value) && forall i :: 0 <= i < |r.value| ==> !('A' <= r.value[i] <= 'Z')
    ensures r.Some? ==> r.value == ToLower(Trim(Param(q, "crop").value))
  {
    var raw := Param(q, "crop");
    if Given(raw) then Some(NormalizeLower(Some(Str(raw.value)))) else None
  }

  /** `farmerRaw ? normalizeStr(farmerRaw) : null`. */
  function FarmerSelection(q: Query): (r: Option<string>)
    ensures r.Some? <==> Given(Param(q, "farmer"))
    ensures r.Some? ==> r.value == Trim(Param(q, "farmer").value)
  {
    var raw := Param(q, "farmer");
    if Given(raw) then Some(NormalizeStr(Some(Str(raw.value)))) else None
  }

  /** `!!sel && sel !== "all"`: does the selection become a key condition? */
  predicate Using(sel: Option<string>) {
    Given(sel) && sel.value != "all"
  }

  /** The four ways the images route reads the table. */
  datatype Strategy =
    | FarmerAndCrop(farmer: string, crop: string)
    | FarmerOnly(farmer: string)
    | CropOnly(crop: string)
    | FullScan

  /** The farmer index whenever a farmer is used, else the crop index, else a scan. */
  function Choose(farmer: Option<string>, crop: Option<string>): (s: Strategy)
    ensures (s.FarmerAndCrop? || s.FarmerOnly?) <==> Using(farmer)
    ensures s.FarmerAndCrop? <==> Using(farmer) && Using(crop)
    ensures s.CropOnly? <==> !Using(farmer) && Using(crop)
    ensures s.FullScan? <==> !Using(farmer) && !Using(crop)
    ensures s.FarmerAndCrop? ==> s.farmer == farmer.value && s.crop == crop.value
    ensures s.FarmerOnly? ==> s.farmer == farmer.value
    ensures s.CropOnly? ==> s.crop == crop.value
  {
    if Using(farmer) then
      if Using(crop) then FarmerAndCrop(farmer.value, crop.value) else FarmerOnly(farmer.value)
    else if Using(crop) then CropOnly(crop.value)
    else FullScan
  }

  /** The strategy of a query. */
  function StrategyOf(q: Query): Strategy {
    Choose(FarmerSelection(q), CropSelection(q))
  }

  /**
   * A crop given as "all" in any case and with any surrounding white space,
   * or as white space only, adds no crop key condition.
   */
  lemma CropAllSelectsNothing(q: Query, raw: string)
    requires Param(q, "crop") == Some(raw)
    requires Trim(raw) == [] || ToLower(Trim(raw)) == "all"
    ensures !Using(CropSelection(q))
    ensures StrategyOf(q).FarmerOnly? || StrategyOf(q).FullScan?
  {
    if raw != [] {
      assert CropSelection(q) == Some(ToLower(Trim(raw)));
    }
  }

  /** A farmer given as white space only adds no farmer key condition. */
  lemma FarmerBlankSelectsNothing(q: Query, raw: string)
    requires Param(q, "farmer") == Some(raw) && Trim(raw) == []
    ensures !Using(FarmerSelection(q))
    ensures StrategyOf(q).CropOnly? || StrategyOf(q).FullScan?
  {
  }

  /** One space on each side of a trimmed, non-empty string is trimmed away. */
  lemma Padded(t: string)
    requires t != [] && IsTrimmed(t)
    ensures Trim([' '] + t + [' ']) == t
  {
    var s := [' '] + t + [' '];
    assert s[1..] == t + [' '];
    assert LeadingSpaces(s[1..]) == 0;
    assert LeadingSpaces(s) == 1;
    assert s[1..][..|t|] == t;
    assert TrailingSpaces(t) == 0;
    assert TrailingSpaces(s[1..]) == 1;
    assert s[1..|s| - 1] == t;
  }

  lemma PaddedAll()
    ensures Trim(" ALL ") == "ALL"
  {
    Padded("ALL");
    assert " ALL " == [' '] + "ALL" + [' '];
  }

  /** A query with one parameter. */
  lemma OneParam(name: string, raw: string, other: string)
    requires other != name
    ensures Param([(name, raw)], name) == Some(raw) && Param([(name, raw)], other) == None
  {
  }

  /**
   * The farmer is trimmed but not lower-cased, so only the exact text "all"
   * means "every farmer": "ALL" queries the farmer index for a farmer named "ALL".
   */
  lemma FarmerAllIsCaseSensitive()
    ensures StrategyOf([("farmer", " ALL ")]) == FarmerOnly("ALL")
  {
    OneParam("farmer", " ALL ", "crop");
    PaddedAll();
  }

  /** The lower-case text "all" is the one farmer value that means "every farmer". */
  lemma FarmerAllScans()
    ensures StrategyOf([("farmer", "all")]) == FullScan
  {
    OneParam("farmer", "all", "crop");
    TrimOfTrimmed("all");
  }

  lemma LowerAll()
    ensures ToLower("ALL") == "all"
  {
  }

  /** " ALL " as the crop is trimmed and lower-cased to "all". */
  lemma CropAllSelection()
    ensures CropSelection([("crop", " ALL ")]) == Some("all")
  {
    OneParam("crop", " ALL ", "farmer");
    PaddedAll();
    NormalizeStrOfString(" ALL ");
    LowerAll();
  }

  /** The crop is lower-cased, so "ALL" means every crop just as "all" does. */
  lemma CropAllIsCaseInsensitive()
    ensures StrategyOf([("crop", " ALL ")]) == FullScan
  {
    OneParam("crop", " ALL ", "farmer");
    CropAllSelection();
  }
}
