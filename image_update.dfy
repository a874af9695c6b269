/**
 * The partial update of one image (PUT /api/images/update): the session
 * gate, the id check, the type-gated reading of the body, and the SET
 * clauses built one provided field at a time, always with the audit time.
 */
module Update {
  import opened Wrappers
  import opened JsText
  import opened Records

  /** `asTrimmedString`: a string trimmed, anything else `undefined`. */
  function AsTrimmedString(v: Option<Value>): (r: Option<string>)
    ensures r.Some? <==> v.Some? && v.value.Str?
    ensures r.Some? ==> IsTrimmed(r.value) && |r.value| <= |v.value.s|
  {
    if v.Some? && v.value.Str? then Some(Trim(v.value.s)) else None
  }

  /** `typeof v === "boolean" ? v : undefined`. */
  function AsBool(v: Option<Value>): (r: Option<bool>)
    ensures r.Some? <==> v.Some? && v.value.Bool?
    ensures r.Some? ==> v == Some(Bool(r.value))
  {
    if v.Some? && v.value.Bool? then Some(v.value.b) else None
  }

  /** A string already trimmed passes through unchanged. */
  lemma AsTrimmedStringOfTrimmed(s: string)
    requires IsTrimmed(s)
    ensures AsTrimmedString(Some(Str(s))) == Some(s)
  {
    TrimOfTrimmed(s);
  }

  /** `body.id ?? body.key`. */
  function IdOf(body: Record): (id: Option<Value>)
    ensures id == (if "id" in body && !body["id"].Null? then Some(body["id"]) else Attr(body, "key"))
  {
    if Attr(body, "id").None? || Attr(body, "id") == Some(Null) then Attr(body, "key") else Attr(body, "id")
  }

  /** The values the route reads from the body, the session and the clock. */
  datatype Fields = Fields(
    plantingDate: Option<string>,
    pestPresent: Option<bool>,
    diseasePresent: Option<bool>,
    isGoldStandard: Option<bool>,
    pestName: Option<string>,
    pestStage: Option<string>,
    diseaseName: Option<string>,
    diseaseStage: Option<string>,
    cropStage: Option<string>,
    remarks: Option<string>,
    cropName: Option<string>,
    lastUpdatedBy: Option<string>,
    lastUpdatedAt: string)

  /** The body under the names the interface sends, the session's claims, and the time of the request. */
  function Extract(body: Record, user: Record, now: string): Fields {
    Fields(
      AsTrimmedString(Attr(body, "plantingDate")),
      AsBool(Attr(body, "pestDetected")),
      AsBool(Attr(body, "diseaseDetected")),
      AsBool(Attr(body, "goldStandard")),
      AsTrimmedString(Attr(body, "pestName")),
      AsTrimmedString(Attr(body, "pestStage")),
      AsTrimmedString(Attr(body, "diseaseName")),
      AsTrimmedString(Attr(body, "diseaseStage")),
      AsTrimmedString(Attr(body, "cropStage")),
      AsTrimmedString(Attr(body, "remarks")),
      AsTrimmedString(Attr(body, "crop")),
      AsTrimmedString(Attr(user, "email")),
      now)
  }

  /** An attribute value of the update: `{ S: ... }` or `{ BOOL: ... }`. */
  datatype Item = S(s: string) | BOOL(b: bool)

  /** The attribute a field is stored under, with its placeholders in the expression. */
  datatype Slot = Slot(attr: string, nameKey: string, valueKey: string)

  /** The stored attributes, in the order the route sets them. */
  const Slots: seq<Slot> := [
    Slot("plantingDate", "#pld", ":pld"),
    Slot("pestPresent", "#pp", ":pp"),
    Slot("diseasePresent", "#dp", ":dp"),
    Slot("isGoldStandard", "#gs", ":gs"),
    Slot("pestName", "#pn", ":pn"),
    Slot("pestStage", "#ps", ":ps"),
    Slot("diseaseName", "#dn", ":dn"),
    Slot("diseaseStage", "#ds", ":ds"),
    Slot("cropStage", "#cs", ":cs"),
    Slot("remarks", "#rm", ":rm"),
    Slot("cropName", "#cn", ":cn"),
    Slot("lastUpdatedAt", "#lua", ":lua"),
    Slot("lastUpdatedBy", "#lub", ":lub")
  ]

  function StrItem(v: Option<string>): Option<Item> {
    if v.Some? then Some(S(v.value)) else None
  }

  function BoolItem(v: Option<bool>): Option<Item> {
    if v.Some? then Some(BOOL(v.value)) else None
  }

  /** The value given to each slot of `Slots`, `None` where the field is `undefined`. */
  function Items(f: Fields): (items: seq<Option<Item>>)
    ensures |items| == |Slots|
  {
    [ StrItem(f.plantingDate),
      BoolItem(f.pestPresent),
      BoolItem(f.diseasePresent),
      BoolItem(f.isGoldStandard),
      StrItem(f.pestName),
      StrItem(f.pestStage),
      StrItem(f.diseaseName),
      StrItem(f.diseaseStage),
      StrItem(f.cropStage),
      StrItem(f.remarks),
      StrItem(f.cropName),
      Some(S(f.lastUpdatedAt)),
      StrItem(f.lastUpdatedBy) ]
  }

  /** `exprNames`, `exprValues` and `sets` together. */
  datatype Update = Update(names: map<string, string>, values: map<string, Item>, sets: seq<string>)

  const Blank := Update(map[], map[], [])

  /** `` `${nameKey} = ${valueKey}` ``. */
  function Assignment(s: Slot): string {
    s.nameKey + " = " + s.valueKey
  }

  /** `setString` / `setBool`: nothing for `undefined`, else one name, one value and one clause. */
  function Apply(u: Update, s: Slot, v: Option<Item>): Update {
    if v.None? then u
    else Update(u.names[s.nameKey := s.attr], u.values[s.valueKey := v.value], u.sets + [Assignment(s)])
  }

  /** The update after the first `n` slots of `slots`, given `items`. */
  function Run(slots: seq<Slot>, items: seq<Option<Item>>, n: nat): Update
    requires n <= |items| && n <= |slots|
  {
    if n == 0 then Blank else Apply(Run(slots, items, n - 1), slots[n - 1], items[n - 1])
  }

  /** The clauses of the slots given a value, in order. */
  function Assignments(slots: seq<Slot>, items: seq<Option<Item>>, n: nat): seq<string>
    requires n <= |items| && n <= |slots|
  {
    if n == 0 then [] else Assignments(slots, items, n - 1) + (if items[n - 1].Some? then [Assignment(slots[n - 1])] else [])
  }

  /** The three collections the two helpers fill. */
  class Builder {
    var exprNames: map<string, string>
    var exprValues: map<string, Item>
    var sets: seq<string>

    function State(): Update
      reads this
    {
      Update(exprNames, exprValues, sets)
    }

    constructor()
      ensures State() == Blank
    {
      exprNames := map[];
      exprValues := map[];
      sets := [];
    }

    /** `setString(attrName, nameKey, valueKey, value)`. */
    method SetString(attrName: string, nameKey: string, valueKey: string, value: Option<string>)
      modifies this
      ensures State() == Apply(old(State()), Slot(attrName, nameKey, valueKey), StrItem(value))
    {
      if value.None? {
        return;
      }
      exprNames := exprNames[nameKey := attrName];
      exprValues := exprValues[valueKey := S(value.value)];
      sets := sets + [nameKey + " = " + valueKey];
    }

    /** `setBool(attrName, nameKey, valueKey, value)`. */
    method SetBool(attrName: string, nameKey: string, valueKey: string, value: Option<bool>)
      modifies this
      ensures State() == Apply(old(State()), Slot(attrName, nameKey, valueKey), BoolItem(value))
    {
      if value.None? {
        return;
      }
      exprNames := exprNames[nameKey := attrName];
      exprValues := exprValues[valueKey := BOOL(value.value)];
      sets := sets + [nameKey + " = " + valueKey];
    }
  }

  /** One more slot. */
  lemma RunNext(items: seq<Option<Item>>, n: nat, before: Update)
    requires n < |items| && n < |Slots| && before == Run(Slots, items, n)
    ensures Run(Slots, items, n + 1) == Apply(before, Slots[n], items[n])
  {
  }

  /** The calls the route makes, in its order. */
  method Build(f: Fields) returns (b: Builder)
    ensures fresh(b) && b.State() == Run(Slots, Items(f), |Slots|)
  {
    var items := Items(f);
    b := new Builder();
    b.SetString("plantingDate", "#pld", ":pld", f.plantingDate);
    RunNext(items, 0, Blank);
    b.SetBool("pestPresent", "#pp", ":pp", f.pestPresent);
    RunNext(items, 1, Run(Slots, items, 1));
    b.SetBool("diseasePresent", "#dp", ":dp", f.diseasePresent);
    RunNext(items, 2, Run(Slots, items, 2));
    b.SetBool("isGoldStandard", "#gs", ":gs", f.isGoldStandard);
    RunNext(items, 3, Run(Slots, items, 3));
    b.SetString("pestName", "#pn", ":pn", f.pestName);
    RunNext(items, 4, Run(Slots, items, 4));
    b.SetString("pestStage", "#ps", ":ps", f.pestStage);
    RunNext(items, 5, Run(Slots, items, 5));
    b.SetString("diseaseName", "#dn", ":dn", f.diseaseName);
    RunNext(items, 6, Run(Slots, items, 6));
    b.SetString("diseaseStage", "#ds", ":ds", f.diseaseStage);
    RunNext(items, 7, Run(Slots, items, 7));
    b.SetString("cropStage", "#cs", ":cs", f.cropStage);
    RunNext(items, 8, Run(Slots, items, 8));
    b.SetString("remarks", "#rm", ":rm", f.remarks);
    RunNext(items, 9, Run(Slots, items, 9));
    b.SetString("cropName", "#cn", ":cn", f.cropName);
    RunNext(items, 10, Run(Slots, items, 10));
    b.SetString("lastUpdatedAt", "#lua", ":lua", Some(f.lastUpdatedAt));
    RunNext(items, 11, Run(Slots, items, 11));
    b.SetString("lastUpdatedBy", "#lub", ":lub", f.lastUpdatedBy);
    RunNext(items, 12, Run(Slots, items, 12));
  }

  // ----- what the update holds -----

  /** No two slots share a placeholder. */
  predicate DistinctSlots(slots: seq<Slot>) {
    forall i, j :: 0 <= i < j < |slots| ==> slots[i].nameKey != slots[j].nameKey && slots[i].valueKey != slots[j].valueKey
  }

  lemma SlotNamesDistinct()
    ensures forall i, j :: 0 <= i < j < |Slots| ==> Slots[i].nameKey != Slots[j].nameKey
  {
  }

  lemma SlotValuesDistinct()
    ensures forall i, j :: 0 <= i < j < |Slots| ==> Slots[i].valueKey != Slots[j].valueKey
  {
  }

  /** The route's slots share no placeholder. */
  lemma SlotsDistinct()
    ensures DistinctSlots(Slots)
  {
    SlotNamesDistinct();
    SlotValuesDistinct();
  }

  /** The name placeholders of the first `n` slots. */
  function NameKeys(slots: seq<Slot>, n: nat): set<string>
    requires n <= |slots|
  {
    if n == 0 then {} else NameKeys(slots, n - 1) + {slots[n - 1].nameKey}
  }

  /** The value placeholders of the first `n` slots. */
  function ValueKeys(slots: seq<Slot>, n: nat): set<string>
    requires n <= |slots|
  {
    if n == 0 then {} else ValueKeys(slots, n - 1) + {slots[n - 1].valueKey}
  }

  /** A slot's placeholders are not among those of the slots before it. */
  lemma {:induction false} FreshKeys(slots: seq<Slot>, m: nat, n: nat)
    requires m <= n < |slots| && DistinctSlots(slots)
    ensures slots[n].nameKey !in NameKeys(slots, m) && slots[n].valueKey !in ValueKeys(slots, m)
  {
    if m > 0 {
      FreshKeys(slots, m - 1, n);
    }
  }

  /**
   * Exactly the first `n` slots given a value have their name and value
   * placeholders bound, to their attribute and value; no other placeholder
   * is bound; and the clauses are theirs, one each, in order.
   */
  ghost predicate Binds(u: Update, slots: seq<Slot>, items: seq<Option<Item>>, n: nat)
    requires n <= |items| && n <= |slots|
  {
    && (forall i :: 0 <= i < n ==> (slots[i].nameKey in u.names <==> items[i].Some?))
    && (forall i :: 0 <= i < n ==> (slots[i].valueKey in u.values <==> items[i].Some?))
    && (forall i :: 0 <= i < n && items[i].Some? ==>
          u.names[slots[i].nameKey] == slots[i].attr && u.values[slots[i].valueKey] == items[i].value)
    && u.names.Keys <= NameKeys(slots, n) && u.values.Keys <= ValueKeys(slots, n)
    && u.sets == Assignments(slots, items, n)
  }

  /** Binding one more slot, whose placeholders no earlier slot uses. */
  lemma BindsNext(u: Update, slots: seq<Slot>, items: seq<Option<Item>>, n: nat)
    requires n < |items| && n < |slots| && Binds(u, slots, items, n)
    requires slots[n].nameKey !in NameKeys(slots, n) && slots[n].valueKey !in ValueKeys(slots, n)
    ensures Binds(Apply(u, slots[n], items[n]), slots, items, n + 1)
  {
    if items[n].None? {
      BindsSkip(u, slots, items, n);
    } else {
      BindsAdd(u, slots, items, n);
    }
  }

  /** A slot with no value binds nothing. */
  lemma BindsSkip(u: Update, slots: seq<Slot>, items: seq<Option<Item>>, n: nat)
    requires n < |items| && n < |slots| && Binds(u, slots, items, n) && items[n].None?
    requires slots[n].nameKey !in NameKeys(slots, n) && slots[n].valueKey !in ValueKeys(slots, n)
    ensures Binds(u, slots, items, n + 1)
  {
    assert Assignments(slots, items, n + 1) == Assignments(slots, items, n) + [];
  }

  /** A slot with a value binds its two placeholders and adds its clause. */
  lemma BindsAdd(u: Update, slots: seq<Slot>, items: seq<Option<Item>>, n: nat)
    requires n < |items| && n < |slots| && Binds(u, slots, items, n) && items[n].Some?
    requires slots[n].nameKey !in NameKeys(slots, n) && slots[n].valueKey !in ValueKeys(slots, n)
    ensures Binds(Apply(u, slots[n], items[n]), slots, items, n + 1)
  {
    var w := Apply(u, slots[n], items[n]);
    assert w.names == u.names[slots[n].nameKey := slots[n].attr];
    assert w.values == u.values[slots[n].valueKey := items[n].value];
    assert w.sets == Assignments(slots, items, n + 1);
    assert w.names.Keys <= NameKeys(slots, n + 1);
    assert w.values.Keys <= ValueKeys(slots, n + 1);
    assert forall i :: 0 <= i < n + 1 ==> (slots[i].nameKey in w.names <==> items[i].Some?);
    assert forall i :: 0 <= i < n + 1 ==> (slots[i].valueKey in w.values <==> items[i].Some?);
  }

  /** What the run binds, for slots that share no placeholder. */
  lemma {:induction false} RunMeans(slots: seq<Slot>, items: seq<Option<Item>>, n: nat)
    requires n <= |items| && n <= |slots| && DistinctSlots(slots)
    ensures Binds(Run(slots, items, n), slots, items, n)
  {
    if n > 0 {
      RunMeans(slots, items, n - 1);
      FreshKeys(slots, n - 1, n - 1);
      BindsNext(Run(slots, items, n - 1), slots, items, n - 1);
    }
  }

  /** A slot given a value puts at least one clause in the update. */
  lemma {:induction false} AssignmentsNonEmpty(slots: seq<Slot>, items: seq<Option<Item>>, n: nat, k: nat)
    requires n <= |items| && n <= |slots| && k < n && items[k].Some?
    ensures Assignments(slots, items, n) != []
  {
    if k < n - 1 {
      AssignmentsNonEmpty(slots, items, n - 1, k);
    }
  }

  // ----- the route -----

  /** `sets.join(", ")`. */
  function Join(xs: seq<string>, sep: string): (r: string)
    ensures xs != [] ==> |r| >= |xs[0]|
  {
    if xs == [] then []
    else if |xs| == 1 then xs[0]
    else xs[0] + sep + Join(xs[1..], sep)
  }

  /** The `UpdateItem` request: the key, the expression and its placeholders. */
  datatype Write = Write(key: string, expression: string, names: map<string, string>, values: map<string, Item>)

  datatype PutResponse =
    | MissingCookie          // 401 "Auth cookie missing"
    | InvalidSession         // 401 "Invalid/expired session"
    | BodyUnreadable         // 500 "Failed to update image": the body is not JSON, or is `null`
    | MissingId              // 400 "Missing id/key"
    | NoFields               // 400 "No allowed fields to update"
    | Updated(w: Write)      // 200, the write made
    | UpdateFailed(w: Write) // 500, the write refused by the store

  /** The update built from the body, the session's claims and the time. */
  function Planned(body: Record, user: Record, now: string): Update {
    Run(Slots, Items(Extract(body, user, now)), |Slots|)
  }

  /**
   * The whole route. `token` is the cookie's value, `verify` the session
   * check (`None` when it throws), `body` what `await req.json()` gives
   * (`None` when it throws, or for `null`, whose `body.id` throws; a JSON
   * value that is not an object has no members), `now` the ISO time of the
   * request and `store` whether the table accepts the write.
   */
  function PutSpec(token: Option<string>, verify: string -> Option<Record>, body: Option<Record>, now: string, store: Write -> bool): PutResponse {
    if token.None? || token.value == [] then MissingCookie
    else if verify(token.value).None? then InvalidSession
    else if body.None? then BodyUnreadable
    else if !Truthy(IdOf(body.value)) then MissingId
    else
      var u := Planned(body.value, verify(token.value).value, now);
      if |u.sets| == 0 then NoFields
      else
        var w := Write(ToStr(IdOf(body.value).value), "SET " + Join(u.sets, ", "), u.names, u.values);
        if store(w) then Updated(w) else UpdateFailed(w)
  }

  /** `PUT /api/images/update`. */
  method Put(token: Option<string>, verify: string -> Option<Record>, body: Option<Record>, now: string, store: Write -> bool) returns (r: PutResponse)
    ensures r == PutSpec(token, verify, body, now, store)
  {
    if token.None? || token.value == [] {
      return MissingCookie;
    }
    var user := verify(token.value);
    if user.None? {
      return InvalidSession;
    }
    if body.None? {
      return BodyUnreadable;
    }
    var id := IdOf(body.value);
    if !Truthy(id) {
      return MissingId;
    }
    var b := Build(Extract(body.value, user.value, now));
    if |b.sets| == 0 {
      return NoFields;
    }
    var w := Write(ToStr(id.value), "SET " + Join(b.sets, ", "), b.exprNames, b.exprValues);
    if store(w) {
      return Updated(w);
    }
    return UpdateFailed(w);
  }

  /** The write the route makes, if any. */
  function Written(r: PutResponse): Option<Write> {
    if r.Updated? || r.UpdateFailed? then Some(r.w) else None
  }

  /**
   * The update binds exactly the slots whose field has a value of the
   * right type, and is never empty, because the update time always has one.
   */
  lemma PlannedMeans(body: Record, user: Record, now: string)
    ensures Binds(Planned(body, user, now), Slots, Items(Extract(body, user, now)), |Slots|)
    ensures Planned(body, user, now).sets != []
  {
    var items := Items(Extract(body, user, now));
    SlotsDistinct();
    RunMeans(Slots, items, |Slots|);
    AssignmentsNonEmpty(Slots, items, |Slots|, 11);
  }

  /**
   * Seen from the body: `goldStandard` is stored as `isGoldStandard` only
   * when it is a boolean, `crop` as a trimmed `cropName` only when it is a
   * string, `lastUpdatedAt` always as the time of the request, and
   * `lastUpdatedBy` only when the session's email is a string.
   */
  lemma PlannedFields(body: Record, user: Record, now: string)
    ensures var u := Planned(body, user, now);
      && ("#gs" in u.names <==> "goldStandard" in body && body["goldStandard"].Bool?)
      && ("#gs" in u.names ==> u.names["#gs"] == "isGoldStandard" && ":gs" in u.values && u.values[":gs"] == BOOL(body["goldStandard"].b))
      && ("#cn" in u.names <==> "crop" in body && body["crop"].Str?)
      && ("#cn" in u.names ==> u.names["#cn"] == "cropName" && ":cn" in u.values && u.values[":cn"] == S(Trim(body["crop"].s)))
      && "#lua" in u.names && u.names["#lua"] == "lastUpdatedAt" && ":lua" in u.values && u.values[":lua"] == S(now)
      && ("#lub" in u.names <==> "email" in user && user["email"].Str?)
  {
    var items := Items(Extract(body, user, now));
    PlannedMeans(body, user, now);
    assert Slots[3] == Slot("isGoldStandard", "#gs", ":gs");
    assert Slots[10] == Slot("cropName", "#cn", ":cn");
    assert Slots[11] == Slot("lastUpdatedAt", "#lua", ":lua");
    assert Slots[12].nameKey == "#lub";
  }

  /**
   * The outcomes in order: no cookie, then a session that does not verify,
   * then an unreadable body, then no id, each without a write; "No allowed
   * fields" never happens, because the update time is always set; otherwise
   * the item keyed by `String(id)` is written.
   */
  lemma PutOutcomes(token: Option<string>, verify: string -> Option<Record>, body: Option<Record>, now: string, store: Write -> bool)
    ensures var r := PutSpec(token, verify, body, now, store);
      && (r.MissingCookie? <==> token.None? || token.value == [])
      && (r.InvalidSession? <==> token.Some? && token.value != [] && verify(token.value).None?)
      && (r.BodyUnreadable? <==> token.Some? && token.value != [] && verify(token.value).Some? && body.None?)
      && (r.MissingId? <==> token.Some? && token.value != [] && verify(token.value).Some? && body.Some? && !Truthy(IdOf(body.value)))
      && !r.NoFields?
      && (Written(r).Some? <==> token.Some? && token.value != [] && verify(token.value).Some? && body.Some? && Truthy(IdOf(body.value)))
      && (Written(r).Some? ==> Written(r).value.key == ToStr(IdOf(body.value).value))
  {
    if token.Some? && token.value != [] && verify(token.value).Some? && body.Some? {
      PlannedMeans(body.value, verify(token.value).value, now);
    }
  }

  /**
   * A write binds exactly the placeholders of the slots whose field has a
   * value of the right type, each to its attribute and value, and its
   * expression is `SET` followed by their clauses, in order.
   */
  lemma WriteTouchesOnlyGiven(token: Option<string>, verify: string -> Option<Record>, body: Record, now: string, store: Write -> bool)
    ensures var r := PutSpec(token, verify, Some(body), now, store);
      Written(r).Some? ==>
        var w := Written(r).value;
        var items := Items(Extract(body, verify(token.value).value, now));
        && Binds(Update(w.names, w.values, Assignments(Slots, items, |Slots|)), Slots, items, |Slots|)
        && w.expression == "SET " + Join(Assignments(Slots, items, |Slots|), ", ")
  {
    var r := PutSpec(token, verify, Some(body), now, store);
    if Written(r).Some? {
      var user := verify(token.value).value;
      var u := Planned(body, user, now);
      WrittenIsPlanned(token, verify, body, now, store);
      PlannedMeans(body, user, now);
      assert Update(u.names, u.values, u.sets) == u;
    }
  }

  /** A write carries the planned update of the verified session. */
  lemma WrittenIsPlanned(token: Option<string>, verify: string -> Option<Record>, body: Record, now: string, store: Write -> bool)
    ensures var r := PutSpec(token, verify, Some(body), now, store);
      Written(r).Some? ==>
        && token.Some? && token.value != [] && verify(token.value).Some?
        && var u := Planned(body, verify(token.value).value, now);
        && Written(r).value.names == u.names && Written(r).value.values == u.values
        && Written(r).value.expression == "SET " + Join(u.sets, ", ")
  {
  }

  /** The same fields as `PlannedFields`, in the write the route makes. */
  lemma WriteFields(token: Option<string>, verify: string -> Option<Record>, body: Record, now: string, store: Write -> bool)
    ensures var r := PutSpec(token, verify, Some(body), now, store);
      Written(r).Some? ==>
        var w := Written(r).value;
        var user := verify(token.value).value;
        && ("#gs" in w.names <==> "goldStandard" in body && body["goldStandard"].Bool?)
        && ("#gs" in w.names ==> w.names["#gs"] == "isGoldStandard" && ":gs" in w.values && w.values[":gs"] == BOOL(body["goldStandard"].b))
        && ("#cn" in w.names <==> "crop" in body && body["crop"].Str?)
        && ("#cn" in w.names ==> w.names["#cn"] == "cropName" && ":cn" in w.values && w.values[":cn"] == S(Trim(body["crop"].s)))
        && "#lua" in w.names && w.names["#lua"] == "lastUpdatedAt" && ":lua" in w.values && w.values[":lua"] == S(now)
        && ("#lub" in w.names <==> "email" in user && user["email"].Str?)
  {
    if token.Some? && token.value != [] && verify(token.value).Some? {
      PlannedFields(body, verify(token.value).value, now);
    }
  }
}
