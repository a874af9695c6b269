/**
 * The non-key FilterExpression the images and stats routes build from the
 * tri-state query parameters `pestDetected`, `diseaseDetected` and
 * `goldStandard`, and the store's evaluation of it against a record.
 */
module Filters {
  import opened Wrappers
  import opened Records

  /** One conjunct of the expression, over placeholder names `#n` and values `:v`. */
  datatype Clause =
    | Equals(name: string, value: string)
    | AbsentOrEquals(name: string, value: string)

  /** The text of one conjunct. */
  function ClauseText(c: Clause): string {
    match c
    case Equals(n, v) => n + " = " + v
    case AbsentOrEquals(n, v) => "(attribute_not_exists(" + n + ") OR " + n + " = " + v + ")"
  }

  /** The three things the route accumulates: `filterParts`, `exprNames`, `exprValues`. */
  datatype Filter = Filter(parts: seq<Clause>, names: map<string, string>, values: map<string, bool>)

  /** Every placeholder a clause mentions is defined. */
  predicate Scoped(f: Filter) {
    forall i :: 0 <= i < |f.parts| ==> f.parts[i].name in f.names && f.parts[i].value in f.values
  }

  function Join(cs: seq<Clause>): string {
    if cs == [] then "" else if |cs| == 1 then ClauseText(cs[0]) else ClauseText(cs[0]) + " AND " + Join(cs[1..])
  }

  /** The FilterExpression the request carries; none at all when there are no parts. */
  function Expression(f: Filter): (r: Option<string>)
    ensures r.None? <==> f.parts == []
  {
    if f.parts == [] then None else Some(Join(f.parts))
  }

  /** The store's reading of one clause: `#n = :v` needs the attribute present and equal. */
  predicate ClauseHolds(f: Filter, c: Clause, r: Record)
    requires c.name in f.names && c.value in f.values
  {
    var a := Attr(r, f.names[c.name]);
    match c
    case Equals(_, _) => a == Some(Bool(f.values[c.value]))
    case AbsentOrEquals(_, _) => a.None? || a == Some(Bool(f.values[c.value]))
  }

  /** A record passes the filter when it satisfies every clause. */
  predicate Holds(f: Filter, r: Record)
    requires Scoped(f)
  {
    forall i :: 0 <= i < |f.parts| ==> ClauseHolds(f, f.parts[i], r)
  }

  /** What `pestDetected` / `diseaseDetected` select: only "true" and "false" select anything. */
  predicate FlagSelects(param: Option<string>, a: Option<Value>) {
    if param == Some("true") then a == Some(Bool(true))
    else if param == Some("false") then a == Some(Bool(false))
    else true
  }

  /** What `goldStandard` selects: "false" also accepts a record without the attribute. */
  predicate GoldSelects(param: Option<string>, a: Option<Value>) {
    if param == Some("true") then a == Some(Bool(true))
    else if param == Some("false") then a.None? || a == Some(Bool(false))
    else true
  }

  /** Is the parameter one of the two literals that add a clause? */
  predicate IsFlag(param: Option<string>) {
    param == Some("true") || param == Some("false")
  }

  function Count(b: bool): nat { if b then 1 else 0 }

  /** A filter with one more clause, naming `attr` and comparing it with `v`. */
  function Add(f: Filter, c: Clause, attr: string, v: bool): Filter {
    Filter(f.parts + [c], f.names[c.name := attr], f.values[c.value := v])
  }

  /** Adding a clause over fresh placeholders adds exactly that condition on `attr`. */
  lemma Extend(f: Filter, c: Clause, attr: string, v: bool)
    requires Scoped(f) && c.name !in f.names && c.value !in f.values
    ensures Scoped(Add(f, c, attr, v))
    ensures forall r :: Holds(Add(f, c, attr, v), r) <==>
      Holds(f, r) && (Attr(r, attr) == Some(Bool(v)) || (c.AbsentOrEquals? && Attr(r, attr).None?))
  {
    var g := Add(f, c, attr, v);
    assert g.parts[|f.parts|] == c;
    forall r
      ensures Holds(g, r) <==> Holds(f, r) && ClauseHolds(g, c, r)
    {
      forall i | 0 <= i < |f.parts|
        ensures g.parts[i] == f.parts[i] && ClauseHolds(g, f.parts[i], r) == ClauseHolds(f, f.parts[i], r)
      {
      }
    }
  }

  /** The filter after the pest step. */
  function PestFilter(pest: Option<string>): Filter {
    var empty := Filter([], map[], map[]);
    if IsFlag(pest) then Add(empty, Equals("#pp", ":pp"), "pestPresent", pest == Some("true")) else empty
  }

  /** The filter after the pest and disease steps. */
  function FlagsFilter(pest: Option<string>, disease: Option<string>): Filter {
    var f1 := PestFilter(pest);
    if IsFlag(disease) then Add(f1, Equals("#dp", ":dp"), "diseasePresent", disease == Some("true")) else f1
  }

  /** The filter the three parameters produce. */
  function FilterFor(pest: Option<string>, disease: Option<string>, gold: Option<string>): Filter {
    var f := FlagsFilter(pest, disease);
    if gold == Some("true") then Add(f, Equals("#gs", ":gsT"), "isGoldStandard", true)
    else if gold == Some("false") then Add(f, AbsentOrEquals("#gs", ":gsF"), "isGoldStandard", false)
    else f
  }

  /** The pest step: one clause on `pestPresent` exactly when the parameter is a literal. */
  lemma PestFilterMeans(pest: Option<string>)
    ensures var f := PestFilter(pest);
      && Scoped(f) && f.names.Keys <= {"#pp"} && f.values.Keys <= {":pp"}
      && |f.parts| == Count(IsFlag(pest))
      && forall r :: Holds(f, r) <==> FlagSelects(pest, Attr(r, "pestPresent"))
  {
    var empty := Filter([], map[], map[]);
    if IsFlag(pest) {
      Extend(empty, Equals("#pp", ":pp"), "pestPresent", pest == Some("true"));
    }
  }

  /** The pest and disease steps. */
  lemma FlagsFilterMeans(pest: Option<string>, disease: Option<string>)
    ensures var f := FlagsFilter(pest, disease);
      && Scoped(f) && f.names.Keys <= {"#pp", "#dp"} && f.values.Keys <= {":pp", ":dp"}
      && |f.parts| == Count(IsFlag(pest)) + Count(IsFlag(disease))
      && forall r :: Holds(f, r) <==>
           FlagSelects(pest, Attr(r, "pestPresent")) && FlagSelects(disease, Attr(r, "diseasePresent"))
  {
    PestFilterMeans(pest);
    if IsFlag(disease) {
      Extend(PestFilter(pest), Equals("#dp", ":dp"), "diseasePresent", disease == Some("true"));
    }
  }

  /**
   * A clause, a name and a value for each parameter that is literally "true"
   * or "false" and nothing for any other value; the filter accepts exactly
   * the records the three parameters select.
   */
  lemma FilterSelects(pest: Option<string>, disease: Option<string>, gold: Option<string>)
    ensures Scoped(FilterFor(pest, disease, gold))
    ensures |FilterFor(pest, disease, gold).parts| == Count(IsFlag(pest)) + Count(IsFlag(disease)) + Count(IsFlag(gold))
    ensures forall r :: Holds(FilterFor(pest, disease, gold), r) <==>
      FlagSelects(pest, Attr(r, "pestPresent")) &&
      FlagSelects(disease, Attr(r, "diseasePresent")) &&
      GoldSelects(gold, Attr(r, "isGoldStandard"))
  {
    var f2 := FlagsFilter(pest, disease);
    FlagsFilterMeans(pest, disease);
    if gold == Some("true") {
      Extend(f2, Equals("#gs", ":gsT"), "isGoldStandard", true);
    } else if gold == Some("false") {
      Extend(f2, AbsentOrEquals("#gs", ":gsF"), "isGoldStandard", false);
    }
  }

  /** The route's construction: push a clause and assign its name and value, parameter by parameter. */
  method BuildFilter(pest: Option<string>, disease: Option<string>, gold: Option<string>) returns (f: Filter)
    ensures f == FilterFor(pest, disease, gold)
  {
    var parts: seq<Clause> := [];
    var names: map<string, string> := map[];
    var values: map<string, bool> := map[];
    if pest == Some("true") || pest == Some("false") {
      parts := parts + [Equals("#pp", ":pp")];
      names := names["#pp" := "pestPresent"];
      values := values[":pp" := pest == Some("true")];
    }
    if disease == Some("true") || disease == Some("false") {
      parts := parts + [Equals("#dp", ":dp")];
      names := names["#dp" := "diseasePresent"];
      values := values[":dp" := disease == Some("true")];
    }
    if gold == Some("true") {
      parts := parts + [Equals("#gs", ":gsT")];
      names := names["#gs" := "isGoldStandard"];
      values := values[":gsT" := true];
    } else if gold == Some("false") {
      parts := parts + [AbsentOrEquals("#gs", ":gsF")];
      names := names["#gs" := "isGoldStandard"];
      values := values[":gsF" := false];
    }
    f := Filter(parts, names, values);
  }
}
