/**
 * Image records as the routes see them after `unmarshall`: a map from
 * attribute name to a JavaScript value, and the few JavaScript operators the
 * routes apply to those values (`??`, `!!`, `=== true`, `toString`).
 */
module Records {
  import opened Wrappers
  import opened JsText

  /**
   * An unmarshalled attribute value. A number is kept as the text
   * `toString` gives for it; maps, lists and sets are `Other`, with the
   * text `toString` gives for them.
   */
  datatype Value =
    | Str(s: string)
    | Bool(b: bool)
    | Num(text: string)
    | Null
    | Other(text: string)

  /** One item of the table. An attribute that is not in the map is `undefined`. */
  type Record = map<string, Value>

  /** `data.name`: `None` stands for `undefined`. */
  function Attr(r: Record, name: string): Option<Value> {
    if name in r then Some(r[name]) else None
  }

  /** `!!v`. */
  predicate Truthy(v: Option<Value>) {
    match v
    case None => false
    case Some(Str(s)) => s != []
    case Some(Bool(b)) => b
    case Some(Num(t)) => t != "0" && t != "NaN"
    case Some(Null) => false
    case Some(Other(_)) => true
  }

  /** `v === true`. */
  predicate IsTrue(v: Option<Value>) {
    v == Some(Bool(true))
  }

  /** `v ?? d`: the value unless it is `undefined` or `null`. */
  function Coalesce(v: Option<Value>, d: Value): (r: Value)
    ensures v.None? || v == Some(Null) ==> r == d
    ensures v.Some? && v != Some(Null) ==> r == v.value
  {
    if v.None? || v == Some(Null) then d else v.value
  }

  /** `v.toString()` for a value that is neither `undefined` nor `null`. */
  function ToStr(v: Value): string
    requires !v.Null?
  {
    match v
    case Str(s) => s
    case Bool(b) => if b then "true" else "false"
    case Num(t) => t
    case Other(t) => t
  }

  /** `normalizeStr`: `(v ?? "").toString().trim()`. */
  function NormalizeStr(v: Option<Value>): (r: string)
    ensures IsTrimmed(r)
    ensures v.None? || v == Some(Null) ==> r == []
  {
    var c := Coalesce(v, Str(""));
    assert Trim("") == [] by { TrimOfTrimmed(""); }
    Trim(ToStr(c))
  }

  /** `normalizeLower`: `normalizeStr(v).toLowerCase()`. */
  function NormalizeLower(v: Option<Value>): (r: string)
    ensures IsTrimmed(r)
    ensures forall i :: 0 <= i < |r| ==> !('A' <= r[i] <= 'Z')
  {
    ToLowerKeepsTrimmed(NormalizeStr(v));
    ToLower(NormalizeStr(v))
  }

  /** Normalising a string is trimming it. */
  lemma NormalizeStrOfString(s: string)
    ensures NormalizeStr(Some(Str(s))) == Trim(s)
  {
  }

  /** Normalising what was already normalised changes nothing. */
  lemma NormalizeIdempotent(v: Option<Value>)
    ensures NormalizeStr(Some(Str(NormalizeStr(v)))) == NormalizeStr(v)
    ensures NormalizeLower(Some(Str(NormalizeLower(v)))) == NormalizeLower(v)
  {
    var s := NormalizeStr(v);
    TrimOfTrimmed(s);
    var l := NormalizeLower(v);
    TrimOfTrimmed(l);
    ToLowerIdempotent(s);
  }
}
