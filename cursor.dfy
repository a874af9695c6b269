/**
 * The opaque paging cursor of the images route: the continuation key written
 * as JSON text, encoded as UTF-8 and then as unpadded base64url.
 */
module Cursor {
  import opened Wrappers
  import opened Json
  import Utf8
  import Base64Url

  /** JavaScript truthiness of an optional key (`undefined` is falsy). */
  predicate KeyTruthy(k: Option<Json>) {
    k.Some? && Truthy(k.value)
  }

  /** `encodeCursor`: `null` for a falsy key, otherwise the encoded JSON text. */
  function EncodeCursor(k: Option<Json>): (r: Option<string>)
    ensures r.None? <==> !KeyTruthy(k)
    ensures r.Some? ==> forall i :: 0 <= i < |r.value| ==> Base64Url.IsUrlChar(r.value[i])
  {
    if !KeyTruthy(k) then None
    else Some(Base64Url.Encode(Utf8.Encode(Stringify(k.value))))
  }

  /**
   * `decodeCursor`: no key for a missing or empty cursor; otherwise the parsed
   * JSON text, or no key where `JSON.parse` throws.
   */
  function DecodeCursor(cursor: Option<string>): (r: Option<Json>)
    ensures cursor.None? || cursor.value == [] ==> r.None?
  {
    if cursor.None? || cursor.value == [] then None
    else Parse(Utf8.Decode(Base64Url.Decode(cursor.value)))
  }

  /** A cursor the route hands out is non-empty, so it is never mistaken for "no cursor". */
  lemma EncodedCursorNonEmpty(k: Json)
    requires WellFormed(k) && Truthy(k)
    ensures EncodeCursor(Some(k)).Some? && EncodeCursor(Some(k)).value != []
  {
    StringifyStart(k);
  }

  /** Every truthy key the store can return comes back unchanged from its cursor. */
  lemma CursorRoundTrip(k: Json)
    requires WellFormed(k) && Truthy(k)
    ensures DecodeCursor(EncodeCursor(Some(k))) == Some(k)
  {
    EncodedCursorNonEmpty(k);
    var text := Stringify(k);
    Base64Url.DecodeEncode(Utf8.Encode(text));
    Utf8.DecodeEncode(text);
    ParseStringify(k);
  }

  /** A cursor that is not base64url of JSON text selects no key instead of failing the request. */
  lemma GarbageCursor()
    ensures DecodeCursor(Some("!")) == None
  {
    assert Base64Url.Decode("!") == [];
    assert Utf8.Decode([]) == [];
  }

  lemma NullBytes()
    ensures Utf8.Encode("null") == [110, 117, 108, 108]
  {
  }

  lemma NullDigits()
    ensures Base64Url.Encode([110, 117, 108, 108]) == "bnVsbA"
  {
    assert Base64Url.ToSextets([110, 117, 108, 108]) == [27, 39, 21, 44, 27, 0];
  }

  /** A well-formed cursor may still carry a falsy key: "bnVsbA" is the text `null`. */
  lemma NullCursor()
    ensures DecodeCursor(Some("bnVsbA")) == Some(JNull)
  {
    var bytes: seq<Utf8.Byte> := [110, 117, 108, 108];
    NullBytes();
    NullDigits();
    Base64Url.DecodeEncode(bytes);
    Utf8.DecodeEncode("null");
    assert Stringify(JNull) == "null";
    ParseStringify(JNull);
  }
}
