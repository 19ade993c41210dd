/** MongoDB ObjectIds as they travel in requests and tokens (24 hexadecimal digits), and the
    cast a lookup or a document performs on such a string. */
module ObjectIds {
  import opened JsText

  predicate IsHexDigit(c: char) {
    ('0' <= c <= '9') || ('a' <= c <= 'f') || ('A' <= c <= 'F')
  }

  /** Whether a string can be cast to an ObjectId (the test behind `ObjectId.isValid`
      and behind the cast a query performs on an id). Either case of hex digit is accepted. */
  predicate IsValidObjectId(s: string) {
    |s| == 24 && forall i :: 0 <= i < |s| ==> IsHexDigit(s[i])
  }

  /** The string an ObjectId prints as (`toString()`, `toHexString()`): 24 lower-case hex digits.
      Stored ids and references, and the caller's id in the token, have this form. */
  predicate IsObjectIdString(s: string) {
    |s| == 24 && forall i :: 0 <= i < |s| ==> ('0' <= s[i] <= '9') || ('a' <= s[i] <= 'f')
  }

  /** Casting an id string to an ObjectId and reading it back: the same digits, lower-cased.
      Two spellings of one id that differ only in the case of their letters cast alike. */
  function CastId(s: string): (r: string)
    ensures |r| == |s|
    ensures IsValidObjectId(s) ==> IsObjectIdString(r)
  {
    LowerCase(s)
  }

  /** The printed form of an ObjectId is itself a valid id, and casting it changes nothing. */
  lemma PrintedIdIsFixed(s: string)
    requires IsObjectIdString(s)
    ensures IsValidObjectId(s) && CastId(s) == s
  {
    assert forall i :: 0 <= i < |s| ==> CastId(s)[i] == s[i];
  }

  /** A string casts to an ObjectId exactly when its cast does, and casting twice is casting once. */
  lemma CastKeepsValidity(s: string)
    ensures IsValidObjectId(CastId(s)) <==> IsValidObjectId(s)
    ensures CastId(CastId(s)) == CastId(s)
  {
    LowerCaseIdempotent(s);
    if IsValidObjectId(CastId(s)) {
      forall i | 0 <= i < |s| ensures IsHexDigit(s[i]) {
        assert IsHexDigit(CastId(s)[i]);
      }
    }
  }

  /** An upper-case spelling of an id is a valid id and casts to the lower-case one. */
  lemma CastExample()
    ensures IsValidObjectId("65A000000000000000000001")
    ensures CastId("65A000000000000000000001") == "65a000000000000000000001"
  {
    var upper := "65A000000000000000000001";
    assert forall i :: 0 <= i < |upper| ==> IsHexDigit(upper[i]);
  }
}
