/** What every handler receives and returns: the authenticated caller and an
    HTTP reply (a status code with its payload). */
module Api {
  import opened Schemas
  import opened Text

  /** A reply: 200 with a payload, or an error status with the `error` message. */
  datatype Reply<T> = Ok(body: T) | Err(code: nat, error: string)

  predicate IsHexChar(c: char) {
    ('0' <= c <= '9') || ('a' <= c <= 'f') || ('A' <= c <= 'F')
  }

  /** A string Mongoose can cast to an ObjectId: 24 hexadecimal digits. */
  predicate IsObjectId(s: string) {
    |s| == 24 && forall i :: 0 <= i < |s| ==> IsHexChar(s[i])
  }

  predicate IsLowerHexChar(c: char) {
    ('0' <= c <= '9') || ('a' <= c <= 'f')
  }

  /** The text `ObjectId.toString()` gives: 24 lower-case hexadecimal digits. */
  predicate IsCanonicalId(s: string) {
    |s| == 24 && forall i :: 0 <= i < |s| ==> IsLowerHexChar(s[i])
  }

  type ObjectIdText = s: string | IsCanonicalId(s) witness "000000000000000000000000"

  /** The key a castable id finds its document under: casting reads the hex
      digits in either case, and the stored `_id` prints them in lower case. */
  function IdKey(s: string): (k: string)
    ensures IsObjectId(s) ==> IsCanonicalId(k)
    ensures IsCanonicalId(s) ==> k == s
  {
    Lower(s)
  }

  /** An id written in upper case finds the same document. */
  lemma IdKeyIgnoresCase(s: string)
    ensures IsObjectId(Upper(s)) <==> IsObjectId(s)
    ensures IdKey(Upper(s)) == IdKey(s)
  {
    LowerForgetsCase(s);
  }

  /** `req.user` as the authentication middleware sets it from the user's
      document: its id, and its schema-valid role and country. */
  datatype Actor = Actor(id: ObjectIdText, role: Role, country: Country)
}
