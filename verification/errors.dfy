/**
  Raw payloads and the error taxonomy of the driver.

  The error constructors of the Go package live outside this model; each one
  becomes a variant that carries exactly the fields passed at its call sites.
 */
module Errors {

  /** One byte of a transport payload. */
  newtype byte = b: int | 0 <= b < 256

  type Bytes = seq<byte>

  /**
    Go's `string(resp)` conversion: a Go string is a byte string, so the text
    holds the payload byte for byte.
   */
  function RawText(b: Bytes): (s: string)
    ensures |s| == |b|
    ensures forall i :: 0 <= i < |b| ==> s[i] as int == b[i] as int
  {
    seq(|b|, i requires 0 <= i < |b| => (b[i] as int) as char)
  }

  /** Reads a byte string back out of a text whose characters are all below 256. */
  function TextBytes(s: string): (b: Bytes)
    requires forall i :: 0 <= i < |s| ==> s[i] as int < 256
    ensures |b| == |s|
  {
    seq(|s|, i requires 0 <= i < |s| => s[i] as int as byte)
  }

  /** The raw text of an unmarshalling error loses nothing: the payload can be recovered from it. */
  lemma RawTextVerbatim(b: Bytes)
    ensures forall i :: 0 <= i < |RawText(b)| ==> RawText(b)[i] as int < 256
    ensures TextBytes(RawText(b)) == b
  {
  }

  /** The dynamic `interface{}` payloads the package stores: an unsigned index or a string. */
  datatype Any = Uint(n: nat) | Str(s: string)

  /** Every way a driver call can fail, each with the context its constructor is given. */
  datatype Error =
      /** A plain `errors.New` failure raised while constructing the driver. */
    | Invalid(message: string)
      /** A value factory rejected its argument (`newInvalidArgumentError`). */
    | InvalidArgument(message: string, parameter: string, value: Any)
      /** A navigation target lacks an http or https scheme (`newInvalidURLError`). */
    | InvalidURL(cause: string, url: string)
      /** A session-scoped command ran with no session (`newSessionIDError`). */
    | MissingSession(callingMethod: string)
      /** The transport failed (`newCommunicationError`); carries the raw reply bytes. */
    | Communication(cause: string, callingMethod: string, url: string, response: Bytes)
      /** The reply could not be decoded (`newUnmarshallingError`); carries the reply as text. */
    | Unmarshalling(callingMethod: string, raw: string)
  {
    /** Errors raised before any request leaves the driver. */
    predicate IsLocal() {
      Invalid? || InvalidArgument? || InvalidURL? || MissingSession?
    }
  }
}
