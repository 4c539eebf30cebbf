/** The SQS payload codec: binary payloads travel through SQS as
    `STANDARD_NO_PAD` base64 text no longer than an SQS message value may be. */
module SqsEncoding {
  import opened Wrappers
  import opened Bytes
  import opened ShopError
  import Base64

  /** The size limit of a value in an SQS message: 256 KiB. */
  const SizeLimit: nat := 256 * 1024

  function Encode(data: seq<Byte>): (r: Result<string, CoffeeShopError>)
    ensures r.Ok? <==> |Base64.Encode(data)| <= SizeLimit
    ensures r.Ok? ==> r.value == Base64.Encode(data)
    ensures r.Err? ==> r.error == Base64EncodingOversize(|Base64.Encode(data)|)
  {
    var result := Base64.Encode(data);
    if |result| > SizeLimit then Err(Base64EncodingOversize(|result|)) else Ok(result)
  }

  function Decode(data: string): (r: Result<seq<Byte>, CoffeeShopError>)
    ensures r.Err? ==> r.error.Base64DecodingError?
  {
    match Base64.Decode(data)
    case Ok(d) => Ok(d)
    case Err(e) => Err(Base64DecodingError(e))
  }

  /** The limit in payload bytes: `encode` accepts exactly the payloads of at
      most 196608 bytes (3/4 of the limit), the longest whose encoding fits. */
  lemma EncodeAcceptsUpTo(data: seq<Byte>)
    ensures Encode(data).Ok? <==> |data| <= 196608
  {
    Base64.EncodedLength(data);
  }

  /** Whatever `encode` produces, `decode` turns back into the payload. */
  lemma RoundTrip(data: seq<Byte>)
    requires Encode(data).Ok?
    ensures Decode(Encode(data).value) == Ok(data)
  {
    Base64.RoundTrip(data);
  }

  /** Whatever `decode` accepts is the encoding of what it decodes to. */
  lemma DecodeCanonical(text: string)
    requires Decode(text).Ok?
    ensures Base64.Encode(Decode(text).value) == text
  {
    Base64.Canonical(text);
  }

  /** A symbol outside the alphabet (padding included), or a length of the
      form 4k + 1, makes `decode` fail. */
  lemma DecodeRejects(text: string)
    requires (exists i :: 0 <= i < |text| && Base64.SymbolValue(text[i]).None?) || |text| % 4 == 1
    ensures Decode(text).Err? && Decode(text).error.Base64DecodingError?
  {
    Base64.DecodeFails(text);
  }
}
