/**
 * The output-charset encoder of the core package.  Only the Unicode charset
 * exists, and encoding is the identity on text.
 */
module Encoder {

  /** The name of the only charset. */
  const UNICODE: string := "Unicode"

  /** Encodes `input` for the charset `charsetName`; every charset leaves text as it is. */
  function Encode(charsetName: string, input: string): string
  {
    input
  }

  /** The names of the supported charsets, in the order they are offered. */
  function GetCharsetNames(): (names: seq<string>)
    ensures |names| == 1 && names[0] == "Unicode"
    ensures forall cs :: cs in names <==> cs == UNICODE
  {
    [UNICODE]
  }

  /** Encoding never changes the text, whatever the charset. */
  lemma EncodeIsIdentity(charsetName: string, input: string)
    ensures Encode(charsetName, input) == input
  {
  }

  /** The charset argument has no effect on the result. */
  lemma EncodeIgnoresCharset(a: string, b: string, input: string)
    ensures Encode(a, input) == Encode(b, input)
  {
  }

  /** Encoding twice is encoding once, and the length of the text is kept. */
  lemma EncodeIdempotent(charsetName: string, input: string)
    ensures Encode(charsetName, Encode(charsetName, input)) == Encode(charsetName, input)
    ensures |Encode(charsetName, input)| == |input|
  {
  }
}
