/** The enumerations that describe collating sequences, with the numeric
    values the declarations give them. */
module Collation {
  import opened Values

  /** The type of a collating sequence: the built-in BINARY, NOCASE and
      REVERSE sequences, or a user-defined one. */
  datatype CollationTypeEnum = Custom | Binary | NoCase | Reverse

  /** The text encoding a collating sequence works in. */
  datatype CollationEncodingEnum = UTF8 | UTF16LE | UTF16BE

  function CollationTypeValue(c: CollationTypeEnum): (v: int)
    ensures 0 <= v <= 3
    ensures (v == 0) <==> c == Custom
  {
    match c
    case Custom => 0
    case Binary => 1
    case NoCase => 2
    case Reverse => 3
  }

  function CollationTypeOf(v: int): Option<CollationTypeEnum> {
    if v == 0 then Some(Custom)
    else if v == 1 then Some(Binary)
    else if v == 2 then Some(NoCase)
    else if v == 3 then Some(Reverse)
    else None
  }

  /** The declared values identify the collation types: reading a value back
      gives the type it came from, and only the four declared values name a
      type. */
  lemma CollationTypeValuesRoundTrip(c: CollationTypeEnum, v: int)
    ensures CollationTypeOf(CollationTypeValue(c)) == Some(c)
    ensures CollationTypeOf(v).Some? <==> 0 <= v <= 3
    ensures CollationTypeOf(v).Some? ==> CollationTypeValue(CollationTypeOf(v).value) == v
  {
  }

  /** The encodings carry the engine's own encoding codes: 1 for UTF-8, 2 for
      UTF-16 little-endian, 3 for UTF-16 big-endian. */
  function CollationEncodingValue(e: CollationEncodingEnum): (v: int)
    ensures 1 <= v <= 3
  {
    match e
    case UTF8 => 1
    case UTF16LE => 2
    case UTF16BE => 3
  }

  function CollationEncodingOf(v: int): Option<CollationEncodingEnum> {
    if v == 1 then Some(UTF8)
    else if v == 2 then Some(UTF16LE)
    else if v == 3 then Some(UTF16BE)
    else None
  }

  lemma CollationEncodingValuesRoundTrip(e: CollationEncodingEnum, v: int)
    ensures CollationEncodingOf(CollationEncodingValue(e)) == Some(e)
    ensures CollationEncodingOf(v).Some? <==> 1 <= v <= 3
    ensures CollationEncodingOf(v).Some? ==> CollationEncodingValue(CollationEncodingOf(v).value) == v
  {
  }
}
