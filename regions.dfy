/** The two markets whose search trends a word is scored against, and their text codec. */
module Regions {
  import opened Wrappers

  datatype Region = Britain | America

  /** The text stored in the score database's region column. */
  function ToStr(r: Region): (s: string)
    ensures s == "britain" || s == "america"
  {
    match r
    case Britain => "britain"
    case America => "america"
  }

  function FromStr(s: string): (r: Option<Region>)
    ensures r.Some? <==> s == "britain" || s == "america"
  {
    if s == "britain" then Some(Britain)
    else if s == "america" then Some(America)
    else None
  }

  /** Decoding the encoding of a region gives the region back. */
  lemma FromStrToStr(r: Region)
    ensures FromStr(ToStr(r)) == Some(r)
  {
  }

  /** Every string the decoder accepts is the encoding of what it decodes to. */
  lemma ToStrFromStr(s: string)
    requires FromStr(s).Some?
    ensures ToStr(FromStr(s).value) == s
  {
  }

  /** The two regions have different encodings. */
  lemma ToStrInjective(a: Region, b: Region)
    requires ToStr(a) == ToStr(b)
    ensures a == b
  {
    FromStrToStr(a);
    FromStrToStr(b);
  }

  /** Prompts that name no region are treated as American English. */
  function RegionOrDefault(declared: Option<Region>): (r: Region)
    ensures declared.Some? ==> r == declared.value
    ensures declared.None? ==> r == America
  {
    match declared
    case Some(region) => region
    case None => America
  }
}
