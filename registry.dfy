/** The fixed set of Linode data centers, the wire abbreviation of each, and the URL
    of its ping-samples endpoint. */
module Registry {
  import opened Wrappers

  /** BASE_URLF, with its single %v verb split into the text before and after it. */
  const URL_PREFIX: string := "http://netint-"
  const URL_SUFFIX: string := ".linode.com/ping/samples"

  const DALLAS: string := "dal"
  const FREMONT: string := "fmt"
  const ATLANTA: string := "atl"
  const NEWARK: string := "nwk"
  const LONDON: string := "lon"
  const TOKYO: string := "tok"

  /** The region names, in the library's documented order: six names, no two alike. */
  function Regions(): (r: seq<string>)
    ensures |r| == 6
    ensures forall i, j :: 0 <= i < j < |r| ==> r[i] != r[j]
  {
    ["dallas", "fremont", "atlanta", "newark", "london", "tokyo"]
  }

  /** The abbreviation constants, in the order of their declaration. */
  function Abbreviations(): seq<string> {
    [DALLAS, FREMONT, ATLANTA, NEWARK, LONDON, TOKYO]
  }

  /** The switch at the top of getOverview: the abbreviation for a known region
      name, None for any other name. It accepts exactly the names Regions() lists,
      and every abbreviation is three letters long. */
  function Abbreviation(name: string): (r: Option<string>)
    ensures r.Some? <==> name in Regions()
    ensures r.Some? ==> |r.value| == 3
  {
    if name == "dallas" then Some(DALLAS)
    else if name == "fremont" then Some(FREMONT)
    else if name == "atlanta" then Some(ATLANTA)
    else if name == "newark" then Some(NEWARK)
    else if name == "london" then Some(LONDON)
    else if name == "tokyo" then Some(TOKYO)
    else None
  }

  /** fmt.Sprintf(BASE_URLF, abbr): %v prints a string as it is, so the
      abbreviation can be read back from every URL Url builds. */
  function Url(abbr: string): (r: string)
    ensures AbbreviationOfUrl(r) == Some(abbr)
  {
    URL_PREFIX + abbr + URL_SUFFIX
  }

  /** Reads the abbreviation back out of an endpoint URL. */
  function AbbreviationOfUrl(u: string): Option<string> {
    if |u| >= |URL_PREFIX| + |URL_SUFFIX|
       && u[..|URL_PREFIX|] == URL_PREFIX
       && u[|u| - |URL_SUFFIX|..] == URL_SUFFIX
    then Some(u[|URL_PREFIX|..|u| - |URL_SUFFIX|])
    else None
  }

  /** Different abbreviations give different endpoints. */
  lemma UrlInjective(a: string, b: string)
    requires Url(a) == Url(b)
    ensures a == b
  {
  }

  /** The switch maps the k-th region name to the k-th abbreviation. */
  lemma AbbreviationTable()
    ensures forall k :: 0 <= k < 6 ==> Abbreviation(Regions()[k]) == Some(Abbreviations()[k])
  {
  }

  /** No two region names share an abbreviation, so no two share an endpoint. */
  lemma AbbreviationInjective(r1: string, r2: string)
    requires Abbreviation(r1).Some? && Abbreviation(r1) == Abbreviation(r2)
    ensures r1 == r2
  {
  }

  /** Every region's endpoint is its own: distinct regions, distinct URLs. */
  lemma RegionUrlsDistinct(r1: string, r2: string)
    requires Abbreviation(r1).Some? && Abbreviation(r2).Some? && r1 != r2
    ensures Url(Abbreviation(r1).value) != Url(Abbreviation(r2).value)
  {
    if Url(Abbreviation(r1).value) == Url(Abbreviation(r2).value) {
      UrlInjective(Abbreviation(r1).value, Abbreviation(r2).value);
      AbbreviationInjective(r1, r2);
    }
  }

  lemma DallasUrl()
    ensures Url(Abbreviation("dallas").value) == "http://netint-dal.linode.com/ping/samples"
  {
  }
}
