/**
 * The two string helpers that every handler file carries its own copy of:
 * building the ingestion URL from the configured host, and widening the
 * millisecond timestamp that `Date.prototype.toISOString` produces to six
 * fractional digits.
 */
module Wire {
  import opened Common
  import opened Text

  /** The URL used when the configured host is the empty string (it has no scheme). */
  const DefaultUrl: string := "ingress.vigilant.run/api/message"
  const ApiPath: string := "/api/message"
  const HttpScheme: string := "http://"
  const HttpsScheme: string := "https://"

  /** `formatEndpoint(endpoint, insecure)` */
  function FormatEndpoint(endpoint: string, insecure: bool): (url: string)
    ensures endpoint == "" ==> url == DefaultUrl
    ensures endpoint != "" ==> EndsWith(url, ApiPath)
    ensures StartsWith(url, HttpScheme) <==> endpoint != "" && insecure
    ensures StartsWith(url, HttpsScheme) <==> endpoint != "" && !insecure
  {
    if endpoint == "" then
      assert DefaultUrl[0] != HttpScheme[0];
      DefaultUrl
    else if insecure then
      var url := HttpScheme + endpoint + ApiPath;
      assert url[..|HttpScheme|] == HttpScheme && url[4] != HttpsScheme[4];
      assert url[|url| - |ApiPath|..] == ApiPath;
      url
    else
      var url := HttpsScheme + endpoint + ApiPath;
      assert url[..|HttpsScheme|] == HttpsScheme && url[4] != HttpScheme[4];
      assert url[|url| - |ApiPath|..] == ApiPath;
      url
  }

  /**
   * Recovers the host and the transport flag from a URL that `FormatEndpoint`
   * built from a non-empty host; `None` for anything else.
   */
  function ParseEndpoint(url: string): Option<(string, bool)> {
    if StartsWith(url, HttpsScheme) && EndsWith(url, ApiPath) && |url| > |HttpsScheme| + |ApiPath| then
      Some((url[|HttpsScheme|..|url| - |ApiPath|], false))
    else if StartsWith(url, HttpScheme) && EndsWith(url, ApiPath) && |url| > |HttpScheme| + |ApiPath| then
      Some((url[|HttpScheme|..|url| - |ApiPath|], true))
    else None
  }

  /** Every non-empty host and flag can be read back from the URL built from them. */
  lemma ParseFormatEndpoint(endpoint: string, insecure: bool)
    requires endpoint != ""
    ensures ParseEndpoint(FormatEndpoint(endpoint, insecure)) == Some((endpoint, insecure))
  {
    var url := FormatEndpoint(endpoint, insecure);
    if insecure {
      assert url == HttpScheme + endpoint + ApiPath;
      assert !StartsWith(url, HttpsScheme);
      assert url[|HttpScheme|..|url| - |ApiPath|] == endpoint;
    } else {
      assert url == HttpsScheme + endpoint + ApiPath;
      assert url[|HttpsScheme|..|url| - |ApiPath|] == endpoint;
    }
  }

  /** The default URL is not the image of any configured host. */
  lemma DefaultUrlHasNoHost()
    ensures ParseEndpoint(DefaultUrl) == None
  {
    assert DefaultUrl[0] != HttpScheme[0];
  }

  /** Two distinct configurations with non-empty hosts never share a URL. */
  lemma FormatEndpointInjective(e1: string, i1: bool, e2: string, i2: bool)
    requires e1 != "" && e2 != ""
    requires FormatEndpoint(e1, i1) == FormatEndpoint(e2, i2)
    ensures e1 == e2 && i1 == i2
  {
    ParseFormatEndpoint(e1, i1);
    ParseFormatEndpoint(e2, i2);
  }

  /** A timestamp whose last five characters are `.`, three digits and `Z` (what `\.(\d{3})Z$` matches). */
  predicate HasMillis(iso: string) {
    |iso| >= 5 && iso[|iso| - 5] == '.' && IsDigit(iso[|iso| - 4]) && IsDigit(iso[|iso| - 3])
    && IsDigit(iso[|iso| - 2]) && iso[|iso| - 1] == 'Z'
  }

  /** A timestamp ending in `.`, six digits and `Z`. */
  predicate HasMicros(iso: string) {
    |iso| >= 8 && iso[|iso| - 8] == '.' && iso[|iso| - 1] == 'Z'
    && forall i :: |iso| - 7 <= i < |iso| - 1 ==> IsDigit(iso[i])
  }

  /**
   * `iso.replace(/\.(\d{3})Z$/, '.$1000Z')`: the three captured digits are
   * followed by three zeros; a string without that ending is left alone.
   */
  function PadTimestamp(iso: string): (r: string)
    ensures HasMillis(iso) ==> |r| == |iso| + 3 && r[..|iso| - 1] == iso[..|iso| - 1] && r[|iso| - 1..] == "000Z"
    ensures HasMillis(iso) ==> HasMicros(r)
    ensures !HasMillis(iso) ==> r == iso
  {
    if HasMillis(iso) then iso[..|iso| - 1] + "000Z" else iso
  }

  /** Widening a timestamp twice is the same as widening it once. */
  lemma PadTimestampIdempotent(iso: string)
    ensures PadTimestamp(PadTimestamp(iso)) == PadTimestamp(iso)
  {
    var r := PadTimestamp(iso);
    if HasMillis(iso) {
      assert r[|r| - 5] == iso[|iso| - 2];
      assert !HasMillis(r);
    }
  }

  /** Dropping the three added zeros gives back the original millisecond timestamp. */
  lemma PadTimestampReversible(iso: string)
    requires HasMillis(iso)
    ensures var r := PadTimestamp(iso); r[..|r| - 4] + "Z" == iso
  {
    var r := PadTimestamp(iso);
    assert r[..|r| - 4] == iso[..|iso| - 1];
    assert iso == iso[..|iso| - 1] + [iso[|iso| - 1]];
  }
}
