/**
 * The iTunes directory lookup URL that the iOS, macOS and Android plugins all request.
 */
module Itunes {
  import opened Wrappers

  const LOOKUP_ROOT := "https://itunes.apple.com/"
  const LOOKUP_PATH := "/lookup?bundleId="

  /**
   * The lookup URL for a bundle id in a country's store. A missing country code counts as the
   * empty string, which leaves an empty path segment.
   */
  function LookupUrl(bundleId: string, countryCode: Option<string>): (url: string)
    ensures |url| == |LOOKUP_ROOT| + |countryCode.GetOr("")| + |LOOKUP_PATH| + |bundleId|
    ensures url[..|LOOKUP_ROOT|] == LOOKUP_ROOT
    ensures url[|LOOKUP_ROOT|..|LOOKUP_ROOT| + |countryCode.GetOr("")|] == countryCode.GetOr("")
    ensures url[|LOOKUP_ROOT| + |countryCode.GetOr("")|..|url| - |bundleId|] == LOOKUP_PATH
    ensures url[|url| - |bundleId|..] == bundleId
    ensures countryCode.None? ==> url == "https://itunes.apple.com//lookup?bundleId=" + bundleId
  {
    var country := countryCode.GetOr("");
    var url := LOOKUP_ROOT + country + LOOKUP_PATH + bundleId;
    assert url[..|LOOKUP_ROOT|] == LOOKUP_ROOT;
    assert url[|LOOKUP_ROOT|..|LOOKUP_ROOT| + |country|] == country;
    assert url[|LOOKUP_ROOT| + |country|..|url| - |bundleId|] == LOOKUP_PATH;
    assert url[|url| - |bundleId|..] == bundleId;
    url
  }

  /** Distinct bundle ids in the same store give distinct URLs. */
  lemma LookupUrlNamesBundle(bundleId: string, otherId: string, countryCode: Option<string>)
    requires LookupUrl(bundleId, countryCode) == LookupUrl(otherId, countryCode)
    ensures bundleId == otherId
  {
    var url := LookupUrl(bundleId, countryCode);
    assert |bundleId| == |otherId|;
    assert bundleId == url[|url| - |bundleId|..];
  }
}
