/** Image URL prefixing of src/helpers/getImage.ts. */
module ImageUrl {
  import opened Js

  /** `BASE_URL`: the configured CMS base URL (rendered by a template
      literal, so an unset variable reads "undefined") with its first "/api"
      removed. */
  function BaseUrl(configured: Option<string>): (r: string)
    ensures !Includes(Template(configured), "/api") ==> r == Template(configured)
    ensures Includes(Template(configured), "/api") ==>
      var s, i := Template(configured), FirstIndex(Template(configured), "/api");
      r == s[..i] + s[i + 4..]
  {
    var s := Template(configured);
    if Includes(s, "/api") then ReplaceFirstSplices(s, "/api", ""); ReplaceFirst(s, "/api", "")
    else ReplaceFirstAbsent(s, "/api", ""); ReplaceFirst(s, "/api", "")
  }

  /** `getImage(url)`: a URL containing "http" is returned as is; any other
      is prefixed with the base URL. */
  function GetImage(baseUrl: string, url: string): (r: string)
    ensures Includes(url, "http") ==> r == url
    ensures !Includes(url, "http") ==> r == baseUrl + url
  {
    if !Includes(url, "http") then baseUrl + url else url
  }

  /** The result always ends with the URL it was given. */
  lemma GetImageEndsWithUrl(baseUrl: string, url: string)
    ensures var r := GetImage(baseUrl, url); |url| <= |r| && r[|r| - |url|..] == url
  {
  }

  /** The empty fallback URL yields the base URL itself. */
  lemma GetImageOfEmpty(baseUrl: string)
    ensures GetImage(baseUrl, "") == baseUrl
  {
  }

  /** With an http base URL, prefixing is idempotent. */
  lemma GetImageIdempotent(baseUrl: string, url: string)
    requires Includes(baseUrl, "http")
    ensures GetImage(baseUrl, GetImage(baseUrl, url)) == GetImage(baseUrl, url)
  {
    if !Includes(url, "http") {
      IncludesExtend([], baseUrl, url, "http");
      assert [] + baseUrl + url == baseUrl + url;
    }
  }
}
