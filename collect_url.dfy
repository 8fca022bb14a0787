/**
 * The address a tracking request is posted to: the configured server URL
 * joined with the collection path, without doubling the slash when the
 * server URL already ends in one.
 */
module CollectUrl {

  /** The path of the RESTful collection interface. */
  const REMOTE_URL: string := "/data/collect"

  predicate EndsWithSlash(s: string)
  {
    |s| > 0 && s[|s| - 1] == '/'
  }

  /**
   * The collection address for `serverUrl`. Prefix, suffix and length
   * together determine it (see TargetUrlDetermined).
   */
  function TargetUrl(serverUrl: string): (r: string)
    ensures |r| == |serverUrl| + |REMOTE_URL| - (if EndsWithSlash(serverUrl) then 1 else 0)
    ensures r[..|serverUrl|] == serverUrl
    ensures r[|r| - |REMOTE_URL|..] == REMOTE_URL
  {
    if EndsWithSlash(serverUrl) then
      var r := serverUrl + REMOTE_URL[1..];
      assert r[|r| - |REMOTE_URL|..] == [serverUrl[|serverUrl| - 1]] + REMOTE_URL[1..];
      r
    else serverUrl + REMOTE_URL
  }

  /** The string building of `__send`: pick the path with or without its slash, then join. */
  method CollectionUrl(serverUrl: string) returns (server: string)
    ensures server == TargetUrl(serverUrl)
  {
    server := "";
    if EndsWithSlash(serverUrl) {
      server := REMOTE_URL[1..];
    } else {
      server := REMOTE_URL;
    }
    server := serverUrl + server;
  }

  /** Any string with TargetUrl's prefix, suffix and length is TargetUrl itself. */
  lemma TargetUrlDetermined(serverUrl: string, r: string)
    requires |r| == |serverUrl| + |REMOTE_URL| - (if EndsWithSlash(serverUrl) then 1 else 0)
    requires r[..|serverUrl|] == serverUrl
    requires r[|r| - |REMOTE_URL|..] == REMOTE_URL
    ensures r == TargetUrl(serverUrl)
  {
    var t := TargetUrl(serverUrl);
    var n := |serverUrl|;
    var k := |r| - |REMOTE_URL|;
    forall i | 0 <= i < |r|
      ensures r[i] == t[i]
    {
      if i < n {
        assert r[i] == r[..n][i] && t[i] == t[..n][i];
      } else {
        assert r[i] == r[k..][i - k] && t[i] == t[k..][i - k];
      }
    }
  }

  /**
   * The join adds exactly one slash at the seam: when the server URL ends in
   * a single slash, the result is the same as for the URL without it.
   */
  lemma SingleSlashSeam(base: string)
    requires !EndsWithSlash(base)
    ensures TargetUrl(base + "/") == TargetUrl(base) == base + REMOTE_URL
  {
    assert (base + "/") + REMOTE_URL[1..] == base + REMOTE_URL;
  }

  /** The character right after the server URL: the path's slash only when the URL has none. */
  lemma NoDoubledSlash(serverUrl: string)
    ensures EndsWithSlash(serverUrl) ==> TargetUrl(serverUrl)[|serverUrl|] == 'd'
    ensures !EndsWithSlash(serverUrl) ==> TargetUrl(serverUrl)[|serverUrl|] == '/'
  {
  }

  /** The examples of a server URL given with and without its trailing slash. */
  lemma DocumentedExamples()
    ensures TargetUrl("http://example.com") == "http://example.com/data/collect"
    ensures TargetUrl("http://example.com/") == "http://example.com/data/collect"
  {
    SingleSlashSeam("http://example.com");
  }
}
