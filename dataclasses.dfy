/** The two location records of era_5g_client/dataclasses.py and the URLs they
    build. Both records are immutable values, so building a URL never changes
    `uri`, `port`, `user_id` or `password`. */
module DataClasses {
  import opened Wrappers
  import Decimal

  const Scheme: string := "http://"

  /** Where the middleware is and whom to log in as. */
  datatype MiddlewareInfo = MiddlewareInfo(uri: string, userId: string, password: string) {
    /** `http://<uri>/<path>`: stripping the scheme and `"/" + path` gives
        back the uri verbatim, nothing trimmed or escaped. */
    function BuildApiEndpoint(path: string): (url: string)
      ensures Authority(url, path) == Some(uri)
    {
      AuthorityOfBuilt(uri, path);
      Scheme + uri + "/" + path
    }
  }

  /** Where a network application listens. */
  datatype NetAppLocation = NetAppLocation(uri: string, port: int) {
    /** `http://<uri>:<port>/<path>`, the port written as `str()` writes it;
        the URL determines the location it was built from. */
    function BuildApiEndpoint(path: string): (url: string)
      ensures ParseNetAppEndpoint(url, path) == Some(this)
    {
      NetAppUrlRoundTrip(uri, port, path);
      Scheme + uri + ":" + Decimal.IntToString(port) + "/" + path
    }
  }

  /** The authority part of `url`: what lies between the scheme and `"/" + path`. */
  function Authority(url: string, path: string): (r: Option<string>)
    ensures r.Some? ==> url == Scheme + r.value + "/" + path
  {
    var n := |url| - |path| - 1;
    if |Scheme| <= n && url[..|Scheme|] == Scheme && url[n..] == "/" + path then
      Some(url[|Scheme|..n])
    else
      None
  }

  /** The last index at which `c` occurs in `s`. */
  function LastIndexOf(s: string, c: char): (r: Option<nat>)
    ensures r.Some? ==> r.value < |s| && s[r.value] == c && forall j :: r.value < j < |s| ==> s[j] != c
    ensures r.None? ==> forall j :: 0 <= j < |s| ==> s[j] != c
    decreases |s|
  {
    if s == [] then None
    else if s[|s| - 1] == c then Some(|s| - 1)
    else LastIndexOf(s[..|s| - 1], c)
  }

  /** Reads a network-application URL back into the location that built it:
      the port is the numeral after the last colon of the authority, written
      as `str()` writes it (no sign, no leading zero). */
  function ParseNetAppEndpoint(url: string, path: string): (r: Option<NetAppLocation>)
    ensures r.Some? ==> url == Scheme + r.value.uri + ":" + Decimal.IntToString(r.value.port) + "/" + path
  {
    var authority := Authority(url, path);
    if authority.None? then None
    else
      var a := authority.value;
      var colon := LastIndexOf(a, ':');
      if colon.None? then None
      else
        var digits := a[colon.value + 1..];
        var port := Decimal.ParseInt(digits);
        if port.None? || Decimal.IntToString(port.value) != digits then None
        else
          RebuildAtColon(url, path, a, colon.value);
          Some(NetAppLocation(a[..colon.value], port.value))
  }

  /** A URL around an authority with a colon at `i` is the scheme, the part
      before the colon, the colon, the part after it and `"/" + path`. */
  lemma RebuildAtColon(url: string, path: string, a: string, i: nat)
    requires url == Scheme + a + "/" + path && i < |a| && a[i] == ':'
    ensures url == Scheme + a[..i] + ":" + a[i + 1..] + "/" + path
  {
    assert a == a[..i] + ":" + a[i + 1..] by {
      assert a[..i] + ":" + a[i + 1..] == a[..i] + a[i..];
    }
  }

  /** `Authority` undoes the scheme and the path around any authority. */
  lemma AuthorityOfBuilt(a: string, path: string)
    ensures Authority(Scheme + a + "/" + path, path) == Some(a)
  {
    var url := Scheme + a + "/" + path;
    var n := |url| - |path| - 1;
    assert url[..|Scheme|] == Scheme;
    assert url[n..] == "/" + path;
    assert url[|Scheme|..n] == a;
  }

  /** The colon before a numeral is the last colon of `uri:numeral`. */
  lemma {:induction false} LastColonBeforeNumeral(uri: string, digits: string)
    requires forall i :: 0 <= i < |digits| ==> digits[i] != ':'
    ensures LastIndexOf(uri + ":" + digits, ':') == Some(|uri|)
    decreases |digits|
  {
    var a := uri + ":" + digits;
    if digits != [] {
      var shorter := digits[..|digits| - 1];
      assert a[..|a| - 1] == uri + ":" + shorter;
      assert a[|a| - 1] == digits[|digits| - 1];
      LastColonBeforeNumeral(uri, shorter);
    }
  }

  /** A network-application URL determines the uri and the port it was built
      from, whatever colons the uri itself contains. */
  lemma NetAppUrlRoundTrip(uri: string, port: int, path: string)
    ensures ParseNetAppEndpoint(Scheme + uri + ":" + Decimal.IntToString(port) + "/" + path, path)
         == Some(NetAppLocation(uri, port))
  {
    var digits := Decimal.IntToString(port);
    var a := uri + ":" + digits;
    assert Scheme + uri + ":" + digits + "/" + path == Scheme + a + "/" + path;
    AuthorityOfBuilt(a, path);
    LastColonBeforeNumeral(uri, digits);
    assert a[|uri| + 1..] == digits;
    assert a[..|uri|] == uri;
    Decimal.IntToStringRoundTrip(port);
  }

  /** With an empty path the URL is the bare authority followed by `/`, the
      form a socket.io connection is opened against. */
  lemma EmptyPathEndsWithSlash(loc: NetAppLocation)
    ensures var url := loc.BuildApiEndpoint("");
      url[|url| - 1] == '/' && Authority(url, "") == Some(loc.uri + ":" + Decimal.IntToString(loc.port))
  {
    var url := loc.BuildApiEndpoint("");
    assert url == Scheme + (loc.uri + ":" + Decimal.IntToString(loc.port)) + "/";
  }
}
