/** The OIDC values of a provider, and the URLs built from them. */
module OidcValues {
  import opened Text

  datatype OidcData = OidcData(
    clientId: string,
    clientSecret: string,
    authorizeUrl: string,
    tokenUrl: string,
    userinfoUrl: string,
    issuerUrl: string,
    logoutUrl: string,
    scopes: string,
    redirectUris: seq<string>)

  datatype SigningCert = SigningCert(certificatePem: string, fingerprintSha256: string)

  function BuildOidcData(baseUrl: string, slug: string, clientId: string, clientSecret: string,
                         redirectUris: seq<string>): OidcData {
    var base := TrimRight(baseUrl, '/');
    OidcData(
      clientId,
      clientSecret,
      base + "/application/o/authorize/",
      base + "/application/o/token/",
      base + "/application/o/userinfo/",
      base + "/application/o/" + slug + "/",
      base + "/application/o/" + slug + "/end-session/",
      "openid email profile",
      redirectUris)
  }

  /** Scheme and host of the first redirect URI, followed by one slash. */
  function AppRootUrl(redirectUris: seq<string>): string {
    if redirectUris == [] then ""
    else
      var uri := redirectUris[0];
      var schemeEnd := Index(uri, "://");
      if schemeEnd < 0 then ""
      else
        var pathStart := Index(uri[schemeEnd + 3..], "/");
        if pathStart < 0 then uri + "/" else uri[..schemeEnd + 3 + pathStart] + "/"
  }

  /** Trailing slashes of the configured base URL never reach a built URL. */
  lemma {:induction false} BuildIgnoresTrailingSlashes(
      baseUrl: string, n: nat, slug: string, clientId: string, clientSecret: string, redirectUris: seq<string>)
    ensures BuildOidcData(baseUrl + Repeat('/', n), slug, clientId, clientSecret, redirectUris)
         == BuildOidcData(baseUrl, slug, clientId, clientSecret, redirectUris)
  {
    TrimRightPadded(baseUrl, '/', n);
  }

  /** Every value has its documented form, whatever slashes follow the base URL. */
  lemma {:induction false} ValuesAreDocumented(
      base: string, n: nat, slug: string, clientId: string, clientSecret: string, redirectUris: seq<string>)
    requires base == "" || base[|base| - 1] != '/'
    ensures var d := BuildOidcData(base + Repeat('/', n), slug, clientId, clientSecret, redirectUris);
            && d.authorizeUrl == base + "/application/o/authorize/"
            && d.tokenUrl == base + "/application/o/token/"
            && d.userinfoUrl == base + "/application/o/userinfo/"
            && d.issuerUrl == base + "/application/o/" + slug + "/"
            && d.logoutUrl == base + "/application/o/" + slug + "/end-session/"
            && d.scopes == "openid email profile"
            && d.clientId == clientId && d.clientSecret == clientSecret && d.redirectUris == redirectUris
  {
    TrimRightPadded(base, '/', n);
    assert TrimRight(base, '/') == base;
  }

  /** `root` is `scheme://host/`: after the first "://" the only slash is the last character. */
  ghost predicate IsRoot(root: string) {
    var n := Index(root, "://");
    && n >= 0
    && n + 3 < |root|
    && forall i :: n + 3 <= i < |root| ==> (root[i] == '/' <==> i == |root| - 1)
  }

  /** Searching for one slash, character by character. */
  lemma SlashIndex(s: string)
    ensures var p := Index(s, "/");
            if p < 0 then forall i :: 0 <= i < |s| ==> s[i] != '/'
            else p < |s| && s[p] == '/' && forall i :: 0 <= i < p ==> s[i] != '/'
  {
    forall i | 0 <= i < |s| ensures OccursAt(s, "/", i) <==> s[i] == '/' {
      assert s[i..i + 1] == [s[i]];
    }
  }

  lemma SlashAt(s: string, p: nat)
    requires p < |s| && s[p] == '/' && forall i :: 0 <= i < p ==> s[i] != '/'
    ensures Index(s, "/") == p
  {
    SlashIndex(s);
    assert s[p..p + 1] == "/";
    assert OccursAt(s, "/", p);
  }

  /** The first occurrence depends only on the text up to its end. */
  lemma IndexDependsOnPrefix(s: string, t: string, sub: string)
    requires var n := Index(s, sub); n >= 0 && n + |sub| <= |t| && s[..n + |sub|] == t[..n + |sub|]
    ensures Index(t, sub) == Index(s, sub)
  {
    var n := Index(s, sub);
    var m := n + |sub|;
    assert forall i :: 0 <= i < m ==> s[..m][i] == s[i] && t[..m][i] == t[i];
    assert t[n..m] == s[n..m];
    forall j | 0 <= j < n ensures !OccursAt(t, sub, j) {
      assert !OccursAt(s, sub, j);
      assert t[j..j + |sub|] == s[j..j + |sub|];
    }
    IndexIs(t, sub, n);
  }

  /** What is kept of a URI: its origin, which ends the URI or stands before a slash. */
  lemma {:induction false} RootOf(uri: string)
    requires Index(uri, "://") >= 0
    ensures var root := AppRootUrl([uri]);
            && root != ""
            && Index(root, "://") == Index(uri, "://")
            && root[..|root| - 1] <= uri
            && (|root| - 1 == |uri| || uri[|root| - 1] == '/')
    ensures IsRoot(AppRootUrl([uri]))
  {
    var start := Index(uri, "://") + 3;
    var rest := uri[start..];
    var p := Index(rest, "/");
    SlashIndex(rest);
    var end := if p < 0 then |uri| else start + p;
    var root := AppRootUrl([uri]);
    assert root == uri[..end] + "/";
    assert root[..end] == uri[..end];
    forall i | start <= i < end ensures root[i] != '/' {
      assert root[i] == uri[i] == rest[i - start];
    }
    IndexDependsOnPrefix(uri, root, "://");
  }

  /** A root URL is found exactly when the first redirect URI has a scheme separator. */
  lemma {:induction false} RootExistsIff(uris: seq<string>)
    ensures AppRootUrl(uris) != "" <==> uris != [] && Contains(uris[0], "://")
    ensures AppRootUrl(uris) != "" ==> IsRoot(AppRootUrl(uris))
  {
    hide IsRoot;
    if uris != [] {
      assert AppRootUrl(uris) == AppRootUrl([uris[0]]);
      if Index(uris[0], "://") >= 0 {
        RootOf(uris[0]);
        assert OccursAt(uris[0], "://", Index(uris[0], "://"));
      }
    }
  }

  /** Taking the root of a root changes nothing. */
  lemma {:induction false} RootIsIdempotent(uris: seq<string>)
    requires AppRootUrl(uris) != ""
    ensures AppRootUrl([AppRootUrl(uris)]) == AppRootUrl(uris)
  {
    hide OccursAt, Contains;
    var root := AppRootUrl(uris);
    RootOf(uris[0]);
    assert AppRootUrl(uris) == AppRootUrl([uris[0]]);
    var start := Index(root, "://") + 3;
    var rest := root[start..];
    assert forall i :: 0 <= i < |rest| ==> rest[i] == root[start + i];
    SlashAt(rest, |rest| - 1);
  }
}
