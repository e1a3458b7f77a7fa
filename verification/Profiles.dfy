/**
 The profile pipeline: a table per profile, overrides laid over it, an internal key removed,
 and the signing certificate laid on top.  Template rendering and base64 are parameters.
 */
module Profiles {
  import opened Wrappers
  import opened Text
  import opened OidcValues
  import CanonicalHash

  /** Some(text) when the template parses and executes. */
  type Render = (string, OidcData) -> Option<string>

  const INTERNAL_KEY := "redirect_uri"

  // ---------------------------------------------------------------- tables

  function GrafanaTable(d: OidcData): Data {
    map[
      "GF_AUTH_GENERIC_OAUTH_ENABLED" := "true",
      "GF_AUTH_GENERIC_OAUTH_NAME" := "authentik",
      "GF_AUTH_GENERIC_OAUTH_CLIENT_ID" := d.clientId,
      "GF_AUTH_GENERIC_OAUTH_CLIENT_SECRET" := d.clientSecret,
      "GF_AUTH_GENERIC_OAUTH_AUTH_URL" := d.authorizeUrl,
      "GF_AUTH_GENERIC_OAUTH_TOKEN_URL" := d.tokenUrl,
      "GF_AUTH_GENERIC_OAUTH_API_URL" := TrimRight(d.userinfoUrl, '/'),
      "GF_AUTH_GENERIC_OAUTH_SCOPES" := d.scopes,
      "GF_AUTH_SIGNOUT_REDIRECT_URL" := d.logoutUrl,
      "GF_AUTH_OAUTH_AUTO_LOGIN" := "true",
      "GF_AUTH_GENERIC_OAUTH_ALLOW_ASSIGN_GRAFANA_ADMIN" := "true",
      "GF_AUTH_GENERIC_OAUTH_ALLOW_SIGN_UP" := "true",
      "GF_AUTH_GENERIC_OAUTH_EMAIL_ATTRIBUTE_PATH" := "email",
      "GF_AUTH_GENERIC_OAUTH_NAME_ATTRIBUTE_PATH" := "name",
      "GF_AUTH_GENERIC_OAUTH_LOGIN_ATTRIBUTE_PATH" := "preferred_username",
      "GF_AUTH_GENERIC_OAUTH_USE_PKCE" := "true"
    ]
  }

  const ROOT_URL_KEY := "GF_SERVER_ROOT_URL"

  function WithRootUrl(table: Data, redirectUris: seq<string>): Data {
    var root := AppRootUrl(redirectUris);
    if root != "" then table[ROOT_URL_KEY := root] else table
  }

  function OpenWebUi(d: OidcData): Data {
    map[
      "ENABLE_OAUTH_SIGNUP" := "true",
      "OAUTH_PROVIDER_NAME" := "authentik",
      "OAUTH_CLIENT_ID" := d.clientId,
      "OAUTH_CLIENT_SECRET" := d.clientSecret,
      "OPENID_PROVIDER_URL" := d.issuerUrl,
      "OAUTH_SCOPES" := d.scopes
    ]
  }

  function ArgoCd(d: OidcData): Data {
    map[
      "dex.authentik.clientSecret" := d.clientSecret,
      "clientId" := d.clientId,
      "issuerUrl" := d.issuerUrl
    ]
  }

  function RagFlow(d: OidcData, overrides: Data): Data {
    var redirectUri := if INTERNAL_KEY in overrides then overrides[INTERNAL_KEY] else "";
    map[
      "client_id" := d.clientId,
      "client_secret" := d.clientSecret,
      "issuer" := d.issuerUrl,
      "scope" := d.scopes,
      "service_conf_yaml" := ServiceConf(d, redirectUri)
    ]
  }

  function Harbor(d: OidcData): Data {
    map[
      "client_id" := d.clientId,
      "client_secret" := d.clientSecret,
      "issuer" := d.issuerUrl,
      "scopes" := d.scopes,
      "authorize_url" := d.authorizeUrl,
      "token_url" := d.tokenUrl,
      "userinfo_url" := d.userinfoUrl
    ]
  }

  function Generic(d: OidcData): Data {
    map[
      "clientId" := d.clientId,
      "clientSecret" := d.clientSecret,
      "authorizeUrl" := d.authorizeUrl,
      "tokenUrl" := d.tokenUrl,
      "userinfoUrl" := d.userinfoUrl,
      "issuerUrl" := d.issuerUrl,
      "scopes" := d.scopes
    ]
  }

  function Table(profile: string, d: OidcData, overrides: Data): Data {
    if profile == "grafana" then WithRootUrl(GrafanaTable(d), d.redirectUris)
    else if profile == "openwebui" then OpenWebUi(d)
    else if profile == "argocd" then ArgoCd(d)
    else if profile == "ragflow" then RagFlow(d, overrides)
    else if profile == "harbor" then Harbor(d)
    else Generic(d)
  }

  // ---------------------------------------------------------------- layers

  /** An override value after template expansion; a failing template is kept as written. */
  function Resolved(v: string, d: OidcData, render: Render): string {
    if Index(v, "{{") < 0 then v
    else
      var rendered := render(v, d);
      if rendered.Some? then rendered.value else v
  }

  function CertLayer(profile: string, cert: Option<SigningCert>, base64: string -> string): Data {
    if cert.None? then map[]
    else if profile == "argocd" then
      map["caData" := base64(cert.value.certificatePem), "caFingerprint" := cert.value.fingerprintSha256]
    else
      map["saml.crt" := cert.value.certificatePem, "saml.fingerprint" := cert.value.fingerprintSha256]
  }

  /** The value of one key in the finished secret: certificate over override over table. */
  function Winner(k: string, certs: Data, overrides: Data, table: Data, d: OidcData, render: Render): Option<string> {
    if k in certs then Some(certs[k])
    else if k == INTERNAL_KEY then None
    else if k in overrides then Some(Resolved(overrides[k], d, render))
    else if k in table then Some(table[k])
    else None
  }

  function Layered(certs: Data, overrides: Data, table: Data, d: OidcData, render: Render): Data {
    map k | k in certs.Keys + overrides.Keys + table.Keys
          && Winner(k, certs, overrides, table, d, render).Some?
      :: Winner(k, certs, overrides, table, d, render).value
  }

  /** The finished secret, key by key. */
  function SecretData(profile: string, d: OidcData, overrides: Data, cert: Option<SigningCert>,
                      render: Render, base64: string -> string): Data {
    Layered(CertLayer(profile, cert, base64), overrides, Table(profile, d, overrides), d, render)
  }

  lemma MergeIsLayered(overrides: Data, resolved: Data, table: Data, d: OidcData, render: Render)
    requires resolved.Keys == overrides.Keys
    requires forall k | k in overrides :: resolved[k] == Resolved(overrides[k], d, render)
    ensures (table + resolved) - {INTERNAL_KEY} == Layered(map[], overrides, table, d, render)
  {
  }

  lemma CertIsLayered(certs: Data, overrides: Data, table: Data, d: OidcData, render: Render)
    ensures Layered(map[], overrides, table, d, render) + certs == Layered(certs, overrides, table, d, render)
  {
  }

  // ---------------------------------------------------------------- the program

  method Grafana(d: OidcData) returns (result: Data)
    ensures result == Table("grafana", d, map[])
  {
    result := GrafanaTable(d);
    var rootUrl := AppRootUrl(d.redirectUris);
    if rootUrl != "" {
      result := result[ROOT_URL_KEY := rootUrl];
    }
  }

  /** The overrides are visited in an arbitrary order. */
  method ResolveOverrides(overrides: Data, d: OidcData, render: Render) returns (resolved: Data)
    ensures resolved.Keys == overrides.Keys
    ensures forall k | k in overrides :: resolved[k] == Resolved(overrides[k], d, render)
  {
    if |overrides| == 0 {
      return overrides;
    }
    resolved := map[];
    var unseen := overrides.Keys;
    while unseen != {}
      invariant unseen <= overrides.Keys
      invariant resolved.Keys == overrides.Keys - unseen
      invariant forall k | k in resolved :: resolved[k] == Resolved(overrides[k], d, render)
    {
      var k :| k in unseen;
      var v := overrides[k];
      if Index(v, "{{") >= 0 {
        var rendered := render(v, d);
        if rendered.Some? {
          resolved := resolved[k := rendered.value];
        } else {
          resolved := resolved[k := v];
        }
      } else {
        resolved := resolved[k := v];
      }
      unseen := unseen - {k};
    }
  }

  /** maps.Copy: the entries of `source` are written into `target` one at a time. */
  method CopyInto(target: Data, source: Data) returns (result: Data)
    ensures result == target + source
  {
    result := target;
    var unseen := source.Keys;
    while unseen != {}
      invariant unseen <= source.Keys
      invariant result.Keys == target.Keys + (source.Keys - unseen)
      invariant forall k | k in result :: result[k] == if k in source && k !in unseen then source[k] else target[k]
    {
      var k :| k in unseen;
      result := result[k := source[k]];
      unseen := unseen - {k};
    }
  }

  method ProfileTable(profile: string, d: OidcData, overrides: Data) returns (result: Data)
    ensures result == Table(profile, d, overrides)
  {
    match profile
    case "grafana" => result := Grafana(d);
    case "openwebui" => result := OpenWebUi(d);
    case "argocd" => result := ArgoCd(d);
    case "ragflow" => result := RagFlow(d, overrides);
    case "harbor" => result := Harbor(d);
    case _ => result := Generic(d);
  }

  method Apply(profile: string, d: OidcData, overrides: Data, render: Render) returns (result: Data)
    ensures result == Layered(map[], overrides, Table(profile, d, overrides), d, render)
  {
    result := ProfileTable(profile, d, overrides);
    var resolved := ResolveOverrides(overrides, d, render);
    MergeIsLayered(overrides, resolved, result, d, render);
    result := CopyInto(result, resolved);
    result := result - {INTERNAL_KEY};
  }

  method ApplyWithCert(profile: string, d: OidcData, overrides: Data, cert: Option<SigningCert>,
                       render: Render, base64: string -> string) returns (result: Data)
    ensures result == SecretData(profile, d, overrides, cert, render, base64)
  {
    result := Apply(profile, d, overrides, render);
    CertIsLayered(CertLayer(profile, cert, base64), overrides, Table(profile, d, overrides), d, render);
    result := AddCert(profile, result, cert, base64);
  }

  method AddCert(
      profile: string, base: Data, cert: Option<SigningCert>, base64: string -> string) returns (result: Data)
    ensures result == base + CertLayer(profile, cert, base64)
  {
    result := base;
    if cert.None? {
      return;
    }
    match profile
    case "argocd" =>
      result := result["caData" := base64(cert.value.certificatePem)];
      result := result["caFingerprint" := cert.value.fingerprintSha256];
    case _ =>
      result := result["saml.crt" := cert.value.certificatePem];
      result := result["saml.fingerprint" := cert.value.fingerprintSha256];
  }

  // ---------------------------------------------------------------- ragflow's file

  function Scalar(key: string, value: string): string {
    "    " + key + ": \"" + value + "\"\n"
  }

  function Row(text: string): string {
    text + "\n"
  }

  const CONF_HEAD :=
    Row("oauth:") + Row("  oidc:") + Row("    type: oidc") + Row("    icon: sso")
    + Row("    display_name: \"Login with Authentik\"")

  function ServiceConf(d: OidcData, redirectUri: string): string {
    CONF_HEAD
    + Scalar("client_id", d.clientId)
    + Scalar("client_secret", d.clientSecret)
    + Scalar("issuer", d.issuerUrl)
    + Scalar("scope", d.scopes)
    + Scalar("redirect_uri", redirectUri)
  }

  // ---------------------------------------------------------------- properties of the pipeline

  /** The redirect override steers the file but never becomes a key of the secret. */
  lemma {:induction false} InternalKeyNeverSurvives(
      profile: string, d: OidcData, overrides: Data, cert: Option<SigningCert>, render: Render,
      base64: string -> string)
    ensures "redirect_uri" !in SecretData(profile, d, overrides, cert, render, base64)
  {
  }

  /** No key of the table has the character `c` at index `i`. */
  ghost predicate NoKeyHas(table: Data, i: nat, c: char) {
    forall k | k in table :: |k| > i && k[i] != c
  }

  lemma GrafanaKeys(d: OidcData)
    ensures NoKeyHas(GrafanaTable(d), 4, '.')
  {
  }

  lemma OpenWebUiKeys(d: OidcData)
    ensures NoKeyHas(OpenWebUi(d), 4, '.')
  {
  }

  lemma ArgoCdKeys(d: OidcData)
    ensures NoKeyHas(ArgoCd(d), 1, 'a')
  {
  }

  lemma RagFlowKeys(d: OidcData, overrides: Data)
    ensures NoKeyHas(RagFlow(d, overrides), 4, '.')
  {
  }

  lemma HarborKeys(d: OidcData)
    ensures NoKeyHas(Harbor(d), 4, '.')
  {
  }

  lemma GenericKeys(d: OidcData)
    ensures NoKeyHas(Generic(d), 4, '.')
  {
  }

  lemma TableKeys(profile: string, d: OidcData, overrides: Data)
    ensures if profile == "argocd" then NoKeyHas(Table(profile, d, overrides), 1, 'a')
            else NoKeyHas(Table(profile, d, overrides), 4, '.')
  {
    hide GrafanaTable, OpenWebUi, ArgoCd, RagFlow, Harbor, Generic;
    if profile == "grafana" {
      GrafanaKeys(d);
      assert ROOT_URL_KEY[4] == 'E';
    } else if profile == "openwebui" {
      OpenWebUiKeys(d);
    } else if profile == "argocd" {
      ArgoCdKeys(d);
    } else if profile == "ragflow" {
      RagFlowKeys(d, overrides);
    } else if profile == "harbor" {
      HarborKeys(d);
    } else {
      GenericKeys(d);
    }
  }

  lemma CertKeys(profile: string, cert: Option<SigningCert>, base64: string -> string, k: string)
    requires k in CertLayer(profile, cert, base64)
    ensures |k| > 4 && k[1] == 'a' && k[4] != 'r'
    ensures profile != "argocd" ==> k[4] == '.'
  {
  }

  /** No table has a key that the certificate layer writes. */
  lemma {:induction false} CertKeysAreNotInTables(
      profile: string, d: OidcData, overrides: Data, cert: Option<SigningCert>, base64: string -> string, k: string)
    requires k in CertLayer(profile, cert, base64)
    ensures k !in Table(profile, d, overrides) && k != INTERNAL_KEY
  {
    hide GrafanaTable, OpenWebUi, ArgoCd, RagFlow, Harbor, Generic, Table, CertLayer;
    CertKeys(profile, cert, base64, k);
    var table := Table(profile, d, overrides);
    TableKeys(profile, d, overrides);
    assert INTERNAL_KEY[1] == 'e';
  }

  /** The overrides already give both certificate keys the certificate's values. */
  predicate OverridesPinCert(certs: Data, overrides: Data, d: OidcData, render: Render) {
    forall k | k in certs :: k in overrides && Resolved(overrides[k], d, render) == certs[k]
  }

  /**
   Losing the certificate (its fetch failed) leaves the secret's data as it was exactly when
   the overrides pin both of its keys; otherwise those keys are dropped or replaced.
   */
  lemma {:induction false} LosingCertKeepsDataIff(
      profile: string, d: OidcData, overrides: Data, cert: SigningCert, render: Render, base64: string -> string)
    ensures SecretData(profile, d, overrides, None, render, base64)
         == SecretData(profile, d, overrides, Some(cert), render, base64)
        <==> OverridesPinCert(CertLayer(profile, Some(cert), base64), overrides, d, render)
  {
    var certs, table := CertLayer(profile, Some(cert), base64), Table(profile, d, overrides);
    forall k | k in certs ensures k !in table && k != INTERNAL_KEY {
      CertKeysAreNotInTables(profile, d, overrides, Some(cert), base64, k);
    }
    PinnedIff(certs, overrides, table, d, render);
  }

  lemma {:induction false} PinnedIff(certs: Data, overrides: Data, table: Data, d: OidcData, render: Render)
    requires forall k | k in certs :: k !in table && k != INTERNAL_KEY
    ensures Layered(map[], overrides, table, d, render) == Layered(certs, overrides, table, d, render)
       <==> OverridesPinCert(certs, overrides, d, render)
  {
    var without, with := Layered(map[], overrides, table, d, render), Layered(certs, overrides, table, d, render);
    assert with == without + certs by { CertIsLayered(certs, overrides, table, d, render); }
    assert forall k | k in certs :: k in without <==> k in overrides;
    assert forall k | k in certs && k in overrides :: without[k] == Resolved(overrides[k], d, render);
    if without == with {
      assert forall k | k in certs :: k in with && with[k] == certs[k];
    }
  }

  lemma RootKeyIsNew(d: OidcData, cert: Option<SigningCert>, base64: string -> string)
    ensures ROOT_URL_KEY !in CertLayer("grafana", cert, base64)
    ensures ROOT_URL_KEY !in GrafanaTable(d)
    ensures ROOT_URL_KEY != INTERNAL_KEY
  {
  }

  /** Without an override, the root URL is written exactly when a root can be found, and it is a root. */
  lemma {:induction false} GrafanaRootUrlIff(
      d: OidcData, overrides: Data, cert: Option<SigningCert>, render: Render, base64: string -> string)
    requires "GF_SERVER_ROOT_URL" !in overrides
    ensures var data, k := SecretData("grafana", d, overrides, cert, render, base64), "GF_SERVER_ROOT_URL";
            && (k in data <==> d.redirectUris != [] && Contains(d.redirectUris[0], "://"))
            && (k in data ==> data[k] == AppRootUrl(d.redirectUris) && IsRoot(data[k]))
  {
    hide GrafanaTable, OpenWebUi, ArgoCd, RagFlow, Harbor, Generic, CertLayer, Layered, WithRootUrl, AppRootUrl, IsRoot;
    var certs, base := CertLayer("grafana", cert, base64), GrafanaTable(d);
    RootExistsIff(d.redirectUris);
    RootKeyIsNew(d, cert, base64);
    RootUrlLayer(certs, overrides, base, d, render);
  }

  lemma RootUrlLayer(certs: Data, overrides: Data, base: Data, d: OidcData, render: Render)
    requires ROOT_URL_KEY !in certs && ROOT_URL_KEY !in overrides && ROOT_URL_KEY !in base
    requires ROOT_URL_KEY != INTERNAL_KEY
    ensures var data := Layered(certs, overrides, WithRootUrl(base, d.redirectUris), d, render);
            && (ROOT_URL_KEY in data <==> AppRootUrl(d.redirectUris) != "")
            && (ROOT_URL_KEY in data ==> data[ROOT_URL_KEY] == AppRootUrl(d.redirectUris))
  {
  }

  // ---------------------------------------------------------------- the documented mapping

  /** Where the value of a documented key comes from. */
  datatype Source =
    | ClientId | ClientSecret | AuthorizeUrl | TokenUrl | UserinfoUrl | IssuerUrl | LogoutUrl | Scopes
    | Static(text: string)

  function SourceValue(d: OidcData, source: Source): string {
    match source
    case ClientId => d.clientId
    case ClientSecret => d.clientSecret
    case AuthorizeUrl => d.authorizeUrl
    case TokenUrl => d.tokenUrl
    case UserinfoUrl => d.userinfoUrl
    case IssuerUrl => d.issuerUrl
    case LogoutUrl => d.logoutUrl
    case Scopes => d.scopes
    case Static(text) => text
  }

  function DocumentedGrafana(): map<string, Source> {
    map["GF_AUTH_GENERIC_OAUTH_ENABLED" := Static("true"),
        "GF_AUTH_GENERIC_OAUTH_NAME" := Static("authentik"),
        "GF_AUTH_GENERIC_OAUTH_CLIENT_ID" := ClientId,
        "GF_AUTH_GENERIC_OAUTH_CLIENT_SECRET" := ClientSecret,
        "GF_AUTH_GENERIC_OAUTH_AUTH_URL" := AuthorizeUrl,
        "GF_AUTH_GENERIC_OAUTH_TOKEN_URL" := TokenUrl,
        "GF_AUTH_GENERIC_OAUTH_API_URL" := UserinfoUrl,
        "GF_AUTH_GENERIC_OAUTH_SCOPES" := Scopes,
        "GF_AUTH_SIGNOUT_REDIRECT_URL" := LogoutUrl,
        "GF_AUTH_OAUTH_AUTO_LOGIN" := Static("true"),
        "GF_AUTH_GENERIC_OAUTH_ALLOW_ASSIGN_GRAFANA_ADMIN" := Static("true"),
        "GF_AUTH_GENERIC_OAUTH_ALLOW_SIGN_UP" := Static("true"),
        "GF_AUTH_GENERIC_OAUTH_EMAIL_ATTRIBUTE_PATH" := Static("email"),
        "GF_AUTH_GENERIC_OAUTH_NAME_ATTRIBUTE_PATH" := Static("name"),
        "GF_AUTH_GENERIC_OAUTH_LOGIN_ATTRIBUTE_PATH" := Static("preferred_username"),
        "GF_AUTH_GENERIC_OAUTH_USE_PKCE" := Static("true")]
  }

  /**
   The documented tables, profile by profile.  Harbor's is the one that its unit test promises,
   and any other name means generic.
   */
  function Documented(profile: string): map<string, Source> {
    if profile == "grafana" then DocumentedGrafana()
    else if profile == "openwebui" then
      map["ENABLE_OAUTH_SIGNUP" := Static("true"),
          "OAUTH_PROVIDER_NAME" := Static("authentik"),
          "OAUTH_CLIENT_ID" := ClientId,
          "OAUTH_CLIENT_SECRET" := ClientSecret,
          "OPENID_PROVIDER_URL" := IssuerUrl,
          "OAUTH_SCOPES" := Scopes]
    else if profile == "argocd" then
      map["dex.authentik.clientSecret" := ClientSecret,
          "clientId" := ClientId,
          "issuerUrl" := IssuerUrl]
    else if profile == "ragflow" then
      map["client_id" := ClientId,
          "client_secret" := ClientSecret,
          "issuer" := IssuerUrl,
          "scope" := Scopes,
          REDIRECT_PATH_KEY := Static("/v1/user/oauth/callback/authentik")]
    else if profile == "harbor" then
      map["client_id" := ClientId,
          "client_secret" := ClientSecret,
          "issuer" := IssuerUrl,
          "scopes" := Scopes,
          "authorize_url" := AuthorizeUrl,
          "token_url" := TokenUrl,
          "userinfo_url" := UserinfoUrl]
    else
      map["clientId" := ClientId,
          "clientSecret" := ClientSecret,
          "authorizeUrl" := AuthorizeUrl,
          "tokenUrl" := TokenUrl,
          "userinfoUrl" := UserinfoUrl,
          "issuerUrl" := IssuerUrl,
          "scopes" := Scopes]
  }

  const REDIRECT_PATH_KEY := "redirect_uri_path"

  /** A documented key that no code produces. */
  predicate NeverProduced(profile: string, k: string) {
    profile == "ragflow" && k == REDIRECT_PATH_KEY
  }

  /** What stands under a documented key; Grafana's API URL loses its trailing slash. */
  function ActualValue(profile: string, d: OidcData, source: Source): string {
    if profile == "grafana" && source.UserinfoUrl? then TrimRight(d.userinfoUrl, '/') else SourceValue(d, source)
  }

  lemma GrafanaMeets(d: OidcData, k: string)
    requires k in DocumentedGrafana()
    ensures k in GrafanaTable(d) && GrafanaTable(d)[k] == ActualValue("grafana", d, DocumentedGrafana()[k])
  {
    hide TrimRight;
  }

  lemma GrafanaIsDocumented()
    ensures Documented("grafana") == DocumentedGrafana()
  {
    hide DocumentedGrafana;
  }

  lemma GrafanaRootIsExtra(k: string)
    requires k in DocumentedGrafana()
    ensures k != ROOT_URL_KEY
  {
    assert ROOT_URL_KEY[3] == 'S';
  }

  lemma RagFlowMeets(d: OidcData, overrides: Data, k: string)
    requires k in Documented("ragflow") && k != REDIRECT_PATH_KEY
    ensures k in RagFlow(d, overrides)
    ensures RagFlow(d, overrides)[k] == SourceValue(d, Documented("ragflow")[k])
  {
    hide ServiceConf;
  }

  lemma OthersMeet(profile: string, d: OidcData, overrides: Data, k: string)
    requires profile != "grafana" && profile != "ragflow" && k in Documented(profile)
    ensures k in Table(profile, d, overrides)
    ensures Table(profile, d, overrides)[k] == SourceValue(d, Documented(profile)[k])
  {
    hide GrafanaTable, RagFlow;
  }

  lemma TableMeets(profile: string, d: OidcData, overrides: Data, k: string)
    requires k in Documented(profile) && !NeverProduced(profile, k)
    ensures k in Table(profile, d, overrides)
    ensures Table(profile, d, overrides)[k] == ActualValue(profile, d, Documented(profile)[k])
  {
    hide GrafanaTable, OpenWebUi, ArgoCd, RagFlow, Harbor, Generic, Documented, DocumentedGrafana;
    if profile == "grafana" {
      GrafanaIsDocumented();
      GrafanaMeets(d, k);
      GrafanaRootIsExtra(k);
    } else if profile == "ragflow" {
      RagFlowMeets(d, overrides, k);
    } else {
      OthersMeet(profile, d, overrides, k);
    }
  }

  /** Ragflow's documented redirect path is in the secret only if an override puts it there. */
  lemma {:induction false} RedirectPathIff(
      d: OidcData, overrides: Data, cert: Option<SigningCert>, render: Render, base64: string -> string)
    ensures REDIRECT_PATH_KEY in SecretData("ragflow", d, overrides, cert, render, base64)
       <==> REDIRECT_PATH_KEY in overrides
  {
    hide CertLayer, RagFlow, GrafanaTable, OpenWebUi, ArgoCd, Harbor, Generic;
    RedirectPathIsNoTableKey(d, overrides);
    assert REDIRECT_PATH_KEY[1] == 'e';
    assert |REDIRECT_PATH_KEY| == 17 && |INTERNAL_KEY| == 12;
    if REDIRECT_PATH_KEY in CertLayer("ragflow", cert, base64) {
      CertKeys("ragflow", cert, base64, REDIRECT_PATH_KEY);
    }
  }

  lemma RedirectPathIsNoTableKey(d: OidcData, overrides: Data)
    ensures REDIRECT_PATH_KEY !in RagFlow(d, overrides)
  {
    hide ServiceConf;
    assert |REDIRECT_PATH_KEY| == 17;
  }

  lemma DocumentedIsNotInternal(profile: string, k: string)
    requires k in Documented(profile)
    ensures k != INTERNAL_KEY
  {
    assert INTERNAL_KEY[0] == 'r';
  }

  /** A table's own entry reaches the secret unless it is overridden or internal. */
  lemma {:induction false} TableEntryReachesSecret(
      profile: string, d: OidcData, overrides: Data, cert: Option<SigningCert>, render: Render,
      base64: string -> string, k: string)
    requires k in Table(profile, d, overrides) && k !in overrides && k != INTERNAL_KEY
    ensures var data := SecretData(profile, d, overrides, cert, render, base64);
            k in data && data[k] == Table(profile, d, overrides)[k]
  {
    hide Table, CertLayer;
    if k in CertLayer(profile, cert, base64) {
      CertKeysAreNotInTables(profile, d, overrides, cert, base64, k);
    }
  }

  /**
   Every documented key that is not overridden is in the secret with its documented value,
   whatever certificate there is, with two exceptions: Grafana's API URL, if the userinfo URL
   ends in a slash, and ragflow's redirect path, which is not there at all.
   */
  lemma {:induction false} DocumentedKeysReachSecretIff(
      profile: string, d: OidcData, overrides: Data, cert: Option<SigningCert>, render: Render,
      base64: string -> string, k: string)
    requires k in Documented(profile) && k !in overrides
    ensures var data, source := SecretData(profile, d, overrides, cert, render, base64), Documented(profile)[k];
            && (k in data <==> !NeverProduced(profile, k))
            && (k in data && data[k] == SourceValue(d, source) <==>
                  !NeverProduced(profile, k) && !(profile == "grafana" && source.UserinfoUrl?
                      && EndsInSlash(d.userinfoUrl)))
  {
    hide Table, CertLayer, Documented, SecretData, INTERNAL_KEY;
    if NeverProduced(profile, k) {
      RedirectPathIff(d, overrides, cert, render, base64);
    } else {
      TableMeets(profile, d, overrides, k);
      DocumentedIsNotInternal(profile, k);
      TableEntryReachesSecret(profile, d, overrides, cert, render, base64, k);
      var u := d.userinfoUrl;
      if EndsInSlash(u) {
        assert TrimRight(u, '/') != u;
      } else {
        assert TrimRight(u, '/') == u;
      }
    }
  }

  predicate EndsInSlash(s: string) {
    s != "" && s[|s| - 1] == '/'
  }

  /** Every built userinfo URL does, so Grafana's API URL never is the documented one. */
  lemma {:induction false} BuiltUserinfoEndsInSlash(
      baseUrl: string, slug: string, clientId: string, clientSecret: string, redirectUris: seq<string>)
    ensures var d := BuildOidcData(baseUrl, slug, clientId, clientSecret, redirectUris);
            EndsInSlash(d.userinfoUrl) && TrimRight(d.userinfoUrl, '/') != d.userinfoUrl
  {
  }

  /** Grafana's API URL is the userinfo URL without its trailing slashes. */
  lemma {:induction false} GrafanaApiUrlIsStripped(
      d: OidcData, overrides: Data, cert: Option<SigningCert>, render: Render, base64: string -> string)
    requires "GF_AUTH_GENERIC_OAUTH_API_URL" !in overrides
    ensures var data := SecretData("grafana", d, overrides, cert, render, base64);
            && "GF_AUTH_GENERIC_OAUTH_API_URL" in data
            && var url := data["GF_AUTH_GENERIC_OAUTH_API_URL"];
            && url <= d.userinfoUrl && !EndsInSlash(url)
            && (forall i :: |url| <= i < |d.userinfoUrl| ==> d.userinfoUrl[i] == '/')
  {
    hide Table, CertLayer, SecretData, INTERNAL_KEY;
    var k := "GF_AUTH_GENERIC_OAUTH_API_URL";
    ApiUrlIsDocumented();
    TableMeets("grafana", d, overrides, k);
    DocumentedIsNotInternal("grafana", k);
    TableEntryReachesSecret("grafana", d, overrides, cert, render, base64, k);
  }

  lemma ApiUrlIsDocumented()
    ensures var k := "GF_AUTH_GENERIC_OAUTH_API_URL";
            k in Documented("grafana") && Documented("grafana")[k] == UserinfoUrl
  {
  }

  /** The keys of the client id and the client secret. */
  function CredentialKeys(profile: string): (string, string) {
    if profile == "grafana" then ("GF_AUTH_GENERIC_OAUTH_CLIENT_ID", "GF_AUTH_GENERIC_OAUTH_CLIENT_SECRET")
    else if profile == "openwebui" then ("OAUTH_CLIENT_ID", "OAUTH_CLIENT_SECRET")
    else if profile == "argocd" then ("clientId", "dex.authentik.clientSecret")
    else if profile == "ragflow" || profile == "harbor" then ("client_id", "client_secret")
    else ("clientId", "clientSecret")
  }

  lemma CredentialKeysAreNotInternal(profile: string)
    ensures CredentialKeys(profile).0 != INTERNAL_KEY && CredentialKeys(profile).1 != INTERNAL_KEY
  {
    assert INTERNAL_KEY[0] == 'r';
  }

  lemma GrafanaCredentials(d: OidcData)
    ensures var (id, secret) := CredentialKeys("grafana");
            && id in GrafanaTable(d) && GrafanaTable(d)[id] == d.clientId && id != ROOT_URL_KEY
            && secret in GrafanaTable(d) && GrafanaTable(d)[secret] == d.clientSecret && secret != ROOT_URL_KEY
  {
    assert ROOT_URL_KEY[3] == 'S';
  }

  lemma CredentialsInTable(profile: string, d: OidcData, overrides: Data)
    ensures var (id, secret) := CredentialKeys(profile);
            var table := Table(profile, d, overrides);
            && id in table && table[id] == d.clientId
            && secret in table && table[secret] == d.clientSecret
  {
    hide ServiceConf, AppRootUrl, GrafanaTable;
    if profile == "grafana" {
      hide CredentialKeys;
      GrafanaCredentials(d);
    }
  }

  /** Not overridden, the provider's credentials are in the secret, so a rotation always changes it. */
  lemma {:induction false} CredentialsReachSecret(
      profile: string, d: OidcData, overrides: Data, cert: Option<SigningCert>, render: Render,
      base64: string -> string)
    requires CredentialKeys(profile).0 !in overrides && CredentialKeys(profile).1 !in overrides
    ensures var (id, secret) := CredentialKeys(profile);
            var data := SecretData(profile, d, overrides, cert, render, base64);
            && id in data && data[id] == d.clientId
            && secret in data && data[secret] == d.clientSecret
  {
    hide Table, CertLayer, SecretData, CredentialKeys;
    CredentialsInTable(profile, d, overrides);
    CredentialKeysAreNotInternal(profile);
    TableEntryReachesSecret(profile, d, overrides, cert, render, base64, CredentialKeys(profile).0);
    TableEntryReachesSecret(profile, d, overrides, cert, render, base64, CredentialKeys(profile).1);
  }

  // ---------------------------------------------------------------- certificate and overrides

  /** The keys that a certificate sets, whatever the overrides say. */
  function CertificateKeys(profile: string): (string, string) {
    if profile == "argocd" then ("caData", "caFingerprint") else ("saml.crt", "saml.fingerprint")
  }

  /** With a certificate: its PEM, in base64 for Argo CD, and its fingerprint, each under its own key. */
  lemma {:induction false} CertificateReachesSecret(
      profile: string, d: OidcData, overrides: Data, cert: SigningCert, render: Render, base64: string -> string)
    ensures var data := SecretData(profile, d, overrides, Some(cert), render, base64);
            if profile == "argocd" then
              && "caData" in data && data["caData"] == base64(cert.certificatePem)
              && "caFingerprint" in data && data["caFingerprint"] == cert.fingerprintSha256
            else
              && "saml.crt" in data && data["saml.crt"] == cert.certificatePem
              && "saml.fingerprint" in data && data["saml.fingerprint"] == cert.fingerprintSha256
  {
    hide Table, CertLayer;
    WrittenCertificate(profile, cert, base64);
  }

  lemma WrittenCertificate(profile: string, cert: SigningCert, base64: string -> string)
    ensures var certs := CertLayer(profile, Some(cert), base64);
            if profile == "argocd" then
              && "caData" in certs && certs["caData"] == base64(cert.certificatePem)
              && "caFingerprint" in certs && certs["caFingerprint"] == cert.fingerprintSha256
            else
              && "saml.crt" in certs && certs["saml.crt"] == cert.certificatePem
              && "saml.fingerprint" in certs && certs["saml.fingerprint"] == cert.fingerprintSha256
  {
  }

  /** Without one, its keys are there only if the overrides set them. */
  lemma {:induction false} CertificateKeysNeedCertificate(
      profile: string, d: OidcData, overrides: Data, render: Render, base64: string -> string, k: string)
    requires k in {CertificateKeys(profile).0, CertificateKeys(profile).1}
    ensures k in SecretData(profile, d, overrides, None, render, base64) <==> k in overrides
  {
    hide Table;
    var any := SigningCert("", "");
    CertKeysAreNotInTables(profile, d, overrides, Some(any), base64, k);
  }

  /**
   An override replaces whatever the table has, or adds to it: as written, unless it holds "{{" and
   renders as a template.  Only a certificate stands above it.
   */
  lemma {:induction false} OverridesReachSecret(
      profile: string, d: OidcData, overrides: Data, cert: Option<SigningCert>, render: Render,
      base64: string -> string, k: string)
    requires k in overrides && k != "redirect_uri"
    requires cert.Some? ==> k !in {CertificateKeys(profile).0, CertificateKeys(profile).1}
    ensures var data, v := SecretData(profile, d, overrides, cert, render, base64), overrides[k];
            && k in data
            && data[k] == if Contains(v, "{{") && render(v, d).Some? then render(v, d).value else v
  {
    hide Table;
    assert Index(overrides[k], "{{") >= 0 ==> OccursAt(overrides[k], "{{", Index(overrides[k], "{{"));
  }

  // ---------------------------------------------------------------- reading ragflow's file back

  /** Stands for itself between double quotes on one line (section 7.3.1 of YAML 1.2.2). */
  predicate PlainChar(c: char) {
    c != '\"' && c != '\\' && c != '\n' && c != '\r'
  }

  predicate Plain(v: string) {
    forall c | c in v :: PlainChar(c)
  }

  /** The number of leading characters that stand for themselves. */
  function PlainPrefix(t: string): (n: nat)
    ensures n <= |t| && Plain(t[..n]) && (n < |t| ==> !PlainChar(t[n]))
  {
    if t != "" && PlainChar(t[0]) then
      var n := 1 + PlainPrefix(t[1..]);
      assert t[..n] == [t[0]] + t[1..][..n - 1];
      n
    else 0
  }

  /** Reads `    key: "value"` and its line end; None when the line has another form. */
  function ReadScalar(key: string, s: string): Option<(string, string)> {
    var opening := "    " + key + ": \"";
    if !(opening <= s) then None
    else
      var t := s[|opening|..];
      var n := PlainPrefix(t);
      if n + 1 < |t| && t[n] == '\"' && t[n + 1] == '\n' then Some((t[..n], t[n + 2..])) else None
  }

  lemma {:induction false} PlainPrefixStops(v: string, c: char, tail: string)
    requires !PlainChar(c)
    ensures var n := PlainPrefix(v + [c] + tail);
            if Plain(v) then n == |v| else n < |v|
  {
    if v == "" {
      assert (v + [c] + tail)[0] == c;
    } else {
      PlainPrefixStops(v[1..], c, tail);
      assert (v + [c] + tail)[1..] == v[1..] + [c] + tail;
      assert v == [v[0]] + v[1..];
    }
  }

  lemma {:induction false} ScalarReadsBackIff(key: string, v: string, rest: string)
    ensures ReadScalar(key, Scalar(key, v) + rest) == Some((v, rest)) <==> Plain(v)
  {
    var opening := "    " + key + ": \"";
    var s := Scalar(key, v) + rest;
    assert s == opening + (v + "\"\n" + rest);
    var t := v + ['\"'] + (['\n'] + rest);
    assert s[|opening|..] == t;
    PlainPrefixStops(v, '\"', ['\n'] + rest);
    assert t[..|v|] == v && t[|v| + 2..] == rest;
  }

  function PrintScalars(keys: seq<string>, values: seq<string>): string
    requires |keys| == |values|
  {
    if keys == [] then "" else Scalar(keys[0], values[0]) + PrintScalars(keys[1..], values[1..])
  }

  function ReadScalars(keys: seq<string>, s: string): Option<seq<string>> {
    if keys == [] then Some([])
    else
      var head := ReadScalar(keys[0], s);
      if head.None? then None
      else
        var tail := ReadScalars(keys[1..], head.value.1);
        if tail.None? then None else Some([head.value.0] + tail.value)
  }

  lemma {:induction false} ScalarsReadBackIff(keys: seq<string>, values: seq<string>)
    requires |keys| == |values|
    ensures ReadScalars(keys, PrintScalars(keys, values)) == Some(values) <==> forall v | v in values :: Plain(v)
  {
    hide Scalar, Plain, ReadScalar;
    if keys == [] {
      assert values == [];
    } else {
      var text, rest := PrintScalars(keys, values), PrintScalars(keys[1..], values[1..]);
      ScalarReadsBackIff(keys[0], values[0], rest);
      ScalarsReadBackIff(keys[1..], values[1..]);
      assert values == [values[0]] + values[1..];
      var head := ReadScalar(keys[0], text);
      if head.Some? {
        ReadValueIsPlain(keys[0], text);
        var tail := ReadScalars(keys[1..], head.value.1);
        if tail.Some? {
          assert ([head.value.0] + tail.value)[0] == head.value.0;
          assert ([head.value.0] + tail.value)[1..] == tail.value;
        }
      }
      assert ReadScalars(keys, text) == Some(values) ==> Plain(values[0]);
    }
  }

  lemma ReadValueIsPlain(key: string, s: string)
    requires ReadScalar(key, s).Some?
    ensures Plain(ReadScalar(key, s).value.0)
  {
  }

  const CONF_KEYS := ["client_id", "client_secret", "issuer", "scope", "redirect_uri"]

  function ReadConf(s: string): Option<seq<string>> {
    if CONF_HEAD <= s then ReadScalars(CONF_KEYS, s[|CONF_HEAD|..]) else None
  }

  function ConfValues(d: OidcData, redirectUri: string): seq<string> {
    [d.clientId, d.clientSecret, d.issuerUrl, d.scopes, redirectUri]
  }

  lemma PrintScalarsFive(ks: seq<string>, a: string, b: string, c: string, d: string, e: string)
    requires |ks| == 5
    ensures PrintScalars(ks, [a, b, c, d, e])
         == Scalar(ks[0], a) + Scalar(ks[1], b) + Scalar(ks[2], c) + Scalar(ks[3], d) + Scalar(ks[4], e)
  {
    hide Scalar;
    var l := [Scalar(ks[0], a), Scalar(ks[1], b), Scalar(ks[2], c), Scalar(ks[3], d), Scalar(ks[4], e)];
    assert [a, b, c, d, e][1..] == [b, c, d, e];
    assert [b, c, d, e][1..] == [c, d, e];
    assert [c, d, e][1..] == [d, e];
    assert [d, e][1..] == [e];
    assert PrintScalars(ks[4..], [e]) == l[4] + "";
    assert ks[3..][1..] == ks[4..];
    assert PrintScalars(ks[3..], [d, e]) == l[3] + l[4];
    assert ks[2..][1..] == ks[3..];
    assert PrintScalars(ks[2..], [c, d, e]) == l[2] + (l[3] + l[4]);
    assert ks[1..][1..] == ks[2..];
    assert PrintScalars(ks[1..], [b, c, d, e]) == l[1] + (l[2] + (l[3] + l[4]));
  }

  lemma ConfIsScalars(d: OidcData, redirectUri: string)
    ensures ServiceConf(d, redirectUri) == CONF_HEAD + PrintScalars(CONF_KEYS, ConfValues(d, redirectUri))
  {
    hide Scalar, PrintScalars;
    PrintScalarsFive(CONF_KEYS, d.clientId, d.clientSecret, d.issuerUrl, d.scopes, redirectUri);
  }

  /** Reading the file back gives the five values exactly when each of them is plain. */
  lemma {:induction false} ConfReadsBackIff(d: OidcData, redirectUri: string)
    ensures ReadConf(ServiceConf(d, redirectUri)) == Some(ConfValues(d, redirectUri))
       <==> forall v | v in ConfValues(d, redirectUri) :: Plain(v)
  {
    ConfIsScalars(d, redirectUri);
    var body := PrintScalars(CONF_KEYS, ConfValues(d, redirectUri));
    assert (CONF_HEAD + body)[|CONF_HEAD|..] == body;
    ScalarsReadBackIff(CONF_KEYS, ConfValues(d, redirectUri));
  }

  /** Different plain inputs give different files. */
  lemma {:induction false} ConfIsInjective(d1: OidcData, r1: string, d2: OidcData, r2: string)
    requires forall v | v in ConfValues(d1, r1) + ConfValues(d2, r2) :: Plain(v)
    requires ServiceConf(d1, r1) == ServiceConf(d2, r2)
    ensures ConfValues(d1, r1) == ConfValues(d2, r2)
  {
    ConfReadsBackIff(d1, r1);
    ConfReadsBackIff(d2, r2);
  }

  /** How the file begins, line by line. */
  function ConfHead(): string {
    "oauth:\n" + "  oidc:\n" + "    type: oidc\n" + "    icon: sso\n"
    + "    display_name: \"Login with Authentik\"\n"
  }

  lemma FileBegins(d: OidcData, redirectUri: string)
    ensures ConfHead() <= ServiceConf(d, redirectUri)
  {
    hide Scalar;
    HeadRows();
    assert ServiceConf(d, redirectUri)[..|CONF_HEAD|] == CONF_HEAD;
  }

  lemma HeadRows()
    ensures CONF_HEAD == ConfHead()
  {
  }

  lemma FileKey(d: OidcData, overrides: Data)
    ensures var redirectUri := if INTERNAL_KEY in overrides then overrides[INTERNAL_KEY] else "";
            && "service_conf_yaml" in RagFlow(d, overrides)
            && RagFlow(d, overrides)["service_conf_yaml"] == ServiceConf(d, redirectUri)
    ensures "service_conf_yaml" != INTERNAL_KEY
  {
    hide ServiceConf;
    assert INTERNAL_KEY[0] == 'r';
  }

  /** The file in ragflow's secret reads back as the provider's values and the redirect override, as written. */
  lemma {:induction false} FileReachesSecretIff(
      d: OidcData, overrides: Data, cert: Option<SigningCert>, render: Render, base64: string -> string)
    requires "service_conf_yaml" !in overrides
    ensures var data := SecretData("ragflow", d, overrides, cert, render, base64);
            var redirectUri := if "redirect_uri" in overrides then overrides["redirect_uri"] else "";
            var values := [d.clientId, d.clientSecret, d.issuerUrl, d.scopes, redirectUri];
            && "service_conf_yaml" in data
            && ConfHead() <= data["service_conf_yaml"]
            && (ReadConf(data["service_conf_yaml"]) == Some(values) <==> forall v | v in values :: Plain(v))
  {
    hide CertLayer, SecretData, ServiceConf, RagFlow, GrafanaTable, OpenWebUi, ArgoCd, Harbor, Generic;
    hide ReadConf, Plain, ConfHead;
    FileKey(d, overrides);
    TableEntryReachesSecret("ragflow", d, overrides, cert, render, base64, "service_conf_yaml");
    ConfReadsBackIff(d, if INTERNAL_KEY in overrides then overrides[INTERNAL_KEY] else "");
    FileBegins(d, if INTERNAL_KEY in overrides then overrides[INTERNAL_KEY] else "");
  }

  // ---------------------------------------------------------------- the file and the hash

  lemma IndentedConcat(a: string, b: string)
    requires CanonicalHash.Indented(a) && CanonicalHash.Indented(b)
    requires b == "" || b[0] == ' '
    ensures CanonicalHash.Indented(a + b)
  {
  }

  lemma ScalarIsIndented(key: string, v: string)
    requires CanonicalHash.SingleLine(v) && CanonicalHash.SingleLine(key)
    ensures CanonicalHash.Indented(Scalar(key, v)) && Scalar(key, v)[0] == ' '
  {
    var s := Scalar(key, v);
    forall i | 0 <= i < |s| - 1 ensures s[i] != '\n' {
      assert i >= |s| - 2 || s[i] == ("    " + key + ": \"" + v)[i];
      assert s[i] in "    : \"" || s[i] in key || s[i] in v;
    }
  }

  /** With single-line values, ragflow's file has only indented lines after its first. */
  lemma {:induction false} ConfIsIndented(d: OidcData, redirectUri: string)
    requires forall v | v in ConfValues(d, redirectUri) :: CanonicalHash.SingleLine(v)
    ensures CanonicalHash.Indented(ServiceConf(d, redirectUri))
  {
    hide Scalar, CanonicalHash.SingleLine, CanonicalHash.Indented;
    var vs := ConfValues(d, redirectUri);
    assert vs[0] in vs && vs[1] in vs && vs[2] in vs && vs[3] in vs && vs[4] in vs;
    HeadIsIndented();
    ConfKeysAreSingleLine();
    var ks := CONF_KEYS;
    assert ks[0] in ks && ks[1] in ks && ks[2] in ks && ks[3] in ks && ks[4] in ks;
    ScalarIsIndented("client_id", d.clientId);
    var a := CONF_HEAD + Scalar("client_id", d.clientId);
    IndentedConcat(CONF_HEAD, Scalar("client_id", d.clientId));
    ScalarIsIndented("client_secret", d.clientSecret);
    var b := a + Scalar("client_secret", d.clientSecret);
    IndentedConcat(a, Scalar("client_secret", d.clientSecret));
    ScalarIsIndented("issuer", d.issuerUrl);
    var c := b + Scalar("issuer", d.issuerUrl);
    IndentedConcat(b, Scalar("issuer", d.issuerUrl));
    ScalarIsIndented("scope", d.scopes);
    var e := c + Scalar("scope", d.scopes);
    IndentedConcat(c, Scalar("scope", d.scopes));
    ScalarIsIndented("redirect_uri", redirectUri);
    IndentedConcat(e, Scalar("redirect_uri", redirectUri));
  }

  lemma RowIsIndented(text: string)
    requires '\n' !in text
    ensures CanonicalHash.Indented(Row(text))
  {
    forall i | 0 <= i < |Row(text)| - 1 ensures Row(text)[i] != '\n' {
      assert Row(text)[i] == text[i] && text[i] in text;
    }
  }

  lemma HeadIsIndented()
    ensures CanonicalHash.Indented(CONF_HEAD)
  {
    hide CanonicalHash.Indented;
    RowIsIndented("oauth:");
    RowIsIndented("  oidc:");
    RowIsIndented("    type: oidc");
    RowIsIndented("    icon: sso");
    RowIsIndented("    display_name: \"Login with Authentik\"");
    var a := Row("oauth:") + Row("  oidc:");
    IndentedConcat(Row("oauth:"), Row("  oidc:"));
    var b := a + Row("    type: oidc");
    IndentedConcat(a, Row("    type: oidc"));
    var c := b + Row("    icon: sso");
    IndentedConcat(b, Row("    icon: sso"));
    IndentedConcat(c, Row("    display_name: \"Login with Authentik\""));
  }

  lemma ConfKeysAreSingleLine()
    ensures forall k | k in CONF_KEYS :: CanonicalHash.SingleLine(k)
  {
  }
}
