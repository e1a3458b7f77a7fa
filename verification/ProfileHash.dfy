/** The data that profiles build, for whatever inputs, can be told apart by the hash. */
module ProfileHash {
  import opened Wrappers
  import opened Text
  import opened OidcValues
  import opened Profiles
  import opened CanonicalHash
  import GrafanaKeys

  // ---------------------------------------------------------------- inputs

  /** No value has a line break; of the redirect URIs only the first is ever used. */
  predicate SingleLines(d: OidcData) {
    && SingleLine(d.clientId) && SingleLine(d.clientSecret) && SingleLine(d.scopes)
    && SingleLine(d.authorizeUrl) && SingleLine(d.tokenUrl) && SingleLine(d.userinfoUrl)
    && SingleLine(d.issuerUrl) && SingleLine(d.logoutUrl)
    && (d.redirectUris != [] ==> SingleLine(d.redirectUris[0]))
  }

  /** Override keys are plain; their values, as written and resolved, have no line break. */
  predicate TidyOverrides(overrides: Data, d: OidcData, render: Render) {
    forall k | k in overrides ::
      PlainKey(k) && SingleLine(overrides[k]) && SingleLine(Resolved(overrides[k], d, render))
  }

  predicate TidyInputs(d: OidcData, overrides: Data, render: Render) {
    SingleLines(d) && TidyOverrides(overrides, d, render)
  }

  /** No line of what the certificate writes starts like an entry of `other`. */
  ghost predicate CertHidesNoEntry(profile: string, cert: Option<SigningCert>, base64: string -> string, other: Data) {
    var certs := CertLayer(profile, cert, base64);
    forall k | k in certs :: HidesNoEntry(certs[k], other)
  }

  // ---------------------------------------------------------------- tables

  ghost predicate TidyTable(table: Data) {
    forall k | k in table :: PlainKey(k) && Indented(table[k])
  }

  lemma SingleLineIsIndented(v: string)
    requires SingleLine(v)
    ensures Indented(v)
  {
  }

  /** One more entry. */
  lemma Put(table: Data, k: string, v: string) returns (r: Data)
    requires TidyTable(table) && PlainKey(k) && SingleLine(v)
    ensures r == table[k := v] && TidyTable(r)
  {
    r := table[k := v];
  }

  lemma GrafanaIsTidy(d: OidcData)
    requires SingleLines(d)
    ensures TidyTable(GrafanaTable(d))
  {
    hide TidyTable, TrimRight, PlainKey, SingleLine;
    GrafanaKeys.OAuthSwitches();
    GrafanaKeys.OAuthClient();
    GrafanaKeys.OAuthEndpoints();
    GrafanaKeys.OAuthScope();
    GrafanaKeys.SignOut();
    GrafanaKeys.SignUp();
    GrafanaKeys.LongKeys1();
    GrafanaKeys.LongKeys2();
    GrafanaKeys.LongKeys3();
    WordsAreSingleLine(d);
    var t: Data := NoEntries();
    t := Put(t, "GF_AUTH_GENERIC_OAUTH_ENABLED", "true");
    t := Put(t, "GF_AUTH_GENERIC_OAUTH_NAME", "authentik");
    t := Put(t, "GF_AUTH_GENERIC_OAUTH_CLIENT_ID", d.clientId);
    t := Put(t, "GF_AUTH_GENERIC_OAUTH_CLIENT_SECRET", d.clientSecret);
    t := Put(t, "GF_AUTH_GENERIC_OAUTH_AUTH_URL", d.authorizeUrl);
    t := Put(t, "GF_AUTH_GENERIC_OAUTH_TOKEN_URL", d.tokenUrl);
    t := Put(t, "GF_AUTH_GENERIC_OAUTH_API_URL", TrimRight(d.userinfoUrl, '/'));
    t := Put(t, "GF_AUTH_GENERIC_OAUTH_SCOPES", d.scopes);
    t := Put(t, "GF_AUTH_SIGNOUT_REDIRECT_URL", d.logoutUrl);
    t := Put(t, "GF_AUTH_OAUTH_AUTO_LOGIN", "true");
    t := Put(t, "GF_AUTH_GENERIC_OAUTH_ALLOW_ASSIGN_GRAFANA_ADMIN", "true");
    t := Put(t, "GF_AUTH_GENERIC_OAUTH_ALLOW_SIGN_UP", "true");
    t := Put(t, "GF_AUTH_GENERIC_OAUTH_EMAIL_ATTRIBUTE_PATH", "email");
    t := Put(t, "GF_AUTH_GENERIC_OAUTH_NAME_ATTRIBUTE_PATH", "name");
    t := Put(t, "GF_AUTH_GENERIC_OAUTH_LOGIN_ATTRIBUTE_PATH", "preferred_username");
    t := Put(t, "GF_AUTH_GENERIC_OAUTH_USE_PKCE", "true");
  }

  lemma WordsAreSingleLine(d: OidcData)
    requires SingleLine(d.userinfoUrl)
    ensures SingleLine("authentik") && SingleLine("email") && SingleLine("name")
        && SingleLine("preferred_username") && SingleLine("true")
    ensures SingleLine(TrimRight(d.userinfoUrl, '/'))
  {
  }

  lemma NoEntries() returns (r: Data)
    ensures r == map[] && TidyTable(r)
  {
    r := map[];
  }

  lemma RootUrlIsTidy(table: Data, redirectUris: seq<string>)
    requires TidyTable(table) && (redirectUris != [] ==> SingleLine(redirectUris[0]))
    ensures TidyTable(WithRootUrl(table, redirectUris))
  {
  }

  lemma OpenWebUiIsTidy(d: OidcData)
    requires SingleLines(d)
    ensures TidyTable(OpenWebUi(d))
  {
    hide TidyTable;
    var t: Data := NoEntries();
    t := Put(t, "ENABLE_OAUTH_SIGNUP", "true");
    t := Put(t, "OAUTH_PROVIDER_NAME", "authentik");
    t := Put(t, "OAUTH_CLIENT_ID", d.clientId);
    t := Put(t, "OAUTH_CLIENT_SECRET", d.clientSecret);
    t := Put(t, "OPENID_PROVIDER_URL", d.issuerUrl);
    t := Put(t, "OAUTH_SCOPES", d.scopes);
  }

  lemma ArgoCdIsTidy(d: OidcData)
    requires SingleLines(d)
    ensures TidyTable(ArgoCd(d))
  {
  }

  lemma RagFlowIsTidy(d: OidcData, overrides: Data)
    requires SingleLines(d) && (INTERNAL_KEY in overrides ==> SingleLine(overrides[INTERNAL_KEY]))
    ensures TidyTable(RagFlow(d, overrides))
  {
    hide ServiceConf;
    ConfIsIndented(d, if INTERNAL_KEY in overrides then overrides[INTERNAL_KEY] else "");
  }

  lemma HarborIsTidy(d: OidcData)
    requires SingleLines(d)
    ensures TidyTable(Harbor(d))
  {
  }

  lemma GenericIsTidy(d: OidcData)
    requires SingleLines(d)
    ensures TidyTable(Generic(d))
  {
  }

  lemma TableIsTidy(profile: string, d: OidcData, overrides: Data)
    requires SingleLines(d) && (INTERNAL_KEY in overrides ==> SingleLine(overrides[INTERNAL_KEY]))
    ensures TidyTable(Table(profile, d, overrides))
  {
    hide GrafanaTable, OpenWebUi, ArgoCd, RagFlow, Harbor, Generic, WithRootUrl, TidyTable;
    GrafanaIsTidy(d);
    RootUrlIsTidy(GrafanaTable(d), d.redirectUris);
    OpenWebUiIsTidy(d);
    ArgoCdIsTidy(d);
    RagFlowIsTidy(d, overrides);
    HarborIsTidy(d);
    GenericIsTidy(d);
  }

  lemma CertKeysArePlain(profile: string, cert: Option<SigningCert>, base64: string -> string)
    ensures forall k | k in CertLayer(profile, cert, base64) :: PlainKey(k)
  {
  }

  // ---------------------------------------------------------------- finished secrets

  lemma SecretDataIsTidy(
      profile: string, d: OidcData, overrides: Data, cert: Option<SigningCert>, render: Render,
      base64: string -> string, other: Data)
    requires TidyInputs(d, overrides, render) && CertHidesNoEntry(profile, cert, base64, other)
    ensures TidyAgainst(SecretData(profile, d, overrides, cert, render, base64), other)
  {
    hide Table, CertLayer, Indented, HidesNoEntry, PlainKey, Resolved;
    TableIsTidy(profile, d, overrides);
    CertKeysArePlain(profile, cert, base64);
    forall k | k in overrides ensures Indented(Resolved(overrides[k], d, render)) {
      SingleLineIsIndented(Resolved(overrides[k], d, render));
    }
  }

  /**
   Any two finished secrets, of any profiles, can be told apart by the hash: with single-line
   inputs, provided that no line of either certificate starts like an entry of the other secret.
   */
  lemma {:induction false} SecretsAreComparable(
      p1: string, d1: OidcData, o1: Data, c1: Option<SigningCert>, p2: string, d2: OidcData, o2: Data,
      c2: Option<SigningCert>, render: Render, base64: string -> string)
    requires TidyInputs(d1, o1, render) && TidyInputs(d2, o2, render)
    requires CertHidesNoEntry(p1, c1, base64, SecretData(p2, d2, o2, c2, render, base64))
    requires CertHidesNoEntry(p2, c2, base64, SecretData(p1, d1, o1, c1, render, base64))
    ensures Comparable(SecretData(p1, d1, o1, c1, render, base64), SecretData(p2, d2, o2, c2, render, base64))
  {
    hide SecretData, TidyInputs, CertHidesNoEntry, TidyAgainst, Comparable;
    var m1, m2 := SecretData(p1, d1, o1, c1, render, base64), SecretData(p2, d2, o2, c2, render, base64);
    SecretDataIsTidy(p1, d1, o1, c1, render, base64, m2);
    SecretDataIsTidy(p2, d2, o2, c2, render, base64, m1);
    TidyMapsAreComparable(m1, m2);
  }
}
