/** Grafana's keys, as literals, have neither '=' nor line breaks nor leading spaces. */
module GrafanaKeys {
  import opened CanonicalHash

  lemma JoinedKey(a: string, b: string)
    requires PlainKey(a) && PlainKey(b) && a != ""
    ensures PlainKey(a + b)
  {
  }

  lemma OAuthSwitches()
    ensures PlainKey("GF_AUTH_GENERIC_OAUTH_ENABLED")
    ensures PlainKey("GF_AUTH_GENERIC_OAUTH_NAME")
  {
  }

  lemma OAuthClient()
    ensures PlainKey("GF_AUTH_GENERIC_OAUTH_CLIENT_ID")
    ensures PlainKey("GF_AUTH_GENERIC_OAUTH_CLIENT_SECRET")
  {
  }

  lemma OAuthEndpoints()
    ensures PlainKey("GF_AUTH_GENERIC_OAUTH_AUTH_URL")
    ensures PlainKey("GF_AUTH_GENERIC_OAUTH_TOKEN_URL")
  {
  }

  lemma OAuthScope()
    ensures PlainKey("GF_AUTH_GENERIC_OAUTH_API_URL")
    ensures PlainKey("GF_AUTH_GENERIC_OAUTH_SCOPES")
  {
  }

  lemma SignOut()
    ensures PlainKey("GF_AUTH_SIGNOUT_REDIRECT_URL")
    ensures PlainKey("GF_AUTH_OAUTH_AUTO_LOGIN")
  {
  }

  lemma SignUp()
    ensures PlainKey("GF_AUTH_GENERIC_OAUTH_ALLOW_SIGN_UP")
    ensures PlainKey("GF_AUTH_GENERIC_OAUTH_USE_PKCE")
  {
  }

  lemma OAuthPrefix()
    ensures PlainKey("GF_AUTH_GENERIC_OAUTH_")
  {
  }

  lemma LongEnds1()
    ensures PlainKey("ALLOW_ASSIGN_GRAFANA_ADMIN")
    ensures PlainKey("EMAIL_ATTRIBUTE_PATH")
  {
  }

  lemma LongEnds2()
    ensures PlainKey("NAME_ATTRIBUTE_PATH")
    ensures PlainKey("LOGIN_ATTRIBUTE_PATH")
  {
  }

  lemma LongKeys1()
    ensures PlainKey("GF_AUTH_GENERIC_OAUTH_ALLOW_ASSIGN_GRAFANA_ADMIN")
  {
    hide PlainKey;
    OAuthPrefix();
    LongEnds1();
    JoinedKey("GF_AUTH_GENERIC_OAUTH_", "ALLOW_ASSIGN_GRAFANA_ADMIN");
    assert "GF_AUTH_GENERIC_OAUTH_" + "ALLOW_ASSIGN_GRAFANA_ADMIN"
        == "GF_AUTH_GENERIC_OAUTH_ALLOW_ASSIGN_GRAFANA_ADMIN";
  }

  lemma LongKeys2()
    ensures PlainKey("GF_AUTH_GENERIC_OAUTH_NAME_ATTRIBUTE_PATH")
    ensures PlainKey("GF_AUTH_GENERIC_OAUTH_LOGIN_ATTRIBUTE_PATH")
  {
    hide PlainKey;
    OAuthPrefix();
    LongEnds2();
    JoinedKey("GF_AUTH_GENERIC_OAUTH_", "NAME_ATTRIBUTE_PATH");
    assert "GF_AUTH_GENERIC_OAUTH_" + "NAME_ATTRIBUTE_PATH" == "GF_AUTH_GENERIC_OAUTH_NAME_ATTRIBUTE_PATH";
    JoinedKey("GF_AUTH_GENERIC_OAUTH_", "LOGIN_ATTRIBUTE_PATH");
    assert "GF_AUTH_GENERIC_OAUTH_" + "LOGIN_ATTRIBUTE_PATH" == "GF_AUTH_GENERIC_OAUTH_LOGIN_ATTRIBUTE_PATH";
  }

  lemma LongKeys3()
    ensures PlainKey("GF_AUTH_GENERIC_OAUTH_EMAIL_ATTRIBUTE_PATH")
  {
    hide PlainKey;
    OAuthPrefix();
    LongEnds1();
    JoinedKey("GF_AUTH_GENERIC_OAUTH_", "EMAIL_ATTRIBUTE_PATH");
    assert "GF_AUTH_GENERIC_OAUTH_" + "EMAIL_ATTRIBUTE_PATH" == "GF_AUTH_GENERIC_OAUTH_EMAIL_ATTRIBUTE_PATH";
  }
}
