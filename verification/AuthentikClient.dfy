/** The operator's client of the Authentik API: its bearer token, the provider lookup, and token creation. */
module AuthentikClient {
  import opened Wrappers
  import opened Backends
  import OidcValues

  /** The bearer token that all workers share. */
  class TokenClient {
    var token: string

    constructor (token: string)
      ensures this.token == token
    {
      this.token := token;
    }

    method SetToken(token: string)
      modifies this
      ensures this.token == token
    {
      this.token := token;
    }

    predicate HasToken()
      reads this
    {
      token != ""
    }

    method ClearToken()
      modifies this
      ensures token == ""
    {
      token := "";
    }
  }

  // ---------------------------------------------------------------- provider lookup

  datatype Fetched = Provided(provider: Provider) | ProviderMissing | TokenExpired | Unavailable

  /** Application by slug, then the providers of that application. */
  function FetchProvider(a: Authentik, bearer: string, slug: string, first: Transport, second: Transport): Fetched {
    match ApplicationAnswer(a, bearer, slug, first)
    case NoAnswer => Unavailable
    case Answer(status, body) =>
      if status == 404 then ProviderMissing
      else if status == 401 || status == 403 then TokenExpired
      else if status != 200 || body.None? then Unavailable
      else FirstProvider(ProvidersAnswer(a, bearer, body.value, second))
  }

  function FirstProvider(r: Http<seq<Provider>>): Fetched {
    match r
    case NoAnswer => Unavailable
    case Answer(status, body) =>
      if status == 401 || status == 403 then TokenExpired
      else if status != 200 || body.None? then Unavailable
      else if body.value == [] then ProviderMissing
      else Provided(body.value[0])
  }

  /** What Authentik holds for a slug. */
  function ProviderFor(a: Authentik, slug: string): Option<Provider> {
    if slug !in a.applications then None
    else
      var pk := a.applications[slug];
      if pk !in a.providers || a.providers[pk] == [] then None else Some(a.providers[pk][0])
  }

  /**
   A provider is only ever reported if Authentik holds it for the slug and accepts the token;
   on an undisturbed connection the three answers are exactly: token refused, nothing held,
   provider held.
   */
  lemma {:induction false} FetchIsTruthful(
      a: Authentik, bearer: string, slug: string, first: Transport, second: Transport)
    ensures var f := FetchProvider(a, bearer, slug, first, second);
            f.Provided? ==> bearer in a.accepted && ProviderFor(a, slug) == Some(f.provider)
    ensures first.Delivered? && second.Delivered? ==>
              var f := FetchProvider(a, bearer, slug, first, second);
              && (f.TokenExpired? <==> bearer !in a.accepted)
              && (f.ProviderMissing? <==> bearer in a.accepted && ProviderFor(a, slug).None?)
              && (f.Provided? <==> bearer in a.accepted && ProviderFor(a, slug).Some?)
  {
  }

  // ---------------------------------------------------------------- how answers are classified

  /** The request is answered with 401 or 403. */
  predicate Refuses(a: Authentik, bearer: string, t: Transport) {
    (t.Replaced? && t.status in {401, 403}) || (t.Delivered? && bearer !in a.accepted)
  }

  /** The first request yields an application, so that there is a second one. */
  predicate Proceeds(a: Authentik, bearer: string, slug: string, first: Transport) {
    first.Delivered? && bearer in a.accepted && slug in a.applications
  }

  /** One of the requests that are made is refused. */
  predicate LookupRefused(a: Authentik, bearer: string, slug: string, first: Transport, second: Transport) {
    Refuses(a, bearer, first) || (Proceeds(a, bearer, slug, first) && Refuses(a, bearer, second))
  }

  /** The application is not found, or Authentik lists no provider for it. */
  predicate LookupEmpty(a: Authentik, bearer: string, slug: string, first: Transport, second: Transport) {
    || first == Replaced(404)
    || (first.Delivered? && bearer in a.accepted && slug !in a.applications)
    || (Proceeds(a, bearer, slug, first) && second.Delivered? && ProviderFor(a, slug).None?)
  }

  /** Both requests are served, and there is a provider. */
  predicate LookupServed(a: Authentik, bearer: string, slug: string, first: Transport, second: Transport) {
    Proceeds(a, bearer, slug, first) && second.Delivered? && ProviderFor(a, slug).Some?
  }

  /**
   For every fate of both requests: a token counts as expired exactly on a 401 or 403, a
   provider as missing exactly on a 404 for the application or an empty list, and whatever
   else goes wrong is neither.
   */
  lemma {:induction false} FetchClassifies(
      a: Authentik, bearer: string, slug: string, first: Transport, second: Transport)
    ensures var f := FetchProvider(a, bearer, slug, first, second);
            && (f.TokenExpired? <==> LookupRefused(a, bearer, slug, first, second))
            && (f.ProviderMissing? <==> LookupEmpty(a, bearer, slug, first, second))
            && (f.Provided? <==> LookupServed(a, bearer, slug, first, second))
            && (f.Provided? ==> f.provider == ProviderFor(a, slug).value)
  {
    if Proceeds(a, bearer, slug, first) {
      var answer := ProvidersAnswer(a, bearer, a.applications[slug], second);
      assert FetchProvider(a, bearer, slug, first, second) == FirstProvider(answer);
    }
  }

  function FetchCertificate(a: Authentik, bearer: string, id: string, t: Transport): Option<OidcValues.SigningCert> {
    match CertificateAnswer(a, bearer, id, t)
    case NoAnswer => None
    case Answer(status, body) => if status == 200 then body else None
  }

  // ---------------------------------------------------------------- token creation

  /** Whether the answer to the creating POST lets the key be read afterwards. */
  predicate MayView(r: Http<bool>) {
    r.Answer? && (r.status == 200 || r.status == 201 || (r.status == 400 && r.body == Some(true)))
  }

  function ViewedKey(a: Authentik, bearer: string, identifier: string, t: Transport): Option<string> {
    match ViewKeyAnswer(a, bearer, identifier, t)
    case NoAnswer => None
    case Answer(status, body) => if status == 200 then body else None
  }

  /** The durable effect of creating a token, and the key that comes back. */
  datatype Creation = Creation(effects: seq<Effect>, key: Option<string>)

  function Created(
      s: Outside, bearer: string, identifier: string, minted: string, fate: PostFate, view: Transport): Creation
  {
    var es := CreateEffects(s.authentik, bearer, identifier, minted, fate);
    Creation(
      es,
      if MayView(CreateAnswer(s.authentik, bearer, identifier, fate))
      then ViewedKey(Replay(s, es).authentik, bearer, identifier, view)
      else None)
  }

  method CreateApiToken(
      b: Backends, bearer: string, identifier: string, minted: string, fate: PostFate, view: Transport)
    returns (key: Option<string>)
    modifies b
    ensures var c := Created(old(b.State()), bearer, identifier, minted, fate, view);
            && b.State() == Replay(old(b.State()), c.effects)
            && b.log == old(b.log) + c.effects
            && key == c.key
  {
    var posted := b.PostToken(bearer, identifier, minted, fate);
    if posted.NoAnswer? {
      return None;
    }
    match posted.status {
      case 201 | 200 =>
      case 400 =>
        if posted.body != Some(true) {
          return None;
        }
      case _ => return None;
    }
    assert b.authentik == b.State().authentik;
    key := ViewedKey(b.authentik, bearer, identifier, view);
  }
}
