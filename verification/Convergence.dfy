/**
 What reconciles come to when nothing fails: with a token to start from, at most two of them
 bring the target up to date for good; with none, no number of them does anything.
 */
module Convergence {
  import opened Wrappers
  import opened Backends
  import opened AuthentikClient
  import opened Reconciler
  import opened SyncSteps
  import opened SyncRuns
  import Bootstrap
  import CanonicalHash
  import OidcValues
  import Profiles
  import RedirectUris
  import Text
  import TokenScan
  import TokenStore

  // ---------------------------------------------------------------- smooth reconciles

  predicate SmoothBoot(f: Bootstrap.Faults) {
    && f.existingRead.ReadOk? && f.delete.WriteOk? && f.ready && f.apply.WriteOk?
    && f.post.PostDelivered? && f.view.Delivered?
    && f.exec.ExecDelivered? && TokenStore.BannerEnds(f)
    && TokenScan.TokenLike(f.minted)
  }

  /** The calls up to the provider lookup succeed. */
  predicate SmoothLookup(f: Faults) {
    f.tokenRead.ReadOk? && f.clientRead.ReadOk? && f.application.Delivered? && f.providers.Delivered?
  }

  /** The calls up to the comparison succeed. */
  predicate SmoothReads(f: Faults) {
    SmoothLookup(f) && f.certificate.Delivered?
  }

  /** Every call succeeds. */
  predicate Smooth(f: Faults) {
    && SmoothReads(f)
    && f.bootstrapRead.ReadOk? && f.reload.ReadOk?
    && f.secretApply.WriteOk? && f.configMapRead.ReadOk? && f.configMapUpdate.WriteOk?
    && f.workloadRead.ReadOk? && f.rolloutPatch.WriteOk? && f.statusWrite.WriteOk?
    && SmoothBoot(f.boot)
  }

  /** The token that would be read from a secret of this state. */
  function TokenAt(s: Outside, key: ObjectKey): string {
    TokenIn(Look(s.secrets, key, ReadOk))
  }

  /** The token that would be read from the token secret. */
  function StoredToken(cfg: Settings, s: Outside): string {
    TokenAt(s, TokenKey(cfg))
  }

  /** Bootstrapping is configured, apart from the token secret, and yields a key that Authentik accepts. */
  predicate CanBootstrap(cfg: Settings, s: Outside) {
    var key := ObjectKey(cfg.namespace, cfg.bootstrapSecretName);
    && cfg.bootstrapSecretName != "" && cfg.bootstrapSecretName != cfg.tokenSecretName
    && key in s.secrets && FieldValue(s.secrets[key], cfg.bootstrapSecretKey) != ""
    && (cfg.canExec || FieldValue(s.secrets[key], cfg.bootstrapSecretKey) in s.authentik.accepted)
    && (Bootstrap.SHELL_IDENTIFIER in s.authentik.tokens ==>
          var k := s.authentik.tokens[Bootstrap.SHELL_IDENTIFIER];
          k in s.authentik.accepted && TokenScan.TokenLike(k))
  }

  /** The resource can be served: it is watched and Authentik holds a provider for its slug. */
  predicate Servable(cfg: Settings, s: Outside, c: ObjectKey, t: ObjectKey) {
    && Watched(cfg, s, c, t)
    && cfg.tokenSecretName != ""
    && "" !in s.authentik.accepted
    && ProviderFor(s.authentik, s.clients[c].spec.slug).Some?
  }

  /** The certificate that Authentik holds for a provider's signing key. */
  function CertificateFor(a: Authentik, provider: Provider): Option<OidcValues.SigningCert> {
    if provider.signingKey.Some? && provider.signingKey.value != "" && provider.signingKey.value in a.certificates
    then Some(a.certificates[provider.signingKey.value])
    else None
  }

  /** What the target should hold in this state. */
  function Wanted(cfg: Settings, s: Outside, c: ObjectKey): Data
    requires c in s.clients && ProviderFor(s.authentik, s.clients[c].spec.slug).Some?
  {
    var spec := s.clients[c].spec;
    var provider := ProviderFor(s.authentik, spec.slug).value;
    Desired(cfg, spec, provider, CertificateFor(s.authentik, provider))
  }

  /** The inputs of a reconcile are the same in both states; token and status may differ. */
  predicate SameInputs(s: Outside, s': Outside, c: ObjectKey) {
    && c in s.clients && c in s'.clients
    && s'.clients[c].spec == s.clients[c].spec
    && s'.authentik.applications == s.authentik.applications
    && s'.authentik.providers == s.authentik.providers
    && s'.authentik.certificates == s.authentik.certificates
  }

  /** The token in use is accepted, and the stored hash is that of what is wanted. */
  ghost predicate Matched(cfg: Settings, w: World, c: ObjectKey, t: ObjectKey) {
    && Servable(cfg, w.outside, c, t)
    && w.memory in w.outside.authentik.accepted
    && StoredHash(w, c) == HashOf(cfg, Wanted(cfg, w.outside, c))
  }

  /** The hash matches, and the target does hold what is wanted. */
  ghost predicate Settled(cfg: Settings, w: World, c: ObjectKey, t: ObjectKey) {
    Matched(cfg, w, c, t) && Owned(w.outside, t) == Wanted(cfg, w.outside, c)
  }

  /** The comparison would not be fooled: the hashes differ, or the target is as wanted. */
  ghost predicate Repairable(cfg: Settings, s: Outside, c: ObjectKey, t: ObjectKey)
    requires c in s.clients && ProviderFor(s.authentik, s.clients[c].spec.slug).Some?
  {
    StatusOf(s, c).secretHash == HashOf(cfg, Wanted(cfg, s, c)) ==> Owned(s, t) == Wanted(cfg, s, c)
  }

  /** The token that a smooth reconcile starts with. */
  function LoadedTokenOf(cfg: Settings, w: World): string {
    if w.memory == "" && cfg.tokenSecretName != "" then StoredToken(cfg, w.outside) else w.memory
  }

  // ---------------------------------------------------------------- with an accepted token

  /** The data compared after a smooth lookup, whatever the certificate fetch comes to. */
  lemma LookupCompares(cfg: Settings, w: World, c: ObjectKey, t: ObjectKey, f: Faults)
    requires Servable(cfg, w.outside, c, t) && SmoothLookup(f)
    requires LoadedTokenOf(cfg, w) in w.outside.authentik.accepted
    ensures var s, bearer := w.outside, LoadedTokenOf(cfg, w);
            var spec := s.clients[c].spec;
            var provider := ProviderFor(s.authentik, spec.slug).value;
            Compared(cfg, s, w.memory, c, f)
              == Some(Desired(cfg, spec, provider, SigningCertificate(s.authentik, bearer, provider, f.certificate)))
    ensures ReconcilePlan(cfg, w.outside, w.memory, c, f).memory == LoadedTokenOf(cfg, w)
  {
    hide Desired, Sync, FailurePlan, FetchProvider, SigningCertificate;
    var s := w.outside;
    FetchIsTruthful(s.authentik, LoadedTokenOf(cfg, w), s.clients[c].spec.slug, f.application, f.providers);
  }

  lemma AcceptedTokenCompares(cfg: Settings, w: World, c: ObjectKey, t: ObjectKey, f: Faults)
    requires Servable(cfg, w.outside, c, t) && SmoothReads(f)
    requires LoadedTokenOf(cfg, w) in w.outside.authentik.accepted
    ensures Compared(cfg, w.outside, w.memory, c, f) == Some(Wanted(cfg, w.outside, c))
    ensures ReconcilePlan(cfg, w.outside, w.memory, c, f).memory == LoadedTokenOf(cfg, w)
  {
    hide Desired, ReconcilePlan, Compared;
    LookupCompares(cfg, w, c, t, f);
  }

  lemma QuietInput(s: Outside, e: Effect, c: ObjectKey)
    requires c in s.clients && !e.StoreToken?
    ensures SameInputs(s, Perform(s, e), c) && Perform(s, e).authentik == s.authentik
  {
  }

  lemma {:induction false} QuietInputs(s: Outside, es: seq<Effect>, c: ObjectKey)
    requires c in s.clients && forall e | e in es :: !e.StoreToken?
    ensures SameInputs(s, Replay(s, es), c) && Replay(s, es).authentik == s.authentik
  {
    hide Perform;
    if es != [] {
      QuietInputs(s, es[..|es| - 1], c);
      QuietInput(Replay(s, es[..|es| - 1]), es[|es| - 1], c);
    }
  }

  /** A smooth apply records its hash last. */
  lemma SmoothSyncRecords(cfg: Settings, s: Outside, c: ObjectKey, spec: Spec, st: Status, data: Data, f: Faults)
    requires Smooth(f) && HashOf(cfg, data) != st.secretHash
    ensures var es := Sync(cfg, s, c, spec, st, data, f).effects;
            |es| > 0 && es[|es| - 1].PutStatus? && KeepsHash(es[|es| - 1], c, HashOf(cfg, data))
  {
    hide HashOf, SetCondition, SmoothBoot, Replay;
  }

  /** From an accepted token, one smooth reconcile settles exactly when the comparison is not fooled. */
  lemma {:induction false} AcceptedTokenSettlesIff(cfg: Settings, w: World, c: ObjectKey, t: ObjectKey, f: Faults)
    requires Servable(cfg, w.outside, c, t) && Smooth(f)
    requires LoadedTokenOf(cfg, w) in w.outside.authentik.accepted
    ensures var w' := After(cfg, w, c, Complete(f));
            && Matched(cfg, w', c, t) && SameInputs(w.outside, w'.outside, c)
            && (Settled(cfg, w', c, t) <==> Repairable(cfg, w.outside, c, t))
            && (Repairable(cfg, w'.outside, c, t) <==> Repairable(cfg, w.outside, c, t))
  {
    hide SmoothReads, SmoothBoot, Desired, CanonicalHash.Hash, Owned;
    hide Sync, FailurePlan, Compared, SetCondition, FetchProvider;
    var s := w.outside;
    var data := Wanted(cfg, s, c);
    AcceptedTokenCompares(cfg, w, c, t, f);
    StepOnView(cfg, w, c, t, Complete(f));
    PlanShape(cfg, s, w.memory, c, t, f);
    var es := ReconcilePlan(cfg, s, w.memory, c, f).effects;
    ComparedIsSynced(cfg, s, w.memory, c, f);
    QuietInputs(s, es, c);
    if HashOf(cfg, data) == StatusOf(s, c).secretHash {
      assert es == [];
    } else {
      var st := With(s.clients[c].status, AuthentikProviderFound, true);
      SmoothSyncRecords(cfg, s, c, s.clients[c].spec, st, data, f);
      assert es == Sync(cfg, s, c, s.clients[c].spec, st, data, f).effects;
      HashChangeMeansApply(cfg, w, c, t, f);
    }
  }

  /** When data is compared, the whole plan is what follows from the comparison; it never creates a token. */
  lemma ComparedIsSynced(cfg: Settings, s: Outside, memory: string, c: ObjectKey, f: Faults)
    requires c in s.clients && Compared(cfg, s, memory, c, f).Some?
    ensures var data := Compared(cfg, s, memory, c, f).value;
            var st := With(s.clients[c].status, AuthentikProviderFound, true);
            var es := ReconcilePlan(cfg, s, memory, c, f).effects;
            && es == Sync(cfg, s, c, s.clients[c].spec, st, data, f).effects
            && (forall e | e in es :: !e.StoreToken?)
  {
    hide Sync, Compared, ReconcilePlan, With;
    PlanIsSync(cfg, s, memory, c, f);
    var data, st := Compared(cfg, s, memory, c, f).value, With(s.clients[c].status, AuthentikProviderFound, true);
    SyncCreatesNoToken(cfg, s, c, s.clients[c].spec, st, data, f);
  }

  lemma SyncCreatesNoToken(cfg: Settings, s: Outside, c: ObjectKey, spec: Spec, st: Status, data: Data, f: Faults)
    ensures forall e | e in Sync(cfg, s, c, spec, st, data, f).effects :: !e.StoreToken?
  {
    hide Publish, HashOf, With;
    var apply := Written(f.secretApply, ApplySecret(spec.target, data));
    PublishShape(Replay(s, apply), c, spec, st, data, HashOf(cfg, data), f);
  }

  /** Where the stored hash ends up different, the data has been applied. */
  lemma HashChangeMeansApply(cfg: Settings, w: World, c: ObjectKey, t: ObjectKey, f: Faults)
    requires Watched(cfg, w.outside, c, t)
    requires var es := ReconcilePlan(cfg, w.outside, w.memory, c, f).effects;
             |es| > 0 && es[|es| - 1].PutStatus? && es[|es| - 1].client == c
             && es[|es| - 1].status.secretHash != StoredHash(w, c)
    ensures var w', es := After(cfg, w, c, Complete(f)), ReconcilePlan(cfg, w.outside, w.memory, c, f).effects;
            c in w'.outside.clients && StoredHash(w', c) == es[|es| - 1].status.secretHash
    ensures AppliesIn(cfg, w, c, t, Complete(f))
  {
    hide ReconcilePlan, Compared, HashOf;
    StepOnView(cfg, w, c, t, Complete(f));
    var es := ReconcilePlan(cfg, w.outside, w.memory, c, f).effects;
    var last := es[|es| - 1];
    assert Replay(w.outside, es) == Perform(Replay(w.outside, es[..|es| - 1]), last);
  }

  /** Once the hash matches, a reconcile writes nothing and changes nothing, whatever the target holds. */
  lemma {:induction false} MatchedStays(cfg: Settings, w: World, c: ObjectKey, t: ObjectKey, f: Faults)
    requires Matched(cfg, w, c, t) && SmoothReads(f)
    ensures Done(cfg, w, c, Complete(f)) == [] && After(cfg, w, c, Complete(f)) == w
  {
    hide SmoothReads, Desired, HashOf, Owned, ReconcilePlan, Compared;
    AcceptedTokenCompares(cfg, w, c, t, f);
    PlanShape(cfg, w.outside, w.memory, c, t, f);
  }

  function Completes(fs: seq<Faults>): (r: seq<Step>)
    ensures |r| == |fs|
  {
    seq(|fs|, i requires 0 <= i < |fs| => Complete(fs[i]))
  }

  lemma RunExtends(cfg: Settings, w: World, c: ObjectKey, fs: seq<Faults>)
    requires fs != []
    ensures RunTo(cfg, w, c, Completes(fs))
         == After(cfg, RunTo(cfg, w, c, Completes(fs[..|fs| - 1])), c, Complete(fs[|fs| - 1]))
  {
    assert Completes(fs)[..|fs| - 1] == Completes(fs[..|fs| - 1]);
  }

  /** And so for any number of reconciles. */
  lemma {:induction false} MatchedStaysForever(cfg: Settings, w: World, c: ObjectKey, t: ObjectKey, fs: seq<Faults>)
    requires Matched(cfg, w, c, t) && forall f | f in fs :: SmoothReads(f)
    ensures RunTo(cfg, w, c, Completes(fs)) == w
    ensures forall f | f in fs :: Done(cfg, w, c, Complete(f)) == []
  {
    hide SmoothReads, Matched, After, Done;
    if fs != [] {
      var front, last := fs[..|fs| - 1], fs[|fs| - 1];
      assert fs == front + [last];
      assert forall f | f in front :: f in fs;
      MatchedStaysForever(cfg, w, c, t, front);
      RunExtends(cfg, w, c, fs);
      assert last in fs;
      MatchedStays(cfg, w, c, t, last);
    }
  }

  /** So a settled target serves the credentials that Authentik holds, unless the overrides replace them. */
  lemma {:induction false} SettledServesCredentials(cfg: Settings, w: World, c: ObjectKey, t: ObjectKey)
    requires Settled(cfg, w, c, t)
    requires var keys := Profiles.CredentialKeys(w.outside.clients[c].spec.profile);
             keys.0 !in w.outside.clients[c].spec.overrides && keys.1 !in w.outside.clients[c].spec.overrides
    ensures var (id, secret) := Profiles.CredentialKeys(w.outside.clients[c].spec.profile);
            var owned := Owned(w.outside, t);
            var provider := ProviderFor(w.outside.authentik, w.outside.clients[c].spec.slug).value;
            && id in owned && owned[id] == provider.clientId
            && secret in owned && owned[secret] == provider.clientSecret
  {
    hide Profiles.SecretData, Profiles.CredentialKeys, Owned, HashOf;
    var s := w.outside;
    var spec := s.clients[c].spec;
    var provider := ProviderFor(s.authentik, spec.slug).value;
    Profiles.CredentialsReachSecret(spec.profile, Values(cfg, spec, provider), spec.overrides,
                                    CertificateFor(s.authentik, provider), cfg.render, cfg.base64);
  }

  /** And the certificate, if Authentik holds one for the provider's signing key. */
  lemma {:induction false} SettledServesCertificate(cfg: Settings, w: World, c: ObjectKey, t: ObjectKey)
    requires Settled(cfg, w, c, t)
    requires var a, slug := w.outside.authentik, w.outside.clients[c].spec.slug;
             CertificateFor(a, ProviderFor(a, slug).value).Some?
    ensures var owned, a, spec := Owned(w.outside, t), w.outside.authentik, w.outside.clients[c].spec;
            var cert := CertificateFor(a, ProviderFor(a, spec.slug).value).value;
            if spec.profile == "argocd" then
              && "caData" in owned && owned["caData"] == cfg.base64(cert.certificatePem)
              && "caFingerprint" in owned && owned["caFingerprint"] == cert.fingerprintSha256
            else
              && "saml.crt" in owned && owned["saml.crt"] == cert.certificatePem
              && "saml.fingerprint" in owned && owned["saml.fingerprint"] == cert.fingerprintSha256
  {
    hide Profiles.SecretData, Owned, HashOf, CertificateFor, Values;
    var s := w.outside;
    var spec := s.clients[c].spec;
    var provider := ProviderFor(s.authentik, spec.slug).value;
    Profiles.CertificateReachesSecret(spec.profile, Values(cfg, spec, provider), spec.overrides,
                                      CertificateFor(s.authentik, provider).value, cfg.render, cfg.base64);
  }

  /** The documented value of a key for this resource, with the base URL as configured up to its trailing slashes. */
  function DocumentedValue(base: string, slug: string, provider: Provider, source: Profiles.Source): string {
    match source
    case ClientId => provider.clientId
    case ClientSecret => provider.clientSecret
    case AuthorizeUrl => base + "/application/o/authorize/"
    case TokenUrl => base + "/application/o/token/"
    case UserinfoUrl => base + "/application/o/userinfo/"
    case IssuerUrl => base + "/application/o/" + slug + "/"
    case LogoutUrl => base + "/application/o/" + slug + "/end-session/"
    case Scopes => "openid email profile"
    case Static(text) => text
  }

  /** And every documented value that is not overridden, with the exceptions of the documented tables. */
  lemma {:induction false} SettledServesDocumentedValues(
      cfg: Settings, w: World, c: ObjectKey, t: ObjectKey, base: string, slashes: nat, k: string)
    requires Settled(cfg, w, c, t) && cfg.authentikUrl == base + Text.Repeat('/', slashes)
    requires base == "" || base[|base| - 1] != '/'
    requires var spec := w.outside.clients[c].spec;
             && k in Profiles.Documented(spec.profile) && k !in spec.overrides
                 && !Profiles.NeverProduced(spec.profile, k)
             && !(spec.profile == "grafana" && Profiles.Documented(spec.profile)[k].UserinfoUrl?)
    ensures var owned, spec := Owned(w.outside, t), w.outside.clients[c].spec;
            var provider := ProviderFor(w.outside.authentik, spec.slug).value;
            k in owned && owned[k] == DocumentedValue(base, spec.slug, provider, Profiles.Documented(spec.profile)[k])
  {
    hide Profiles.SecretData, Profiles.Documented, Owned, HashOf, RedirectUris.KeptUris, CertificateFor;
    hide OidcValues.BuildOidcData;
    var s := w.outside;
    var spec := s.clients[c].spec;
    var provider := ProviderFor(s.authentik, spec.slug).value;
    OidcValues.ValuesAreDocumented(base, slashes, spec.slug, provider.clientId, provider.clientSecret,
                                   RedirectUris.KeptUris(provider.redirectUris));
    Profiles.DocumentedKeysReachSecretIff(spec.profile, Values(cfg, spec, provider), spec.overrides,
                                          CertificateFor(s.authentik, provider), cfg.render, cfg.base64, k);
  }

  // ---------------------------------------------------------------- with a refused token

  lemma SmoothRefill(s: Outside, cfg: Bootstrap.Config, f: Bootstrap.Faults)
    requires SmoothBoot(f) && cfg.identifier == Bootstrap.SHELL_IDENTIFIER
    requires TokenStore.KeysAreTokenLike(s.authentik, f)
    requires cfg.canExec || cfg.bootstrapToken in s.authentik.accepted
    ensures Bootstrap.Refill(s, cfg, f).ok
  {
    hide TokenScan.TokenLike, TokenScan.TokenLine, Replay;
    var key := Bootstrap.ShellKey(s.authentik, f.minted);
    TokenScan.TokenLikeIsNotEmpty(key);
    TokenScan.PrintedKeyIsFoundIff(f.exec.banner, key);
    if !cfg.canExec {
      Bootstrap.NoShell(s, cfg, f);
      if cfg.identifier !in s.authentik.tokens {
        ReplayOne(s, StoreToken(cfg.identifier, f.minted));
      }
    }
  }

  lemma {:induction false} TokenWorkKeeps(s: Outside, es: seq<Effect>, tokenKey: ObjectKey, t: ObjectKey)
    requires t != tokenKey && forall e | e in es :: TokenEffect(e, tokenKey)
    ensures var s' := Replay(s, es);
            && s'.clients == s.clients
            && SecretAt(s', t) == SecretAt(s, t)
            && s'.authentik.applications == s.authentik.applications
            && s'.authentik.providers == s.authentik.providers
            && s'.authentik.certificates == s.authentik.certificates
  {
    hide Applied;
    if es != [] {
      TokenWorkKeeps(s, es[..|es| - 1], tokenKey, t);
      assert TokenEffect(es[|es| - 1], tokenKey);
    }
  }

  /** A smooth bootstrap leaves an accepted key, both stored and in the token secret. */
  lemma SmoothBootstrap(cfg: Settings, s: Outside, f: Faults)
    requires Smooth(f) && CanBootstrap(cfg, s) && "" !in s.authentik.accepted
    ensures var run := Bootstrap.Run(s, BootConfig(cfg, BootstrapToken(cfg, s, f)), f.boot);
            var s' := Replay(s, run.effects);
            && BootstrapToken(cfg, s, f) != ""
            && run.ok
            && StoredToken(cfg, s') in s'.authentik.accepted
            && "" !in s'.authentik.accepted
  {
    hide Bootstrap.Refill, TokenScan.TokenLike, TokenStore.BannerEnds;
    var bcfg := BootConfig(cfg, BootstrapToken(cfg, s, f));
    var deleted := Written(f.boot.delete, DeleteSecret(TokenKey(cfg)));
    ReplayOne(s, DeleteSecret(TokenKey(cfg)));
    var s1 := if TokenKey(cfg) in s.secrets then Replay(s, deleted) else s;
    assert s1.authentik == s.authentik;
    var refill := Bootstrap.Refill(s1, bcfg, f.boot);
    SmoothRefill(s1, bcfg, f.boot);
    TokenStore.RefilledSecretHoldsStoredKey(s1, bcfg, f.boot);
    TokenStore.RefillCreatesOnce(s1, bcfg, f.boot);
    TokenStore.StoreAfterReplay(s1, refill.effects, f.boot.minted);
    ReplayConcat(s, deleted, refill.effects);
    TokenScan.TokenLikeIsNotEmpty(f.boot.minted);
    AcceptedAfterReplay(s1, refill.effects, f.boot.minted);
  }

  lemma AcceptedAfter(s: Outside, e: Effect)
    ensures Perform(s, e).authentik.accepted == s.authentik.accepted + if e.StoreToken? then {e.tokenKey} else {}
  {
  }

  lemma {:induction false} AcceptedAfterReplay(s: Outside, es: seq<Effect>, minted: string)
    requires forall e | e in es && e.StoreToken? :: e.tokenKey == minted
    ensures Replay(s, es).authentik.accepted <= s.authentik.accepted + {minted}
  {
    hide Perform;
    if es != [] {
      AcceptedAfterReplay(s, es[..|es| - 1], minted);
      AcceptedAfter(Replay(s, es[..|es| - 1]), es[|es| - 1]);
      assert es[|es| - 1] in es;
    }
  }

  /** From a refused token, one smooth reconcile gets an accepted one and leaves the rest as it was. */
  lemma {:induction false} RefusedTokenIsReplaced(cfg: Settings, w: World, c: ObjectKey, t: ObjectKey, f: Faults)
    requires Servable(cfg, w.outside, c, t) && Smooth(f) && CanBootstrap(cfg, w.outside)
    requires LoadedTokenOf(cfg, w) != "" && LoadedTokenOf(cfg, w) !in w.outside.authentik.accepted
    ensures var w' := After(cfg, w, c, Complete(f));
            && Servable(cfg, w'.outside, c, t) && SameInputs(w.outside, w'.outside, c)
            && LoadedTokenOf(cfg, w') in w'.outside.authentik.accepted
            && StatusOf(w'.outside, c) == StatusOf(w.outside, c)
            && SecretAt(w'.outside, t) == SecretAt(w.outside, t)
  {
    hide Bootstrap.Run, Sync, Desired, FetchProvider, CanBootstrap, SmoothBoot, BootstrapToken;
    var s, bearer := w.outside, LoadedTokenOf(cfg, w);
    FetchIsTruthful(s.authentik, bearer, s.clients[c].spec.slug, f.application, f.providers);
    SmoothBootstrap(cfg, s, f);
    var r := Refresh(cfg, s, bearer, f);
    assert bearer == LoadedToken(cfg, s, w.memory, f);
    RefreshIsTokenWork(cfg, s, bearer, f);
    TokenWorkKeeps(s, r.effects, TokenKey(cfg), t);
    assert r.ok;
  }

  // ---------------------------------------------------------------- the dichotomy

  /** No token in memory, and none to be had from the token secret. */
  predicate Stranded(cfg: Settings, w: World) {
    cfg.tokenSecretName != "" && w.memory == "" && StoredToken(cfg, w.outside) == ""
  }

  /** What is asked of the start: the resource can be served, and bootstrapping works. */
  predicate Startable(cfg: Settings, w: World, c: ObjectKey, t: ObjectKey) {
    Servable(cfg, w.outside, c, t) && CanBootstrap(cfg, w.outside) && !Stranded(cfg, w)
  }

  lemma {:induction false} TwoReconcilesSettleIff(
      cfg: Settings, w: World, c: ObjectKey, t: ObjectKey, f: Faults, g: Faults)
    requires Startable(cfg, w, c, t) && Smooth(f) && Smooth(g)
    ensures var w2 := After(cfg, After(cfg, w, c, Complete(f)), c, Complete(g));
            && Matched(cfg, w2, c, t) && SameInputs(w.outside, w2.outside, c)
            && (Settled(cfg, w2, c, t) <==> Repairable(cfg, w.outside, c, t))
  {
    hide Smooth, Desired, HashOf, Owned, After, CanBootstrap, StoredToken;
    var w1 := After(cfg, w, c, Complete(f));
    if LoadedTokenOf(cfg, w) in w.outside.authentik.accepted {
      AcceptedTokenSettlesIff(cfg, w, c, t, f);
    } else {
      RefusedTokenIsReplaced(cfg, w, c, t, f);
      SameSecretSameData(w.outside, w1.outside, t);
    }
    AcceptedTokenSettlesIff(cfg, w1, c, t, g);
  }

  lemma RunOfTwo(cfg: Settings, w: World, c: ObjectKey, fs: seq<Faults>)
    requires |fs| >= 2
    ensures RunTo(cfg, w, c, Completes(fs[..2])) == After(cfg, After(cfg, w, c, Complete(fs[0])), c, Complete(fs[1]))
  {
    hide After;
    RunExtends(cfg, w, c, fs[..2]);
    assert fs[..2][..1] == fs[..1];
    RunExtends(cfg, w, c, fs[..1]);
    assert Completes(fs[..1][..0]) == [];
  }

  /**
   With a token to start from and nothing failing, two reconciles reach a state that no later
   one changes.  The target is then as wanted exactly when the first comparison is not fooled:
   the stored hash is not that of what is wanted, or the target was as wanted all along.
   */
  lemma {:induction false} ConvergesInTwoIff(cfg: Settings, w: World, c: ObjectKey, t: ObjectKey, fs: seq<Faults>)
    requires Startable(cfg, w, c, t)
    requires |fs| >= 2 && forall f | f in fs :: Smooth(f)
    ensures var w2 := RunTo(cfg, w, c, Completes(fs[..2]));
            && SameInputs(w.outside, w2.outside, c)
            && (Settled(cfg, w2, c, t) <==> Repairable(cfg, w.outside, c, t))
            && RunTo(cfg, w2, c, Completes(fs[2..])) == w2
            && (forall f | f in fs[2..] :: Done(cfg, w2, c, Complete(f)) == [])
  {
    hide Matched, Settled, Repairable, Startable, After, Done, SameInputs, SmoothReads, SmoothBoot;
    RunOfTwo(cfg, w, c, fs);
    assert fs[0] in fs && fs[1] in fs;
    TwoReconcilesSettleIff(cfg, w, c, t, fs[0], fs[1]);
    assert forall f | f in fs[2..] :: f in fs;
    MatchedStaysForever(cfg, RunTo(cfg, w, c, Completes(fs[..2])), c, t, fs[2..]);
  }

  /** The resource was never synced, or the hash tells what the target holds from what is wanted. */
  ghost predicate Discernible(cfg: Settings, s: Outside, c: ObjectKey, t: ObjectKey)
    requires c in s.clients && ProviderFor(s.authentik, s.clients[c].spec.slug).Some?
  {
    StatusOf(s, c).secretHash == "" ||
    (CanonicalHash.Injective(cfg.digest) && CanonicalHash.Comparable(Wanted(cfg, s, c), Owned(s, t)))
  }

  /** In an agreeing state the comparison is not fooled. */
  lemma {:induction false} AgreeingIsRepairable(cfg: Settings, s: Outside, c: ObjectKey, t: ObjectKey)
    requires c in s.clients && ProviderFor(s.authentik, s.clients[c].spec.slug).Some?
    requires Agreeing(cfg, s, c, t) && Discernible(cfg, s, c, t)
    ensures Repairable(cfg, s, c, t)
  {
    hide Wanted, HashOf, Owned, CanonicalHash.Comparable, CanonicalHash.Injective;
    HashIsNotEmpty(cfg, Wanted(cfg, s, c));
    if StatusOf(s, c).secretHash != "" {
      ComparisonIsTruthful(cfg, s, c, t, Wanted(cfg, s, c));
    }
  }

  /** So runs whose applies are all recorded converge in two reconciles once nothing fails. */
  lemma {:induction false} AgreeingConvergesInTwo(cfg: Settings, w: World, c: ObjectKey, t: ObjectKey, fs: seq<Faults>)
    requires Startable(cfg, w, c, t) && Agreeing(cfg, w.outside, c, t) && Discernible(cfg, w.outside, c, t)
    requires |fs| >= 2 && forall f | f in fs :: Smooth(f)
    ensures Settled(cfg, RunTo(cfg, w, c, Completes(fs[..2])), c, t)
  {
    hide Smooth, Settled, Repairable, Agreeing, Discernible, CanBootstrap, Stranded;
    AgreeingIsRepairable(cfg, w.outside, c, t);
    ConvergesInTwoIff(cfg, w, c, t, fs);
  }

  /** One reconcile of some resource after another. */
  ghost function AfterAll(cfg: Settings, w: World, rs: seq<(ObjectKey, Faults)>): World {
    if rs == [] then w
    else
      var mid := AfterAll(cfg, w, rs[..|rs| - 1]);
      After(cfg, mid, rs[|rs| - 1].0, Complete(rs[|rs| - 1].1))
  }

  /** Without a token, reconciles of whatever resources, however many and however smooth, change nothing at all. */
  lemma {:induction false} StrandedForever(cfg: Settings, w: World, rs: seq<(ObjectKey, Faults)>)
    requires Stranded(cfg, w)
    ensures AfterAll(cfg, w, rs) == w
    ensures rs != [] ==> Done(cfg, AfterAll(cfg, w, rs[..|rs| - 1]), rs[|rs| - 1].0, Complete(rs[|rs| - 1].1)) == []
  {
    if rs != [] {
      StrandedForever(cfg, w, rs[..|rs| - 1]);
    }
  }
}
