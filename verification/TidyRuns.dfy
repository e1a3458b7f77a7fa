/**
 The hash tells apart whatever the profiles build from inputs without line breaks.  So for
 such inputs the theorems about runs hold without any condition on the data itself.
 */
module TidyRuns {
  import opened Wrappers
  import opened Backends
  import opened Reconciler
  import opened SyncSteps
  import opened SyncRuns
  import opened Convergence
  import opened StaleTargets
  import AuthentikClient
  import CanonicalHash
  import OidcValues
  import ProfileHash
  import Profiles
  import RedirectUris
  import Text

  /** Nothing that goes into the data has a line break, except a certificate. */
  predicate TidySource(cfg: Settings, spec: Spec, provider: Provider) {
    var uris := RedirectUris.KeptUris(provider.redirectUris);
    && CanonicalHash.SingleLine(cfg.authentikUrl) && CanonicalHash.SingleLine(spec.slug)
    && CanonicalHash.SingleLine(provider.clientId) && CanonicalHash.SingleLine(provider.clientSecret)
    && (uris != [] ==> CanonicalHash.SingleLine(uris[0]))
    && ProfileHash.TidyOverrides(spec.overrides, Values(cfg, spec, provider), cfg.render)
  }

  lemma JoinedLine(a: string, b: string)
    requires CanonicalHash.SingleLine(a) && CanonicalHash.SingleLine(b)
    ensures CanonicalHash.SingleLine(a + b)
  {
  }

  lemma TrimmedLine(s: string)
    requires CanonicalHash.SingleLine(s)
    ensures CanonicalHash.SingleLine(Text.TrimRight(s, '/'))
  {
    assert forall c | c in Text.TrimRight(s, '/') :: c in s;
  }

  lemma UrlPartsAreSingleLine()
    ensures CanonicalHash.SingleLine("/application/o/authorize/") && CanonicalHash.SingleLine("/application/o/token/")
    ensures CanonicalHash.SingleLine("/application/o/userinfo/") && CanonicalHash.SingleLine("/application/o/")
    ensures CanonicalHash.SingleLine("/") && CanonicalHash.SingleLine("/end-session/")
    ensures CanonicalHash.SingleLine("openid email profile")
  {
  }

  lemma BuiltUrlsAreSingleLine(cfg: Settings, spec: Spec, provider: Provider)
    requires TidySource(cfg, spec, provider)
    ensures ProfileHash.SingleLines(Values(cfg, spec, provider))
  {
    hide RedirectUris.KeptUris, ProfileHash.TidyOverrides, CanonicalHash.SingleLine, Text.TrimRight;
    var base, slug := Text.TrimRight(cfg.authentikUrl, '/'), spec.slug;
    TrimmedLine(cfg.authentikUrl);
    UrlPartsAreSingleLine();
    JoinedLine(base, "/application/o/authorize/");
    JoinedLine(base, "/application/o/token/");
    JoinedLine(base, "/application/o/userinfo/");
    JoinedLine(base, "/application/o/");
    JoinedLine(base + "/application/o/", slug);
    JoinedLine(base + "/application/o/" + slug, "/");
    JoinedLine(base + "/application/o/" + slug, "/end-session/");
  }

  /** Some tidy source and certificate give the data; no line of the certificate starts like an entry of `other`. */
  ghost predicate Gives(
      cfg: Settings, spec: Spec, provider: Provider, cert: Option<OidcValues.SigningCert>, data: Data, other: Data)
  {
    && TidySource(cfg, spec, provider)
    && data == Desired(cfg, spec, provider, cert)
    && ProfileHash.CertHidesNoEntry(spec.profile, cert, cfg.base64, other)
  }

  ghost predicate BuiltApart(cfg: Settings, data: Data, other: Data) {
    exists spec, provider, cert :: Gives(cfg, spec, provider, cert, data, other)
  }

  lemma GivenIsTidy(
      cfg: Settings, spec: Spec, provider: Provider, cert: Option<OidcValues.SigningCert>, data: Data, other: Data)
    requires Gives(cfg, spec, provider, cert, data, other)
    ensures CanonicalHash.TidyAgainst(data, other)
  {
    hide TidySource, Profiles.SecretData, ProfileHash.CertHidesNoEntry, CanonicalHash.TidyAgainst, Values;
    BuiltUrlsAreSingleLine(cfg, spec, provider);
    TidyOverrides(cfg, spec, provider);
    ProfileHash.SecretDataIsTidy(
      spec.profile, Values(cfg, spec, provider), spec.overrides, cert, cfg.render, cfg.base64, other);
  }

  lemma TidyOverrides(cfg: Settings, spec: Spec, provider: Provider)
    requires TidySource(cfg, spec, provider)
    ensures ProfileHash.TidyOverrides(spec.overrides, Values(cfg, spec, provider), cfg.render)
  {
  }

  /** Any two data that profiles build from tidy sources can be told apart by the hash. */
  lemma {:induction false} BuiltDataIsComparable(cfg: Settings, a: Data, b: Data)
    requires BuiltApart(cfg, a, b) && BuiltApart(cfg, b, a)
    ensures CanonicalHash.Comparable(a, b)
  {
    hide Gives, CanonicalHash.TidyAgainst, CanonicalHash.Comparable;
    var spec, provider, cert :| Gives(cfg, spec, provider, cert, a, b);
    GivenIsTidy(cfg, spec, provider, cert, a, b);
    var spec', provider', cert' :| Gives(cfg, spec', provider', cert', b, a);
    GivenIsTidy(cfg, spec', provider', cert', b, a);
    CanonicalHash.TidyMapsAreComparable(a, b);
  }

  /** All versions are built from tidy sources, with certificates that imitate no entry of another version. */
  ghost predicate AllBuiltApart(cfg: Settings, versions: seq<Data>) {
    forall i, j :: 0 <= i < |versions| && 0 <= j < |versions| ==> BuiltApart(cfg, versions[i], versions[j])
  }

  /** Without a return, and with an injective digest, equal hashes mean a current target. */
  lemma {:induction false} TidyRunsAreSound(
      cfg: Settings, w: World, c: ObjectKey, t: ObjectKey, steps: seq<Step>, versions: seq<Data>, desired: Data)
    requires Watched(cfg, w.outside, c, t) && ValidRun(cfg, w, c, t, steps)
    requires Squeezed(cfg, w.outside, c, t, versions) && CanonicalHash.Injective(cfg.digest)
    requires var all := versions + History(cfg, w, c, steps) + [desired]; NeverReturns(all) && AllBuiltApart(cfg, all)
    requires var s := RunTo(cfg, w, c, steps).outside;
             c in s.clients && StatusOf(s, c).secretHash == HashOf(cfg, desired)
    ensures Owned(RunTo(cfg, w, c, steps).outside, t) == desired
  {
    hide BuiltApart, CanonicalHash.Comparable, CanonicalHash.Injective, RunTo, Owned, HashOf, NeverReturns;
    hide Squeezed, Watched;
    hide ValidRun, History;
    var all := versions + History(cfg, w, c, steps) + [desired];
    forall i, j | 0 <= i < |all| && 0 <= j < |all| ensures CanonicalHash.Comparable(all[i], all[j]) {
      BuiltDataIsComparable(cfg, all[i], all[j]);
    }
    WithoutReturnComparisonIsSound(cfg, w, c, t, steps, versions, desired);
  }

  /** An agreeing resource converges if what its target holds and what is wanted were both built from tidy sources. */
  lemma {:induction false} TidyResourceConvergesInTwo(
      cfg: Settings, w: World, c: ObjectKey, t: ObjectKey, fs: seq<Faults>)
    requires Startable(cfg, w, c, t) && Agreeing(cfg, w.outside, c, t) && CanonicalHash.Injective(cfg.digest)
    requires BuiltApart(cfg, Wanted(cfg, w.outside, c), Owned(w.outside, t))
    requires BuiltApart(cfg, Owned(w.outside, t), Wanted(cfg, w.outside, c))
    requires |fs| >= 2 && forall f | f in fs :: Smooth(f)
    ensures Settled(cfg, RunTo(cfg, w, c, Completes(fs[..2])), c, t)
  {
    hide Smooth, Settled, BuiltApart, CanonicalHash.Comparable, CanonicalHash.Injective, Agreeing, Wanted;
    hide Owned, CanBootstrap, Stranded;
    BuiltDataIsComparable(cfg, Wanted(cfg, w.outside, c), Owned(w.outside, t));
    AgreeingConvergesInTwo(cfg, w, c, t, fs);
  }

  /**
   With a tidy source, a certificate that cannot be fetched is taken out of the target unless the
   overrides pin it.
   */
  lemma {:induction false} TidyCertificateIsLostIff(cfg: Settings, w: World, c: ObjectKey, t: ObjectKey, f: Faults)
    requires Settled(cfg, w, c, t) && CanonicalHash.Injective(cfg.digest)
    requires TidySource(cfg, w.outside.clients[c].spec, ProviderOf(w.outside, c))
    requires CertificateFor(w.outside.authentik, ProviderOf(w.outside, c)).Some?
    requires ProfileHash.CertHidesNoEntry(
               w.outside.clients[c].spec.profile, CertificateFor(w.outside.authentik, ProviderOf(w.outside, c)),
               cfg.base64, WithoutCertificate(cfg, w.outside, c))
    requires SmoothLookup(f) && !f.certificate.Delivered? && !f.secretApply.WriteFailed?
    ensures AppliesIn(cfg, w, c, t, Complete(f)) <==> !PinsCertificate(cfg, w.outside, c)
  {
    hide Desired, TidySource, HashOf, Owned, AppliesIn, PinsCertificate, CanonicalHash.Injective;
    hide CanonicalHash.Comparable, SmoothLookup;
    hide CertificateFor, After, AuthentikClient.ProviderFor;
    var s := w.outside;
    var spec, provider := s.clients[c].spec, ProviderOf(s, c);
    var less, wanted := WithoutCertificate(cfg, s, c), Wanted(cfg, s, c);
    assert Gives(cfg, spec, provider, CertificateFor(s.authentik, provider), wanted, less);
    assert Gives(cfg, spec, provider, None, less, wanted);
    BuiltDataIsComparable(cfg, less, wanted);
    LostCertificateIsAppliedIff(cfg, w, c, t, f);
  }
}
