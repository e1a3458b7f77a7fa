/** What goes stale and stays so: a target after a lost record, its certificate, a condition after an outage. */
module StaleTargets {
  import opened Wrappers
  import opened Backends
  import opened AuthentikClient
  import opened Reconciler
  import opened SyncSteps
  import opened SyncRuns
  import opened SyncSafety
  import opened StatusVerdicts
  import opened Convergence
  import CanonicalHash
  import Profiles

  // ---------------------------------------------------------------- why returns matter

  /** The apply takes effect, but is not recorded. */
  predicate LosesRecord(f: Faults) {
    f.secretApply.ResponseLost? || (f.secretApply.WriteOk? && f.statusWrite.WriteFailed?)
  }

  /** A sync whose response or status write is lost leaves the new data in the target and the old hash in the status. */
  lemma {:induction false} LostRecord(cfg: Settings, w: World, c: ObjectKey, t: ObjectKey, f: Faults)
    requires Servable(cfg, w.outside, c, t) && LoadedTokenOf(cfg, w) in w.outside.authentik.accepted
    requires SmoothReads(f) && LosesRecord(f)
    requires StoredHash(w, c) != HashOf(cfg, Wanted(cfg, w.outside, c))
    ensures UnrecordedIn(cfg, w, c, t, Complete(f))
    ensures ComparedIn(cfg, w, c, Complete(f)) == Some(Wanted(cfg, w.outside, c))
    ensures var w' := After(cfg, w, c, Complete(f));
            && w'.memory == LoadedTokenOf(cfg, w)
            && SameInputs(w.outside, w'.outside, c) && w'.outside.authentik == w.outside.authentik
  {
    hide SmoothReads, Desired, HashOf, Compared, ReconcilePlan, AppliesIn, UnrecordedIn;
    AcceptedTokenCompares(cfg, w, c, t, f);
    AppliesIff(cfg, w, c, t, f);
    UnrecordedIff(cfg, w, c, t, f);
    ComparedIsSynced(cfg, w.outside, w.memory, c, f);
    QuietInputs(w.outside, ReconcilePlan(cfg, w.outside, w.memory, c, f).effects, c);
  }

  /** The same outside world, with Authentik serving these providers. */
  function Serving(s: Outside, providers: map<string, seq<Provider>>): Outside {
    s.(authentik := s.authentik.(providers := providers))
  }

  /**
   For any two provider states whose wanted data differ by hash: settle on the first, switch to
   the second, lose the record of that sync, switch back.  From then on no number of reconciles
   writes anything, and the target keeps the second state's data.
   */
  lemma {:induction false} ThereAndBackGoesStale(
      cfg: Settings, w: World, c: ObjectKey, t: ObjectKey, providers: map<string, seq<Provider>>,
      f: Faults, gs: seq<Faults>)
    requires Settled(cfg, w, c, t) && Servable(cfg, Serving(w.outside, providers), c, t)
    requires HashOf(cfg, Wanted(cfg, Serving(w.outside, providers), c)) != HashOf(cfg, Wanted(cfg, w.outside, c))
    requires SmoothReads(f) && LosesRecord(f) && forall g | g in gs :: SmoothReads(g)
    ensures var there := World(Serving(w.outside, providers), w.memory);
            var lost := After(cfg, there, c, Complete(f));
            var back := World(Serving(lost.outside, w.outside.authentik.providers), lost.memory);
            && Respects(w.outside, there.outside, c, t) && Respects(lost.outside, back.outside, c, t)
            && SameInputs(w.outside, back.outside, c)
            && RunTo(cfg, back, c, Completes(gs)) == back
            && (forall g | g in gs :: Done(cfg, back, c, Complete(g)) == [])
            && Owned(back.outside, t) == Wanted(cfg, there.outside, c) != Wanted(cfg, back.outside, c)
  {
    hide SmoothReads, Desired, CanonicalHash.Hash, Compared, ReconcilePlan, ProviderFor;
    var there := World(Serving(w.outside, providers), w.memory);
    SameSecretSameData(w.outside, there.outside, t);
    LostRecord(cfg, there, c, t, f);
    var lost := After(cfg, there, c, Complete(f));
    StepOnView(cfg, there, c, t, Complete(f));
    var back := World(Serving(lost.outside, w.outside.authentik.providers), lost.memory);
    SameSecretSameData(lost.outside, back.outside, t);
    assert Wanted(cfg, back.outside, c) == Wanted(cfg, w.outside, c);
    MatchedStaysForever(cfg, back, c, t, gs);
  }

  // ---------------------------------------------------------------- a certificate that cannot be fetched

  /** The provider of the resource `c` in this state. */
  function ProviderOf(s: Outside, c: ObjectKey): Provider
    requires c in s.clients && ProviderFor(s.authentik, s.clients[c].spec.slug).Some?
  {
    ProviderFor(s.authentik, s.clients[c].spec.slug).value
  }

  /** What the target is brought to when the signing certificate cannot be fetched. */
  function WithoutCertificate(cfg: Settings, s: Outside, c: ObjectKey): Data
    requires c in s.clients && ProviderFor(s.authentik, s.clients[c].spec.slug).Some?
  {
    Desired(cfg, s.clients[c].spec, ProviderOf(s, c), None)
  }

  /** The overrides of the resource set both certificate keys to what the certificate would set them to. */
  predicate PinsCertificate(cfg: Settings, s: Outside, c: ObjectKey)
    requires c in s.clients && ProviderFor(s.authentik, s.clients[c].spec.slug).Some?
  {
    var spec, provider := s.clients[c].spec, ProviderOf(s, c);
    Profiles.OverridesPinCert(Profiles.CertLayer(spec.profile, CertificateFor(s.authentik, provider), cfg.base64),
                              spec.overrides, Values(cfg, spec, provider), cfg.render)
  }

  lemma LosingCertificateChangesWanted(cfg: Settings, s: Outside, c: ObjectKey)
    requires c in s.clients && ProviderFor(s.authentik, s.clients[c].spec.slug).Some?
    requires CertificateFor(s.authentik, ProviderOf(s, c)).Some?
    ensures WithoutCertificate(cfg, s, c) == Wanted(cfg, s, c) <==> PinsCertificate(cfg, s, c)
  {
    hide Profiles.SecretData, Profiles.CertLayer, Profiles.OverridesPinCert, Values;
    var spec, provider := s.clients[c].spec, ProviderOf(s, c);
    Profiles.LosingCertKeepsDataIff(spec.profile, Values(cfg, spec, provider), spec.overrides,
                                    CertificateFor(s.authentik, provider).value, cfg.render, cfg.base64);
  }

  /**
   A failing certificate fetch is not harmless.  From a settled state it takes the certificate
   out of the target, unless the overrides pin both of its keys or the hash is fooled.
   */
  lemma {:induction false} LostCertificateIsAppliedIff(cfg: Settings, w: World, c: ObjectKey, t: ObjectKey, f: Faults)
    requires Settled(cfg, w, c, t)
    requires CertificateFor(w.outside.authentik, ProviderOf(w.outside, c)).Some?
    requires SmoothLookup(f) && !f.certificate.Delivered? && !f.secretApply.WriteFailed?
    ensures var applies, less := AppliesIn(cfg, w, c, t, Complete(f)), WithoutCertificate(cfg, w.outside, c);
            && (applies <==> HashOf(cfg, less) != HashOf(cfg, Wanted(cfg, w.outside, c)))
            && (applies ==> Owned(After(cfg, w, c, Complete(f)).outside, t) == less)
            && (applies ==> !PinsCertificate(cfg, w.outside, c))
            && (CanonicalHash.Injective(cfg.digest) && CanonicalHash.Comparable(less, Wanted(cfg, w.outside, c)) ==>
                  (applies <==> !PinsCertificate(cfg, w.outside, c)))
  {
    hide Desired, CanonicalHash.Comparable, CanonicalHash.Injective, CanonicalHash.Hash, Owned, Replay;
    hide ReconcilePlan, Compared, PinsCertificate, SmoothLookup;
    var s, less, wanted := w.outside, WithoutCertificate(cfg, w.outside, c), Wanted(cfg, w.outside, c);
    LookupCompares(cfg, w, c, t, f);
    assert Compared(cfg, s, w.memory, c, f) == Some(less);
    LosingCertificateChangesWanted(cfg, s, c);
    if CanonicalHash.Injective(cfg.digest) && CanonicalHash.Comparable(less, wanted) {
      CanonicalHash.HashIsInjective(less, wanted, cfg.digest);
    }
    StepOnView(cfg, w, c, t, Complete(f));
    AppliesIff(cfg, w, c, t, f);
  }

  // ---------------------------------------------------------------- a condition after an outage

  /** An outage, seen by one reconcile: Authentik gives no answer, and the report of it is not lost. */
  predicate Outage(f: Faults) {
    f.tokenRead.ReadOk? && f.clientRead.ReadOk? && f.application.Lost? && !f.statusWrite.WriteFailed?
  }

  lemma OutagePlan(cfg: Settings, w: World, c: ObjectKey, t: ObjectKey, f: Faults)
    requires Matched(cfg, w, c, t) && Outage(f)
    ensures var plan := ReconcilePlan(cfg, w.outside, w.memory, c, f);
            && plan.memory == w.memory
            && plan.effects == [PutStatus(c, With(StatusOf(w.outside, c), AuthentikProviderFound, false))]
  {
    hide Sync, Desired, SetCondition, Refresh;
  }

  /**
   A reconcile during an outage reports that no provider was found, and leaves the state
   settled.  When Authentik is back, no number of reconciles withdraws the report.
   */
  lemma {:induction false} OutageLeavesStaleCondition(
      cfg: Settings, w: World, c: ObjectKey, t: ObjectKey, f: Faults, gs: seq<Faults>)
    requires Settled(cfg, w, c, t) && DistinctKinds(StatusOf(w.outside, c).conditions)
    requires Outage(f) && forall g | g in gs :: Smooth(g)
    ensures var w1 := After(cfg, w, c, Complete(f));
            && Settled(cfg, w1, c, t)
            && RunTo(cfg, w1, c, Completes(gs)) == w1
            && VerdictOf(StatusOf(w1.outside, c), AuthentikProviderFound) == Some(false)
  {
    hide ReconcilePlan, HashOf, SetCondition, Desired, SmoothReads, SmoothBoot, OwnedData;
    var st := With(StatusOf(w.outside, c), AuthentikProviderFound, false);
    OutagePlan(cfg, w, c, t, f);
    ReplayOne(w.outside, PutStatus(c, st));
    SetConditionIs(StatusOf(w.outside, c).conditions, Condition(AuthentikProviderFound, false));
    MatchedStaysForever(cfg, After(cfg, w, c, Complete(f)), c, t, gs);
  }
}
