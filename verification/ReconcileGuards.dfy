/**
 What a reconcile does, by guards alone: for every state and every outcome of its calls, how
 far it gets, what it returns, which effects it has and in what order, and whether it touches
 the token.
 */
module ReconcileGuards {
  import opened Wrappers
  import opened Backends
  import opened AuthentikClient
  import opened Reconciler
  import opened SyncSteps
  import opened SyncRuns
  import opened Convergence
  import opened StatusVerdicts
  import Bootstrap
  import SyncSafety
  import TokenStore

  // ---------------------------------------------------------------- guards

  /** There is a token in memory or in the token secret, or the operator runs without a token secret. */
  predicate Starts(cfg: Settings, s: Outside, memory: string, f: Faults) {
    || cfg.tokenSecretName == ""
    || memory != ""
    || (f.tokenRead.ReadOk? && TokenKey(cfg) in s.secrets && FieldValue(s.secrets[TokenKey(cfg)], "token") != "")
  }

  /** The resource is there, and its provider is looked up. */
  predicate LooksUp(cfg: Settings, s: Outside, memory: string, c: ObjectKey, f: Faults) {
    Starts(cfg, s, memory, f) && f.clientRead.ReadOk? && c in s.clients
  }

  /** The look-up is answered with 401 or 403. */
  predicate Refused(cfg: Settings, s: Outside, memory: string, c: ObjectKey, f: Faults) {
    && LooksUp(cfg, s, memory, c, f)
    && LookupRefused(s.authentik, LoadedToken(cfg, s, memory, f), s.clients[c].spec.slug, f.application, f.providers)
  }

  /** The look-up yields a provider. */
  predicate Served(cfg: Settings, s: Outside, memory: string, c: ObjectKey, f: Faults) {
    && LooksUp(cfg, s, memory, c, f)
    && LookupServed(s.authentik, LoadedToken(cfg, s, memory, f), s.clients[c].spec.slug, f.application, f.providers)
  }

  /** Bootstrapping is configured, and the bootstrap secret could be read and holds a token. */
  predicate CanRefresh(cfg: Settings, s: Outside, f: Faults) {
    var key := ObjectKey(cfg.namespace, cfg.bootstrapSecretName);
    && cfg.bootstrapSecretName != "" && f.bootstrapRead.ReadOk?
    && key in s.secrets && FieldValue(s.secrets[key], cfg.bootstrapSecretKey) != ""
  }

  /** The data that is compared: what the provider and its certificate ask for, if that could be fetched. */
  function DataInHand(cfg: Settings, s: Outside, c: ObjectKey, f: Faults): Data
    requires c in s.clients && ProviderFor(s.authentik, s.clients[c].spec.slug).Some?
  {
    var spec := s.clients[c].spec;
    var provider := ProviderFor(s.authentik, spec.slug).value;
    Desired(cfg, spec, provider, if f.certificate.Delivered? then CertificateFor(s.authentik, provider) else None)
  }

  /** The compared data differs by hash from what was recorded. */
  ghost predicate Differs(cfg: Settings, s: Outside, memory: string, c: ObjectKey, f: Faults) {
    Served(cfg, s, memory, c, f) && HashOf(cfg, DataInHand(cfg, s, c, f)) != StatusOf(s, c).secretHash
  }

  /** And it was applied, as far as the operator can tell. */
  ghost predicate Acknowledged(cfg: Settings, s: Outside, memory: string, c: ObjectKey, f: Faults) {
    Differs(cfg, s, memory, c, f) && f.secretApply.WriteOk?
  }

  lemma StartsIff(cfg: Settings, s: Outside, memory: string, f: Faults)
    ensures Starts(cfg, s, memory, f) <==> LoadedToken(cfg, s, memory, f) != "" || cfg.tokenSecretName == ""
  {
  }

  /** A reconcile compares data exactly when its look-up is served, and then just that data. */
  lemma {:induction false} ComparesIff(cfg: Settings, s: Outside, memory: string, c: ObjectKey, f: Faults)
    ensures Compared(cfg, s, memory, c, f)
         == if Served(cfg, s, memory, c, f) then Some(DataInHand(cfg, s, c, f)) else None
  {
    hide Desired, FetchProvider, LookupServed, LookupRefused, LookupEmpty, Starts, LoadedToken;
    StartsIff(cfg, s, memory, f);
    if c in s.clients {
      var bearer, slug := LoadedToken(cfg, s, memory, f), s.clients[c].spec.slug;
      FetchClassifies(s.authentik, bearer, slug, f.application, f.providers);
      if LookupServed(s.authentik, bearer, slug, f.application, f.providers) {
        ServedMeansAccepted(s.authentik, bearer, slug, f.application, f.providers);
      }
    }
  }

  lemma ServedMeansAccepted(a: Authentik, bearer: string, slug: string, first: Transport, second: Transport)
    requires LookupServed(a, bearer, slug, first, second)
    ensures bearer in a.accepted && ProviderFor(a, slug).Some?
  {
  }

  // ---------------------------------------------------------------- the three ways of a reconcile

  /** It stops before the look-up. */
  lemma StopsEarly(cfg: Settings, s: Outside, memory: string, c: ObjectKey, f: Faults)
    requires !LooksUp(cfg, s, memory, c, f)
    ensures var plan := ReconcilePlan(cfg, s, memory, c, f);
            && plan.effects == [] && plan.memory == LoadedToken(cfg, s, memory, f)
            && plan.result == if !Starts(cfg, s, memory, f) then Requeue
                              else if f.clientRead.ReadFailed? then Retry
                              else Finished
  {
    hide Starts, LoadedToken;
    StartsIff(cfg, s, memory, f);
  }

  /** It gets no provider. */
  lemma FailsToLookUp(cfg: Settings, s: Outside, memory: string, c: ObjectKey, f: Faults)
    requires LooksUp(cfg, s, memory, c, f) && !Served(cfg, s, memory, c, f)
    ensures ReconcilePlan(cfg, s, memory, c, f)
         == FailurePlan(cfg, s, LoadedToken(cfg, s, memory, f), c, StatusOf(s, c), Refused(cfg, s, memory, c, f), f)
  {
    hide Starts, LoadedToken, FetchProvider, LookupServed, LookupRefused, LookupEmpty, FailurePlan;
    StartsIff(cfg, s, memory, f);
    FetchClassifies(s.authentik, LoadedToken(cfg, s, memory, f), s.clients[c].spec.slug, f.application, f.providers);
  }

  /** It compares. */
  lemma GetsToCompare(cfg: Settings, s: Outside, memory: string, c: ObjectKey, f: Faults)
    requires Served(cfg, s, memory, c, f)
    ensures ProviderFor(s.authentik, s.clients[c].spec.slug).Some?
    ensures var plan := ReconcilePlan(cfg, s, memory, c, f);
            var st := With(StatusOf(s, c), AuthentikProviderFound, true);
            var sync := Sync(cfg, s, c, s.clients[c].spec, st, DataInHand(cfg, s, c, f), f);
            && plan == Plan(sync.effects, LoadedToken(cfg, s, memory, f), sync.result)
            && st.secretHash == StatusOf(s, c).secretHash
  {
    hide Starts, LoadedToken, FetchProvider, LookupServed, LookupRefused, LookupEmpty, Sync, SetCondition, Desired;
    var bearer, slug := LoadedToken(cfg, s, memory, f), s.clients[c].spec.slug;
    ServedMeansAccepted(s.authentik, bearer, slug, f.application, f.providers);
    StartsIff(cfg, s, memory, f);
    ComparesIff(cfg, s, memory, c, f);
    FetchClassifies(s.authentik, LoadedToken(cfg, s, memory, f), s.clients[c].spec.slug, f.application, f.providers);
  }

  // ---------------------------------------------------------------- results

  lemma RefreshOkIff(cfg: Settings, s: Outside, memory: string, f: Faults)
    ensures Refresh(cfg, s, memory, f).ok <==> CanRefresh(cfg, s, f) && Refresh(cfg, s, memory, f).memory != ""
    ensures !CanRefresh(cfg, s, f) ==>
              Refresh(cfg, s, memory, f).effects == [] && Refresh(cfg, s, memory, f).memory == memory
  {
    hide Bootstrap.Run, Replay;
  }

  lemma SyncResult(cfg: Settings, s: Outside, c: ObjectKey, spec: Spec, st: Status, data: Data, f: Faults)
    ensures Sync(cfg, s, c, spec, st, data, f).result
         == if HashOf(cfg, data) != st.secretHash && f.secretApply.WriteOk? && !f.statusWrite.WriteOk? then Retry
            else Requeue
  {
    hide HashOf, SetCondition, Replay, ConfigMapPart, RolloutPart;
  }

  /**
   What is returned.  A reconcile is finished with a resource exactly when that does not exist;
   it fails, to be retried at once, exactly when the resource could not be read, or when data was
   applied and could not be recorded; it goes on at once exactly when the token was refused and
   a new one is in memory; in all other cases it comes back after the interval.
   */
  lemma {:induction false} ResultIs(cfg: Settings, s: Outside, memory: string, c: ObjectKey, f: Faults)
    ensures var plan := ReconcilePlan(cfg, s, memory, c, f);
            plan.result
              == if Starts(cfg, s, memory, f) && f.clientRead.ReadOk? && c !in s.clients then Finished
                 else if || (Starts(cfg, s, memory, f) && f.clientRead.ReadFailed?)
                         || (Acknowledged(cfg, s, memory, c, f) && !f.statusWrite.WriteOk?) then Retry
                 else if Refused(cfg, s, memory, c, f) && CanRefresh(cfg, s, f) && plan.memory != "" then RequeueNow
                 else Requeue
  {
    hide ReconcilePlan, Starts, Desired, HashOf, Sync, Refresh, CanRefresh, LookupServed, LookupRefused;
    if !LooksUp(cfg, s, memory, c, f) {
      StopsEarly(cfg, s, memory, c, f);
    } else if !Served(cfg, s, memory, c, f) {
      FailsToLookUp(cfg, s, memory, c, f);
      RefreshOkIff(cfg, s, LoadedToken(cfg, s, memory, f), f);
    } else {
      GetsToCompare(cfg, s, memory, c, f);
      var st := With(StatusOf(s, c), AuthentikProviderFound, true);
      SyncResult(cfg, s, c, s.clients[c].spec, st, DataInHand(cfg, s, c, f), f);
      var bearer, slug := LoadedToken(cfg, s, memory, f), s.clients[c].spec.slug;
      ServedIsNotRefused(s.authentik, bearer, slug, f.application, f.providers);
    }
  }

  lemma ServedIsNotRefused(a: Authentik, bearer: string, slug: string, first: Transport, second: Transport)
    ensures LookupServed(a, bearer, slug, first, second) ==> !LookupRefused(a, bearer, slug, first, second)
  {
  }

  /** Over any run, no reconcile is ever finished with a resource that exists. */
  lemma {:induction false} ExistingIsNeverFinished(
      cfg: Settings, w: World, c: ObjectKey, t: ObjectKey, steps: seq<Step>, f: Faults)
    requires Watched(cfg, w.outside, c, t) && ValidRun(cfg, w, c, t, steps)
    ensures var w' := RunTo(cfg, w, c, steps); ReconcilePlan(cfg, w'.outside, w'.memory, c, f).result != Finished
  {
    hide ReconcilePlan, RunTo, Starts, Acknowledged, Refused;
    var w' := RunTo(cfg, w, c, steps);
    RunStaysWatched(cfg, w, c, t, steps);
    ResultIs(cfg, w'.outside, w'.memory, c, f);
  }

  // ---------------------------------------------------------------- the token

  /** Unless it is refused, the token in memory stays, and no effect concerns a token. */
  lemma {:induction false} UnrefusedTokenStays(
      cfg: Settings, s: Outside, memory: string, c: ObjectKey, t: ObjectKey, f: Faults)
    requires t != TokenKey(cfg) && (c in s.clients ==> s.clients[c].spec.target == t)
    requires !Refused(cfg, s, memory, c, f) || !CanRefresh(cfg, s, f)
    ensures var plan := ReconcilePlan(cfg, s, memory, c, f);
            && plan.memory == LoadedToken(cfg, s, memory, f)
            && (forall e | e in plan.effects :: !TokenEffect(e, TokenKey(cfg)))
  {
    hide ReconcilePlan, Starts, Desired, HashOf, Sync, Refresh, CanRefresh, LookupServed, LookupRefused, LoadedToken;
    if !LooksUp(cfg, s, memory, c, f) {
      StopsEarly(cfg, s, memory, c, f);
    } else if !Served(cfg, s, memory, c, f) {
      FailsToLookUp(cfg, s, memory, c, f);
      RefreshOkIff(cfg, s, LoadedToken(cfg, s, memory, f), f);
    } else {
      GetsToCompare(cfg, s, memory, c, f);
      var st := With(StatusOf(s, c), AuthentikProviderFound, true);
      SyncIsNoTokenWork(cfg, s, c, s.clients[c].spec, st, DataInHand(cfg, s, c, f), f);
    }
  }

  lemma SyncIsNoTokenWork(cfg: Settings, s: Outside, c: ObjectKey, spec: Spec, st: Status, data: Data, f: Faults)
    requires spec.target != TokenKey(cfg)
    ensures forall e | e in Sync(cfg, s, c, spec, st, data, f).effects :: !TokenEffect(e, TokenKey(cfg))
  {
    hide Publish, HashOf, SetCondition;
    var apply := Written(f.secretApply, ApplySecret(spec.target, data));
    PublishShape(Replay(s, apply), c, spec, st, data, HashOf(cfg, data), f);
  }

  /** A refresh gets a new token exactly when its bootstrap run succeeds and the new secret can be read. */
  lemma {:induction false} RefreshSucceedsIff(cfg: Settings, s: Outside, memory: string, f: Faults)
    requires TokenStore.KeysAreTokenLike(s.authentik, f.boot)
    ensures Refresh(cfg, s, memory, f).ok <==>
              && CanRefresh(cfg, s, f)
              && TokenStore.RunSucceeds(s, BootConfig(cfg, BootstrapToken(cfg, s, f)), f.boot)
              && f.reload.ReadOk?
  {
    hide Bootstrap.Run, TokenStore.RunSucceeds, TokenStore.KeysAreTokenLike, Replay;
    if CanRefresh(cfg, s, f) {
      var bcfg := BootConfig(cfg, BootstrapToken(cfg, s, f));
      TokenStore.RunOkIff(s, bcfg, f.boot);
      if Bootstrap.Run(s, bcfg, f.boot).ok {
        TokenStore.RunHoldsStoredKey(s, bcfg, f.boot);
      }
    }
  }

  // ---------------------------------------------------------------- effects

  lemma PublishedRestarts(s: Outside, c: ObjectKey, spec: Spec, st: Status, data: Data, hash: string, f: Faults)
    ensures var es := Publish(s, c, spec, st, data, hash, f).effects;
            && (forall e | e in es && e.Annotate? ::
                  e.name == "auth.kettleofketchup/secret-hash" && e.value == hash && WantsRestart(spec, e.ref))
            && (forall ref :: WantsRestart(spec, ref) ==>
                  ((exists e :: e in es && e.Annotate?) <==> CanRestart(s, ref, f) && !f.rolloutPatch.WriteFailed?))
  {
    hide Replay, SetCondition;
    var cm := ConfigMapPart(s, spec, data, f);
    SyncedWorkloads(s, spec, data, f);
    var ro := RolloutPart(Replay(s, cm.effects), spec, hash, f);
    var es := Publish(s, c, spec, st, data, hash, f).effects;
    if ro.effects != [] { assert ro.effects[0] in es; }
  }

  lemma SyncedWorkloads(s: Outside, spec: Spec, data: Data, f: Faults)
    ensures Replay(s, ConfigMapPart(s, spec, data, f).effects).workloads == s.workloads
  {
    ConfigMapLands(s, spec, data, f);
  }

  /**
   A workload is restarted exactly when data was applied, the restart is enabled and of this
   workload, that is a Deployment or a StatefulSet which could be read, and its patch takes
   effect.  The annotation is then the hash of the applied data.
   */
  lemma {:induction false} RestartsIff(
      cfg: Settings, s: Outside, memory: string, c: ObjectKey, f: Faults, ref: WorkloadRef)
    ensures var es := ReconcilePlan(cfg, s, memory, c, f).effects;
            && ((exists e :: e in es && e.Annotate? && e.ref == ref) <==>
                  && Acknowledged(cfg, s, memory, c, f)
                  && WantsRestart(s.clients[c].spec, ref) && CanRestart(s, ref, f) && !f.rolloutPatch.WriteFailed?)
            && (forall e | e in es && e.Annotate? ::
                  && Served(cfg, s, memory, c, f)
                  && e.name == "auth.kettleofketchup/secret-hash" && e.value == HashOf(cfg, DataInHand(cfg, s, c, f)))
  {
    hide ReconcilePlan, Starts, HashOf, Refresh, LookupServed, LookupRefused, LoadedToken, DataInHand, Publish;
    hide CanRestart, WantsRestart, SetCondition, Perform;
    var es := ReconcilePlan(cfg, s, memory, c, f).effects;
    if !LooksUp(cfg, s, memory, c, f) {
      StopsEarly(cfg, s, memory, c, f);
    } else if !Served(cfg, s, memory, c, f) {
      FailsToLookUp(cfg, s, memory, c, f);
      RefreshIsTokenWork(cfg, s, LoadedToken(cfg, s, memory, f), f);
    } else {
      GetsToCompare(cfg, s, memory, c, f);
      var spec, data, hash := s.clients[c].spec, DataInHand(cfg, s, c, f), HashOf(cfg, DataInHand(cfg, s, c, f));
      var st := With(StatusOf(s, c), AuthentikProviderFound, true);
      var s1 := Replay(s, [ApplySecret(spec.target, data)]);
      PublishedRestarts(s1, c, spec, st, data, hash, f);
      ApplyTouchesSecrets(s, spec.target, data);
      SameCanRestart(s, s1, ref, f);
      SameWantsRestart(spec, ref);
    }
  }

  lemma SameCanRestart(s: Outside, s': Outside, ref: WorkloadRef, f: Faults)
    requires s'.workloads == s.workloads
    ensures CanRestart(s', ref, f) <==> CanRestart(s, ref, f)
  {
  }

  lemma SameWantsRestart(spec: Spec, ref: WorkloadRef)
    ensures WantsRestart(spec, ref) ==> forall other :: WantsRestart(spec, other) ==> other == ref
  {
  }

  /**
   A ConfigMap is written exactly when data was applied that has its source key, the ConfigMap
   could be read, and the update takes effect.
   */
  lemma {:induction false} ConfigMapIsWrittenIff(cfg: Settings, s: Outside, memory: string, c: ObjectKey, f: Faults)
    ensures var es := ReconcilePlan(cfg, s, memory, c, f).effects;
            (exists e :: e in es && e.PutConfigMap?) <==>
              && Acknowledged(cfg, s, memory, c, f)
              && WantsConfigMap(s.clients[c].spec, DataInHand(cfg, s, c, f))
              && f.configMapRead.ReadOk? && s.clients[c].spec.configMap.value.key in s.configMaps
              && !f.configMapUpdate.WriteFailed?
  {
    hide ReconcilePlan, Starts, HashOf, Refresh, LookupServed, LookupRefused, LoadedToken, DataInHand;
    hide SetCondition, Perform, RolloutPart;
    var es := ReconcilePlan(cfg, s, memory, c, f).effects;
    if !LooksUp(cfg, s, memory, c, f) {
      StopsEarly(cfg, s, memory, c, f);
    } else if !Served(cfg, s, memory, c, f) {
      FailsToLookUp(cfg, s, memory, c, f);
      RefreshIsTokenWork(cfg, s, LoadedToken(cfg, s, memory, f), f);
    } else {
      GetsToCompare(cfg, s, memory, c, f);
      var spec, data := s.clients[c].spec, DataInHand(cfg, s, c, f);
      ApplyTouchesSecrets(s, spec.target, data);
      PublishedConfigMaps(Replay(s, [ApplySecret(spec.target, data)]), c, spec,
                          With(StatusOf(s, c), AuthentikProviderFound, true), data, HashOf(cfg, data), f);
    }
  }

  lemma PublishedConfigMaps(s: Outside, c: ObjectKey, spec: Spec, st: Status, data: Data, hash: string, f: Faults)
    ensures var es := Publish(s, c, spec, st, data, hash, f).effects;
            (exists e :: e in es && e.PutConfigMap?) <==>
              && WantsConfigMap(spec, data)
              && f.configMapRead.ReadOk? && spec.configMap.value.key in s.configMaps && !f.configMapUpdate.WriteFailed?
  {
    hide Replay, SetCondition;
    var cm, es := ConfigMapPart(s, spec, data, f), Publish(s, c, spec, st, data, hash, f).effects;
    if cm.effects != [] { assert cm.effects[0] in es; }
  }

  /** Secrets and tokens first, then the ConfigMap, then the workload, and the status last. */
  function Rank(e: Effect): nat {
    match e
    case PutConfigMap(_, _) => 1
    case Annotate(_, _, _) => 2
    case PutStatus(_, _) => 3
    case _ => 0
  }

  /** The ranks go up, and of each above 0 there is at most one. */
  ghost predicate InOrder(es: seq<Effect>) {
    forall i, j :: 0 <= i < j < |es| ==> Rank(es[i]) < Rank(es[j]) || Rank(es[i]) == Rank(es[j]) == 0
  }

  lemma OrderedConcat(a: seq<Effect>, b: seq<Effect>, n: nat)
    requires InOrder(a) && InOrder(b)
    requires (forall e | e in a :: Rank(e) < n || Rank(e) == 0) && (forall e | e in b :: Rank(e) >= n)
    ensures InOrder(a + b)
  {
    hide Rank;
    var es := a + b;
    forall i, j | 0 <= i < j < |es| ensures Rank(es[i]) < Rank(es[j]) || Rank(es[i]) == Rank(es[j]) == 0 {
      if i < |a| { assert es[i] in a; }
      if j >= |a| { assert es[j] in b; }
    }
  }

  lemma PublishInOrder(s: Outside, c: ObjectKey, spec: Spec, st: Status, data: Data, hash: string, f: Faults)
    ensures var es := Publish(s, c, spec, st, data, hash, f).effects;
            InOrder(es) && forall e | e in es :: Rank(e) >= 1
  {
    hide Replay, SetCondition, InOrder;
    var cm := ConfigMapPart(s, spec, data, f);
    var ro := RolloutPart(Replay(s, cm.effects), spec, hash, f);
    var last := Written(f.statusWrite, PutStatus(c, SyncedStatus(st, cm, ro, hash)));
    ShortInOrder(cm.effects);
    ShortInOrder(ro.effects);
    ShortInOrder(last);
    OrderedConcat(ro.effects, last, 3);
    OrderedConcat(cm.effects, ro.effects + last, 2);
  }

  lemma ShortInOrder(es: seq<Effect>)
    requires |es| <= 1 || forall e | e in es :: Rank(e) == 0
    ensures InOrder(es)
  {
  }

  lemma TokenWorkRank(es: seq<Effect>, tokenKey: ObjectKey)
    requires forall e | e in es :: TokenEffect(e, tokenKey)
    ensures forall e | e in es :: Rank(e) == 0
  {
  }

  /** In every reconcile the effects come in order. */
  lemma {:induction false} EffectsAreInOrder(cfg: Settings, s: Outside, memory: string, c: ObjectKey, f: Faults)
    ensures InOrder(ReconcilePlan(cfg, s, memory, c, f).effects)
  {
    hide ReconcilePlan, Starts, HashOf, Refresh, LookupServed, LookupRefused, LoadedToken, DataInHand, Publish;
    hide SetCondition, Perform, Replay, InOrder;
    var es := ReconcilePlan(cfg, s, memory, c, f).effects;
    if !LooksUp(cfg, s, memory, c, f) {
      StopsEarly(cfg, s, memory, c, f);
      ShortInOrder(es);
    } else if !Served(cfg, s, memory, c, f) {
      FailsToLookUp(cfg, s, memory, c, f);
      var bearer := LoadedToken(cfg, s, memory, f);
      var refreshed := if Refused(cfg, s, memory, c, f) then Refresh(cfg, s, bearer, f).effects else [];
      var report := MissingEffects(c, StatusOf(s, c), f);
      RefreshIsTokenWork(cfg, s, bearer, f);
      TokenWorkRank(refreshed, TokenKey(cfg));
      ShortInOrder(refreshed);
      ShortInOrder(report);
      OrderedConcat(refreshed, report, 3);
    } else {
      GetsToCompare(cfg, s, memory, c, f);
      var spec, data := s.clients[c].spec, DataInHand(cfg, s, c, f);
      var st := With(StatusOf(s, c), AuthentikProviderFound, true);
      var apply := Written(f.secretApply, ApplySecret(spec.target, data));
      var rest := Publish(Replay(s, apply), c, spec, st, data, HashOf(cfg, data), f).effects;
      var report := Written(f.statusWrite, PutStatus(c, With(st, SecretSynced, false)));
      PublishInOrder(Replay(s, apply), c, spec, st, data, HashOf(cfg, data), f);
      ShortInOrder([]);
      ShortInOrder(apply);
      ShortInOrder(report);
      OrderedConcat(apply, rest, 1);
      OrderedConcat(apply, report, 3);
    }
  }

  // ---------------------------------------------------------------- the report of a failed look-up

  /**
   A look-up that yields no provider is reported, unless the token was refused and replaced: the
   status then says that no provider was found, and nothing else in it changes.
   */
  lemma {:induction false} FailedLookupIsReported(cfg: Settings, s: Outside, memory: string, c: ObjectKey, f: Faults)
    requires LooksUp(cfg, s, memory, c, f) && !Served(cfg, s, memory, c, f)
    requires SyncSafety.DistinctKinds(StatusOf(s, c).conditions)
    ensures var plan := ReconcilePlan(cfg, s, memory, c, f);
            var s' := Replay(s, plan.effects);
            var reported := plan.result != RequeueNow && !f.statusWrite.WriteFailed?;
            && c in s'.clients
            && (!reported ==> StatusOf(s', c) == StatusOf(s, c))
            && (reported ==>
                  && StatusOf(s', c).secretHash == StatusOf(s, c).secretHash
                  && VerdictOf(StatusOf(s', c), AuthentikProviderFound) == Some(false)
                  && VerdictOf(StatusOf(s', c), SecretSynced) == VerdictOf(StatusOf(s, c), SecretSynced)
                  && VerdictOf(StatusOf(s', c), ConfigMapSynced) == VerdictOf(StatusOf(s, c), ConfigMapSynced)
                  && VerdictOf(StatusOf(s', c), RolloutTriggered) == VerdictOf(StatusOf(s, c), RolloutTriggered))
  {
    hide ReconcilePlan, Served, Refused, Starts, Refresh, LoadedToken, With, VerdictOf, Perform, Replay;
    FailsToLookUp(cfg, s, memory, c, f);
    var bearer := LoadedToken(cfg, s, memory, f);
    var refreshed := if Refused(cfg, s, memory, c, f) then Refresh(cfg, s, bearer, f).effects else [];
    RefreshIsTokenWork(cfg, s, bearer, f);
    UnwrittenStatus(s, refreshed, c);
    FoundSays(StatusOf(s, c), false);
    var report := With(StatusOf(s, c), AuthentikProviderFound, false);
    ReplayConcat(s, refreshed, [PutStatus(c, report)]);
    StatusLands(Replay(s, refreshed), c, report);
    assert refreshed + [] == refreshed;
  }
}
