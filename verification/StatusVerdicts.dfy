/** What a status says after a reconcile, and that it is true. */
module StatusVerdicts {
  import opened Wrappers
  import opened Backends
  import opened Rollout
  import opened Reconciler
  import opened SyncSteps
  import opened SyncRuns
  import opened SyncSafety

  /** What a status says about a condition, if anything. */
  function VerdictOf(st: Status, kind: ConditionType): Option<bool> {
    if Condition(kind, true) in st.conditions then Some(true)
    else if Condition(kind, false) in st.conditions then Some(false)
    else None
  }

  /** The verdict that was reported, or else the earlier one. */
  predicate Says(before: Status, after: Status, kind: ConditionType, verdict: Option<bool>) {
    VerdictOf(after, kind) == if verdict.Some? then verdict else VerdictOf(before, kind)
  }

  lemma SetSays(st: Status, kind: ConditionType, holds: bool, other: ConditionType)
    requires DistinctKinds(st.conditions)
    ensures Says(st, With(st, kind, holds), other, if other == kind then Some(holds) else None)
    ensures DistinctKinds(With(st, kind, holds).conditions)
  {
    SetConditionIs(st.conditions, Condition(kind, holds));
  }

  lemma SameHash(st: Status, kind: ConditionType, holds: bool)
    ensures With(st, kind, holds).secretHash == st.secretHash
  {
  }

  /** Reporting on the provider touches nothing else. */
  lemma FoundSays(st: Status, found: bool)
    requires DistinctKinds(st.conditions)
    ensures var st' := With(st, AuthentikProviderFound, found);
            && DistinctKinds(st'.conditions) && st'.secretHash == st.secretHash
            && VerdictOf(st', AuthentikProviderFound) == Some(found)
            && VerdictOf(st', SecretSynced) == VerdictOf(st, SecretSynced)
            && VerdictOf(st', ConfigMapSynced) == VerdictOf(st, ConfigMapSynced)
            && VerdictOf(st', RolloutTriggered) == VerdictOf(st, RolloutTriggered)
  {
    hide SetCondition, VerdictOf;
    SetSays(st, AuthentikProviderFound, found, AuthentikProviderFound);
    SetSays(st, AuthentikProviderFound, found, SecretSynced);
    SetSays(st, AuthentikProviderFound, found, ConfigMapSynced);
    SetSays(st, AuthentikProviderFound, found, RolloutTriggered);
  }

  lemma ReportedSays(st: Status, kind: ConditionType, part: Part, other: ConditionType)
    requires DistinctKinds(st.conditions)
    ensures Says(st, Reported(st, kind, part), other, if other == kind then part.verdict else None)
    ensures DistinctKinds(Reported(st, kind, part).conditions)
  {
    hide With;
    if part.verdict.Some? { SetSays(st, kind, part.verdict.value, other); }
  }

  /** The status of a successful sync repeats each verdict and nothing else. */
  lemma SyncedSays(st: Status, cm: Part, ro: Part, hash: string, kind: ConditionType)
    requires DistinctKinds(st.conditions)
    ensures Says(st, SyncedStatus(st, cm, ro, hash), kind,
                 match kind
                 case SecretSynced => Some(true)
                 case ConfigMapSynced => cm.verdict
                 case RolloutTriggered => ro.verdict
                 case AuthentikProviderFound => None)
  {
    hide Reported;
    var a := Reported(st, ConfigMapSynced, cm);
    var b := Reported(a, RolloutTriggered, ro);
    ReportedSays(st, ConfigMapSynced, cm, kind);
    ReportedSays(a, RolloutTriggered, ro, kind);
    SetSays(b.(secretHash := hash), SecretSynced, true, kind);
  }

  /** The one key of the ConfigMap has the value. */
  predicate Delivered(s: Outside, t: ConfigMapTarget, value: string) {
    t.key in s.configMaps && t.dataKey in s.configMaps[t.key] && s.configMaps[t.key][t.dataKey] == value
  }

  predicate Annotated(s: Outside, ref: WorkloadRef, hash: string) {
    ref in s.workloads && ANNOTATION in s.workloads[ref] && s.workloads[ref][ANNOTATION] == hash
  }

  lemma ConfigMapLands(s: Outside, spec: Spec, data: Data, f: Faults)
    ensures var cm := ConfigMapPart(s, spec, data, f);
            var s' := Replay(s, cm.effects);
            && s'.workloads == s.workloads && s'.clients == s.clients
            && (cm.verdict == Some(true) ==> Delivered(s', spec.configMap.value, data[spec.configMap.value.sourceKey]))
  {
  }

  lemma RolloutLands(s: Outside, spec: Spec, hash: string, f: Faults)
    ensures var ro := RolloutPart(s, spec, hash, f);
            var s' := Replay(s, ro.effects);
            && s'.configMaps == s.configMaps && s'.clients == s.clients
            && (ro.verdict == Some(true) ==> Annotated(s', RolloutTarget(spec).value, hash))
  {
    var ro := RolloutPart(s, spec, hash, f);
    if ro.effects != [] { ReplayOne(s, ro.effects[0]); }
  }

  lemma StatusLands(s: Outside, c: ObjectKey, st: Status)
    requires c in s.clients
    ensures var s' := Replay(s, [PutStatus(c, st)]);
            && s'.configMaps == s.configMaps && s'.workloads == s.workloads
            && c in s'.clients && StatusOf(s', c) == st
  {
    ReplayOne(s, PutStatus(c, st));
  }

  /** What publishing leaves behind when its status write is not lost. */
  lemma PublishedState(s: Outside, c: ObjectKey, spec: Spec, st: Status, data: Data, hash: string, f: Faults)
    requires c in s.clients && !f.statusWrite.WriteFailed?
    ensures var s', cm := Replay(s, Publish(s, c, spec, st, data, hash, f).effects), ConfigMapPart(s, spec, data, f);
            var ro := RolloutPart(s, spec, hash, f);
            && c in s'.clients && StatusOf(s', c) == SyncedStatus(st, cm, ro, hash)
            && (cm.verdict == Some(true) ==> Delivered(s', spec.configMap.value, data[spec.configMap.value.sourceKey]))
            && (ro.verdict == Some(true) ==> Annotated(s', RolloutTarget(spec).value, hash))
  {
    hide SyncedStatus, Replay, Perform, ConfigMapPart, RolloutEffects;
    var cm := ConfigMapPart(s, spec, data, f);
    var s1 := Replay(s, cm.effects);
    ConfigMapLands(s, spec, data, f);
    var ro := RolloutPart(s1, spec, hash, f);
    RolloutLands(s1, spec, hash, f);
    SameWorkloadsSameRollout(s, s1, spec, hash, f);
    var st' := SyncedStatus(st, cm, ro, hash);
    StatusLands(Replay(s1, ro.effects), c, st');
    ReplayConcat(s1, ro.effects, [PutStatus(c, st')]);
    ReplayConcat(s, cm.effects, ro.effects + [PutStatus(c, st')]);
  }

  lemma SameWorkloadsSameRollout(s: Outside, s': Outside, spec: Spec, hash: string, f: Faults)
    requires s'.workloads == s.workloads
    ensures RolloutPart(s', spec, hash, f) == RolloutPart(s, spec, hash, f)
  {
  }

  /** The ConfigMap is configured, and its source key is in the data. */
  predicate WantsConfigMap(spec: Spec, data: Data) {
    spec.configMap.Some? && spec.configMap.value.sourceKey in data
  }

  /** A restart is enabled, and of this workload. */
  predicate WantsRestart(spec: Spec, ref: WorkloadRef) {
    spec.rollout.Some? && spec.rollout.value.enabled && spec.rollout.value.targetRef == Some(ref)
  }

  /** The workload is of a kind that can be restarted, exists, and could be read. */
  predicate CanRestart(s: Outside, ref: WorkloadRef, f: Faults) {
    ref.kind in {"Deployment", "StatefulSet"} && ref in s.workloads && f.workloadRead.ReadOk?
  }

  /**
   After a reconcile that applies successfully and whose status write is not lost, the status
   tells the truth: the secret is synced; the ConfigMap or the workload, if there is one, is
   called up to date exactly when it could be read and its write was acknowledged, and then it
   is up to date.  Where there is none, the earlier verdict stays.
   */
  lemma {:induction false} VerdictsAreTruthful(
      cfg: Settings, s: Outside, memory: string, c: ObjectKey, t: ObjectKey, f: Faults)
    requires Watched(cfg, s, c, t) && DistinctKinds(StatusOf(s, c).conditions)
    requires f.secretApply.WriteOk? && !f.statusWrite.WriteFailed?
    requires var d := Compared(cfg, s, memory, c, f); d.Some? && HashOf(cfg, d.value) != StatusOf(s, c).secretHash
    ensures var s' := Replay(s, ReconcilePlan(cfg, s, memory, c, f).effects);
            var d, spec := Compared(cfg, s, memory, c, f).value, s.clients[c].spec;
            var hash := HashOf(cfg, d);
            && c in s'.clients && Owned(s', t) == d && StatusOf(s', c).secretHash == hash
            && VerdictOf(StatusOf(s', c), SecretSynced) == Some(true)
            && VerdictOf(StatusOf(s', c), AuthentikProviderFound) == Some(true)
            && (if WantsConfigMap(spec, d) then
                  var cm := spec.configMap.value;
                  var ok := f.configMapRead.ReadOk? && cm.key in s.configMaps && f.configMapUpdate.WriteOk?;
                  && VerdictOf(StatusOf(s', c), ConfigMapSynced) == Some(ok)
                  && (ok ==> Delivered(s', cm, d[cm.sourceKey]))
                else VerdictOf(StatusOf(s', c), ConfigMapSynced) == VerdictOf(StatusOf(s, c), ConfigMapSynced))
            && (forall ref :: WantsRestart(spec, ref) ==>
                  var ok := CanRestart(s, ref, f) && f.rolloutPatch.WriteOk?;
                  && VerdictOf(StatusOf(s', c), RolloutTriggered) == Some(ok)
                  && (ok ==> Annotated(s', ref, hash)))
            && ((forall ref :: !WantsRestart(spec, ref)) ==>
                  VerdictOf(StatusOf(s', c), RolloutTriggered) == VerdictOf(StatusOf(s, c), RolloutTriggered))
  {
    hide ReconcilePlan, Compared, HashOf, Publish, SyncedStatus, With, VerdictOf, Owned, Delivered, Annotated;
    hide Perform, Replay;
    var d, spec := Compared(cfg, s, memory, c, f).value, s.clients[c].spec;
    var hash, apply := HashOf(cfg, d), [ApplySecret(t, d)];
    var st := With(StatusOf(s, c), AuthentikProviderFound, true);
    var s1 := Replay(s, apply);
    var rest := Publish(s1, c, spec, st, d, hash, f).effects;
    PlanIsSync(cfg, s, memory, c, f);
    assert ReconcilePlan(cfg, s, memory, c, f).effects == apply + rest;
    ApplyOnView(cfg, s, c, t, d);
    ApplyTouchesSecrets(s, t, d);
    ReplayConcat(s, apply, rest);
    PublishedState(s1, c, spec, st, d, hash, f);
    PublishShape(s1, c, spec, st, d, hash, f);
    AfterApplyReplay(cfg, s1, rest, c, t, st.secretHash, hash);
    SameSecretSameData(s1, Replay(s1, rest), t);
    var cm, ro := ConfigMapPart(s1, spec, d, f), RolloutPart(s1, spec, hash, f);
    FoundSays(StatusOf(s, c), true);
    SyncedSays(st, cm, ro, hash, SecretSynced);
    SyncedSays(st, cm, ro, hash, AuthentikProviderFound);
    SyncedSays(st, cm, ro, hash, ConfigMapSynced);
    SyncedSays(st, cm, ro, hash, RolloutTriggered);
    SyncedHash(st, cm, ro, hash);
    RestartVerdict(s1, spec, hash, f);
  }

  lemma RestartVerdict(s: Outside, spec: Spec, hash: string, f: Faults)
    ensures forall ref :: WantsRestart(spec, ref) ==>
              && RolloutTarget(spec) == Some(ref)
              && RolloutPart(s, spec, hash, f).verdict == Some(CanRestart(s, ref, f) && f.rolloutPatch.WriteOk?)
    ensures (forall ref :: !WantsRestart(spec, ref)) ==> RolloutPart(s, spec, hash, f).verdict.None?
  {
    if RolloutTarget(spec).Some? {
      assert WantsRestart(spec, RolloutTarget(spec).value);
    }
  }

  lemma SyncedHash(st: Status, cm: Part, ro: Part, hash: string)
    ensures SyncedStatus(st, cm, ro, hash).secretHash == hash
  {
  }

  lemma ApplyTouchesSecrets(s: Outside, t: ObjectKey, data: Data)
    ensures var s' := Replay(s, [ApplySecret(t, data)]);
            s'.configMaps == s.configMaps && s'.workloads == s.workloads && s'.clients == s.clients
  {
    ReplayOne(s, ApplySecret(t, data));
  }

  lemma {:induction false} UnwrittenStatus(s: Outside, es: seq<Effect>, c: ObjectKey)
    requires c in s.clients && forall e | e in es :: !e.PutStatus?
    ensures c in Replay(s, es).clients && StatusOf(Replay(s, es), c) == StatusOf(s, c)
  {
    hide Applied;
    if es != [] {
      UnwrittenStatus(s, es[..|es| - 1], c);
      assert es[|es| - 1] in es;
    }
  }

  lemma SyncWritesNoStatus(cfg: Settings, s: Outside, c: ObjectKey, spec: Spec, st: Status, data: Data, f: Faults)
    requires f.statusWrite.WriteFailed?
    ensures forall e | e in Sync(cfg, s, c, spec, st, data, f).effects :: !e.PutStatus?
  {
    hide HashOf, SetCondition, Replay;
  }

  /** What a failed apply leaves behind when its status write is not lost. */
  lemma UnappliedState(cfg: Settings, s: Outside, c: ObjectKey, spec: Spec, st: Status, data: Data, f: Faults)
    requires c in s.clients && !f.statusWrite.WriteFailed? && !f.secretApply.WriteOk?
    requires HashOf(cfg, data) != st.secretHash
    ensures var s' := Replay(s, Sync(cfg, s, c, spec, st, data, f).effects);
            c in s'.clients && StatusOf(s', c) == With(st, SecretSynced, false)
  {
    hide HashOf, With, Applied;
    var apply := Written(f.secretApply, ApplySecret(spec.target, data));
    var last := PutStatus(c, With(st, SecretSynced, false));
    var s1 := Replay(s, apply);
    if apply != [] { ReplayOne(s, apply[0]); }
    ReplayConcat(s, apply, [last]);
    StatusLands(s1, c, With(st, SecretSynced, false));
  }

  /** An apply that is not acknowledged is reported as failed; all else but the provider stays as it was. */
  lemma {:induction false} FailedApplyIsReported(cfg: Settings, s: Outside, memory: string, c: ObjectKey, f: Faults)
    requires c in s.clients && DistinctKinds(StatusOf(s, c).conditions)
    requires !f.secretApply.WriteOk? && !f.statusWrite.WriteFailed?
    requires var d := Compared(cfg, s, memory, c, f); d.Some? && HashOf(cfg, d.value) != StatusOf(s, c).secretHash
    ensures var s' := Replay(s, ReconcilePlan(cfg, s, memory, c, f).effects);
            && c in s'.clients && StatusOf(s', c).secretHash == StatusOf(s, c).secretHash
            && VerdictOf(StatusOf(s', c), SecretSynced) == Some(false)
            && VerdictOf(StatusOf(s', c), AuthentikProviderFound) == Some(true)
            && VerdictOf(StatusOf(s', c), ConfigMapSynced) == VerdictOf(StatusOf(s, c), ConfigMapSynced)
            && VerdictOf(StatusOf(s', c), RolloutTriggered) == VerdictOf(StatusOf(s, c), RolloutTriggered)
  {
    hide ReconcilePlan, Compared, HashOf, Sync, SetCondition, VerdictOf, Perform, Replay;
    var d, st := Compared(cfg, s, memory, c, f).value, With(StatusOf(s, c), AuthentikProviderFound, true);
    PlanIsSync(cfg, s, memory, c, f);
    UnappliedState(cfg, s, c, s.clients[c].spec, st, d, f);
    FoundSays(StatusOf(s, c), true);
    SetSays(st, SecretSynced, false, SecretSynced);
    SetSays(st, SecretSynced, false, AuthentikProviderFound);
    SetSays(st, SecretSynced, false, ConfigMapSynced);
    SetSays(st, SecretSynced, false, RolloutTriggered);
    assert With(st, SecretSynced, false).secretHash == st.secretHash by { SameHash(st, SecretSynced, false); }
  }

  /**
   After a reconcile that got a provider, the status says so if the hash differs and the status
   write is not lost; otherwise it says what it said before: the return at an unchanged hash
   comes before any status write.
   */
  lemma {:induction false} ProviderFoundIff(cfg: Settings, s: Outside, memory: string, c: ObjectKey, f: Faults)
    requires c in s.clients && DistinctKinds(StatusOf(s, c).conditions)
    requires Compared(cfg, s, memory, c, f).Some?
    ensures var s' := Replay(s, ReconcilePlan(cfg, s, memory, c, f).effects);
            var hash := HashOf(cfg, Compared(cfg, s, memory, c, f).value);
            && c in s'.clients
            && VerdictOf(StatusOf(s', c), AuthentikProviderFound)
               == if hash != StatusOf(s, c).secretHash && !f.statusWrite.WriteFailed? then Some(true)
                  else VerdictOf(StatusOf(s, c), AuthentikProviderFound)
  {
    hide ReconcilePlan, Compared, HashOf, Publish, SyncedStatus, With, VerdictOf, Perform, Replay;
    var d, spec := Compared(cfg, s, memory, c, f).value, s.clients[c].spec;
    var old_ := StatusOf(s, c);
    var st := With(old_, AuthentikProviderFound, true);
    PlanIsSync(cfg, s, memory, c, f);
    SetSays(old_, AuthentikProviderFound, true, AuthentikProviderFound);
    if HashOf(cfg, d) == old_.secretHash {
      assert ReconcilePlan(cfg, s, memory, c, f).effects == [];
      UnwrittenStatus(s, [], c);
    } else if f.statusWrite.WriteFailed? {
      SyncWritesNoStatus(cfg, s, c, spec, st, d, f);
      UnwrittenStatus(s, ReconcilePlan(cfg, s, memory, c, f).effects, c);
    } else if f.secretApply.WriteOk? {
      var apply, hash := [ApplySecret(spec.target, d)], HashOf(cfg, d);
      var s1 := Replay(s, apply);
      ApplyTouchesSecrets(s, spec.target, d);
      ReplayConcat(s, apply, Publish(s1, c, spec, st, d, hash, f).effects);
      PublishedState(s1, c, spec, st, d, hash, f);
      SyncedSays(st, ConfigMapPart(s1, spec, d, f), RolloutPart(s1, spec, hash, f), hash, AuthentikProviderFound);
    } else {
      UnappliedState(cfg, s, c, spec, st, d, f);
      SetSays(st, SecretSynced, false, AuthentikProviderFound);
    }
  }
}
