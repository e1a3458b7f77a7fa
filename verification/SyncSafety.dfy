/** What reconciles never do, whatever fails: the order of writes, what is kept, and what a status can say. */
module SyncSafety {
  import opened Wrappers
  import opened Backends
  import opened Rollout
  import opened Reconciler
  import opened SyncSteps
  import opened SyncRuns

  // ---------------------------------------------------------------- write-ahead order

  lemma UnappliedShape(cfg: Settings, s: Outside, c: ObjectKey, spec: Spec, st: Status, data: Data, f: Faults)
    requires !f.secretApply.WriteOk?
    ensures forall e | e in Sync(cfg, s, c, spec, st, data, f).effects ::
              e == ApplySecret(spec.target, data) || KeepsHash(e, c, st.secretHash)
  {
    hide HashOf, SetCondition;
  }

  /** Unless the apply is reported as successful, no hash is written anywhere. */
  lemma {:induction false} UnappliedWritesNoHash(
      cfg: Settings, s: Outside, memory: string, c: ObjectKey, t: ObjectKey, f: Faults)
    requires c in s.clients && s.clients[c].spec.target == t
    requires !f.secretApply.WriteOk?
    ensures forall e | e in ReconcilePlan(cfg, s, memory, c, f).effects ::
              !e.Annotate? && !e.PutConfigMap? && (e.PutStatus? ==> KeepsHash(e, c, StatusOf(s, c).secretHash))
  {
    hide Sync, Refresh, HashOf, SetCondition, Desired;
    var bearer := LoadedToken(cfg, s, memory, f);
    RefreshIsTokenWork(cfg, s, bearer, f);
    var d := Compared(cfg, s, memory, c, f);
    if d.Some? {
      UnappliedShape(cfg, s, c, s.clients[c].spec, With(s.clients[c].status, AuthentikProviderFound, true), d.value, f);
    }
  }

  /** The first effect is the successful apply of the compared data. */
  ghost predicate AppliedFirst(cfg: Settings, s: Outside, memory: string, c: ObjectKey, t: ObjectKey, f: Faults) {
    var es, d := ReconcilePlan(cfg, s, memory, c, f).effects, Compared(cfg, s, memory, c, f);
    f.secretApply.WriteOk? && d.Some? && |es| > 0 && es[0] == ApplySecret(t, d.value)
  }

  /**
   Every new hash in a status and every annotation is the hash of data that the same reconcile
   applied successfully before; every other status write keeps the stored hash.
   */
  lemma {:induction false} WriteAheadOrder(
      cfg: Settings, s: Outside, memory: string, c: ObjectKey, t: ObjectKey, f: Faults, i: nat)
    requires Watched(cfg, s, c, t)
    requires i < |ReconcilePlan(cfg, s, memory, c, f).effects|
    ensures var e, d := ReconcilePlan(cfg, s, memory, c, f).effects[i], Compared(cfg, s, memory, c, f);
            && (e.PutStatus? && e.status.secretHash != StatusOf(s, c).secretHash ==>
                  i > 0 && AppliedFirst(cfg, s, memory, c, t, f) && e.status.secretHash == HashOf(cfg, d.value))
            && (e.PutStatus? ==> e.client == c)
            && (e.Annotate? ==>
                  i > 0 && AppliedFirst(cfg, s, memory, c, t, f) && e.name == ANNOTATION
                      && e.value == HashOf(cfg, d.value))
  {
    hide ReconcilePlan, Compared, HashOf;
    var es, h0 := ReconcilePlan(cfg, s, memory, c, f).effects, StatusOf(s, c).secretHash;
    PlanShape(cfg, s, memory, c, t, f);
    assert es[i] in es;
    if !f.secretApply.WriteOk? {
      UnappliedWritesNoHash(cfg, s, memory, c, t, f);
    }
    if AllQuiet(cfg, es, c, h0) {
      assert Quiet(cfg, es[i], c, h0);
    } else if i > 0 {
      assert es[i] == es[1..][i - 1];
      assert AfterApply(es[i], c, h0, HashOf(cfg, Compared(cfg, s, memory, c, f).value));
    }
  }

  // ---------------------------------------------------------------- never destructive

  /** The token secret is the only secret that is ever deleted; only it and the target are ever applied. */
  lemma {:induction false} OnlyTokenSecretIsDeleted(
      cfg: Settings, s: Outside, memory: string, c: ObjectKey, t: ObjectKey, f: Faults, e: Effect)
    requires Watched(cfg, s, c, t)
    requires e in ReconcilePlan(cfg, s, memory, c, f).effects
    ensures e.DeleteSecret? ==> e.key == TokenKey(cfg)
    ensures e.ApplySecret? ==> e.key == TokenKey(cfg) || (e.key == t && Compared(cfg, s, memory, c, f) == Some(e.data))
  {
    hide ReconcilePlan, Compared, HashOf;
    var es, h0 := ReconcilePlan(cfg, s, memory, c, f).effects, StatusOf(s, c).secretHash;
    PlanShape(cfg, s, memory, c, t, f);
    if AllQuiet(cfg, es, c, h0) {
      assert Quiet(cfg, e, c, h0);
    } else {
      var d := Compared(cfg, s, memory, c, f).value;
      assert es == [es[0]] + es[1..];
      assert e == es[0] || AfterApply(e, c, h0, HashOf(cfg, d));
    }
  }

  /** A reconcile that gets no provider leaves the target secret as it is, at every moment. */
  lemma {:induction false} FailedFetchKeepsTarget(
      cfg: Settings, s: Outside, memory: string, c: ObjectKey, t: ObjectKey, f: Faults, n: nat)
    requires Watched(cfg, s, c, t) && Compared(cfg, s, memory, c, f).None?
    requires n <= |ReconcilePlan(cfg, s, memory, c, f).effects|
    ensures var s' := Replay(s, ReconcilePlan(cfg, s, memory, c, f).effects[..n]);
            SecretAt(s', t) == SecretAt(s, t) && (t in s.secrets ==> t in s'.secrets)
  {
    hide ReconcilePlan, Compared;
    PrefixOnView(cfg, s, memory, c, t, f, n);
  }

  /** `field` stands under `k` in the target, and the operator is not among its owners. */
  ghost predicate Foreign(s: Outside, t: ObjectKey, k: string, field: Field) {
    k in SecretAt(s, t) && SecretAt(s, t)[k] == field && OPERATOR !in field.owners
  }

  /** The run never compares data that names `k`, and nobody else touches the field. */
  ghost predicate NeverNames(
      cfg: Settings, w: World, c: ObjectKey, t: ObjectKey, steps: seq<Step>, k: string, field: Field)
  {
    steps != [] ==>
      var front, last := steps[..|steps| - 1], steps[|steps| - 1];
      var mid := RunTo(cfg, w, c, front);
      var d := ComparedIn(cfg, mid, c, last);
      && NeverNames(cfg, w, c, t, front, k, field)
      && (d.Some? ==> k !in d.value)
      && (last.Drift? && Foreign(mid.outside, t, k, field) ==> Foreign(last.after.outside, t, k, field))
  }

  lemma ForeignFieldStep(cfg: Settings, w: World, c: ObjectKey, t: ObjectKey, step: Step, k: string, field: Field)
    requires Watched(cfg, w.outside, c, t) && !step.Drift? && Foreign(w.outside, t, k, field)
    requires var d := ComparedIn(cfg, w, c, step); d.Some? ==> k !in d.value
    ensures Foreign(After(cfg, w, c, step).outside, t, k, field)
  {
    hide ReconcilePlan, Compared, HashOf, Owned, Replay, SecretAt;
    var es := ReconcilePlan(cfg, w.outside, w.memory, c, step.f).effects;
    assert es[..|es|] == es;
    var n := |Done(cfg, w, c, step)|;
    assert Done(cfg, w, c, step) == es[..n];
    PrefixOnView(cfg, w.outside, w.memory, c, t, step.f, n);
    if n == 0 {
      assert es[..n] == [];
    }
  }

  /** Over any run, an entry of the target that is not the operator's and that no data names stays as it is. */
  lemma {:induction false} ForeignFieldsAreKept(
      cfg: Settings, w: World, c: ObjectKey, t: ObjectKey, steps: seq<Step>, k: string, field: Field)
    requires Watched(cfg, w.outside, c, t) && ValidRun(cfg, w, c, t, steps)
    requires Foreign(w.outside, t, k, field) && NeverNames(cfg, w, c, t, steps, k, field)
    ensures Foreign(RunTo(cfg, w, c, steps).outside, t, k, field)
  {
    if steps != [] {
      var front, last := steps[..|steps| - 1], steps[|steps| - 1];
      ForeignFieldsAreKept(cfg, w, c, t, front, k, field);
      RunStaysWatched(cfg, w, c, t, front);
      if !last.Drift? {
        ForeignFieldStep(cfg, RunTo(cfg, w, c, front), c, t, last, k, field);
      }
    }
  }

  /** A ConfigMap is written back as it was read, with the one configured key replaced by the compared value. */
  ghost predicate OneKeyChanged(s: Outside, spec: Spec, data: Data, e: Effect)
    requires e.PutConfigMap?
  {
    && spec.configMap.Some?
    && var t := spec.configMap.value;
    && e.key == t.key && t.key in s.configMaps && t.sourceKey in data
    && e.data == s.configMaps[t.key][t.dataKey := data[t.sourceKey]]
  }

  lemma PublishedConfigMap(s: Outside, c: ObjectKey, spec: Spec, st: Status, data: Data, hash: string, f: Faults)
    ensures forall e | e in Publish(s, c, spec, st, data, hash, f).effects && e.PutConfigMap? ::
              OneKeyChanged(s, spec, data, e)
  {
    hide Replay, SetCondition;
  }

  lemma {:induction false} ConfigMapChangesOneKey(
      cfg: Settings, s: Outside, memory: string, c: ObjectKey, f: Faults, e: Effect)
    requires c in s.clients && e in ReconcilePlan(cfg, s, memory, c, f).effects && e.PutConfigMap?
    ensures var d := Compared(cfg, s, memory, c, f); d.Some? && OneKeyChanged(s, s.clients[c].spec, d.value, e)
  {
    hide Publish, Refresh, HashOf, SetCondition, Desired;
    var bearer := LoadedToken(cfg, s, memory, f);
    RefreshIsTokenWork(cfg, s, bearer, f);
    var d := Compared(cfg, s, memory, c, f);
    if d.Some? {
      var spec, st := s.clients[c].spec, With(s.clients[c].status, AuthentikProviderFound, true);
      var apply := [ApplySecret(spec.target, d.value)];
      ReplayOne(s, apply[0]);
      assert Replay(s, apply).configMaps == s.configMaps;
      PublishedConfigMap(Replay(s, apply), c, spec, st, d.value, HashOf(cfg, d.value), f);
    }
  }

  // ---------------------------------------------------------------- other resources

  /** An effect that stays away from the resource's status and target. */
  predicate Apart(e: Effect, c: ObjectKey, t: ObjectKey) {
    && (e.ApplySecret? || e.DeleteSecret? ==> e.key != t)
    && (e.PutStatus? ==> e.client != c)
  }

  lemma ApartIsRespectful(s: Outside, e: Effect, c: ObjectKey, t: ObjectKey)
    requires c in s.clients && Apart(e, c, t)
    ensures Respects(s, Perform(s, e), c, t)
  {
    hide Owned, Applied;
    SameSecretSameData(s, Perform(s, e), t);
  }

  lemma {:induction false} ApartReplay(s: Outside, es: seq<Effect>, c: ObjectKey, t: ObjectKey)
    requires c in s.clients && forall e | e in es :: Apart(e, c, t)
    ensures Respects(s, Replay(s, es), c, t)
  {
    hide Owned, Perform, Apart;
    if es != [] {
      ApartReplay(s, es[..|es| - 1], c, t);
      ApartIsRespectful(Replay(s, es[..|es| - 1]), es[|es| - 1], c, t);
    }
  }

  /** What reconciles of other resources with other targets do is apart from this one, in whatever state they start. */
  lemma {:induction false} OthersAreApart(
      cfg: Settings, w: World, c: ObjectKey, t: ObjectKey, other: ObjectKey, otherTarget: ObjectKey, step: Step)
    requires t != TokenKey(cfg) && Watched(cfg, w.outside, other, otherTarget)
    requires other != c && otherTarget != t && !step.Drift?
    ensures forall e | e in Done(cfg, w, other, step) :: Apart(e, c, t)
  {
    hide ReconcilePlan, Compared, HashOf, Owned, Replay;
    var all := ReconcilePlan(cfg, w.outside, w.memory, other, step.f).effects;
    PlanShape(cfg, w.outside, w.memory, other, otherTarget, step.f);
    forall e | e in Done(cfg, w, other, step) ensures Apart(e, c, t) {
      assert e in all;
      if AllQuiet(cfg, all, other, StoredHash(w, other)) {
        assert Quiet(cfg, e, other, StoredHash(w, other));
      } else {
        assert all == [all[0]] + all[1..];
      }
    }
  }

  /** A reconcile of another resource with another target, whole or cut short, is a valid drift for this one. */
  lemma {:induction false} OthersAreDrift(
      cfg: Settings, w: World, c: ObjectKey, t: ObjectKey, other: ObjectKey, otherTarget: ObjectKey, step: Step)
    requires Watched(cfg, w.outside, c, t) && Watched(cfg, w.outside, other, otherTarget)
    requires other != c && otherTarget != t && !step.Drift?
    ensures Respects(w.outside, After(cfg, w, other, step).outside, c, t)
    ensures ValidStep(w, c, t, Drift(After(cfg, w, other, step)))
  {
    hide ReconcilePlan, Owned, Replay, Apart;
    OthersAreApart(cfg, w, c, t, other, otherTarget, step);
    ApartReplay(w.outside, Done(cfg, w, other, step), c, t);
  }

  // ---------------------------------------------------------------- status consistency

  ghost predicate DistinctKinds(cs: seq<Condition>) {
    forall i, j :: 0 <= i < j < |cs| ==> cs[i].kind != cs[j].kind
  }

  predicate Has(cs: seq<Condition>, kind: ConditionType) {
    exists i :: 0 <= i < |cs| && cs[i].kind == kind
  }

  predicate Holds(cs: seq<Condition>, kind: ConditionType) {
    Condition(kind, true) in cs
  }

  /** What a status with no hash yet may say. */
  ghost predicate BeforeFirstSync(cs: seq<Condition>) {
    !Holds(cs, SecretSynced) && !Has(cs, ConfigMapSynced) && !Has(cs, RolloutTriggered)
  }

  ghost predicate Consistent(st: Status) {
    && DistinctKinds(st.conditions)
    && (st.secretHash == "" ==> BeforeFirstSync(st.conditions))
  }

  lemma {:induction false} SetConditionIs(cs: seq<Condition>, c: Condition)
    requires DistinctKinds(cs)
    ensures DistinctKinds(SetCondition(cs, c))
    ensures forall kind :: Has(SetCondition(cs, c), kind) <==> Has(cs, kind) || kind == c.kind
    ensures forall x :: x in SetCondition(cs, c) <==> x == c || (x in cs && x.kind != c.kind)
  {
    var r := SetCondition(cs, c);
    if cs == [] {
    } else if cs[0].kind == c.kind {
      assert cs == [cs[0]] + cs[1..];
      assert forall x :: x in cs[1..] ==> x.kind != c.kind;
      HasIsIn(cs);
      HasIsIn(r);
    } else {
      SetConditionIs(cs[1..], c);
      assert cs == [cs[0]] + cs[1..];
      HasIsIn(cs[1..]);
      HasIsIn(SetCondition(cs[1..], c));
      HasIsIn(cs);
      HasIsIn(r);
      assert forall x :: x in SetCondition(cs[1..], c) ==> x.kind != cs[0].kind;
    }
  }

  lemma HasIsIn(cs: seq<Condition>)
    ensures forall kind :: Has(cs, kind) <==> exists x :: x in cs && x.kind == kind
  {
  }

  /** How a status may follow another. */
  ghost predicate Follows(old_: Status, new_: Status) {
    && (Consistent(old_) ==> Consistent(new_))
    && (old_.secretHash != "" ==> new_.secretHash != "")
  }

  lemma SetBeforeFirstSync(st: Status, kind: ConditionType, holds: bool)
    requires kind == AuthentikProviderFound || (kind == SecretSynced && !holds)
    ensures Follows(st, With(st, kind, holds))
  {
    hide SetCondition, Has;
    if Consistent(st) {
      SetConditionIs(st.conditions, Condition(kind, holds));
    }
  }

  lemma SetAfterSync(st: Status, kind: ConditionType, holds: bool)
    requires DistinctKinds(st.conditions)
    ensures DistinctKinds(With(st, kind, holds).conditions)
  {
    SetConditionIs(st.conditions, Condition(kind, holds));
  }

  lemma SyncedFollows(st: Status, cm: Part, ro: Part, hash: string)
    requires hash != ""
    ensures Follows(st, SyncedStatus(st, cm, ro, hash))
  {
    hide SetCondition;
    if Consistent(st) {
      var a := Reported(st, ConfigMapSynced, cm);
      if cm.verdict.Some? { SetAfterSync(st, ConfigMapSynced, cm.verdict.value); }
      var b := Reported(a, RolloutTriggered, ro);
      if ro.verdict.Some? { SetAfterSync(a, RolloutTriggered, ro.verdict.value); }
      SetAfterSync(b.(secretHash := hash), SecretSynced, true);
    }
  }

  /** Every status that an effect writes for `c` follows `st`. */
  ghost predicate StatusesFollow(es: seq<Effect>, c: ObjectKey, st: Status) {
    forall e | e in es && e.PutStatus? :: e.client == c && Follows(st, e.status)
  }

  lemma PublishedStatuses(s: Outside, c: ObjectKey, spec: Spec, st: Status, data: Data, hash: string, f: Faults)
    requires hash != ""
    ensures StatusesFollow(Publish(s, c, spec, st, data, hash, f).effects, c, st)
  {
    hide Replay, Follows, SyncedStatus;
    var cm := ConfigMapPart(s, spec, data, f);
    var ro := RolloutPart(Replay(s, cm.effects), spec, hash, f);
    SyncedFollows(st, cm, ro, hash);
  }

  lemma SyncStatuses(cfg: Settings, s: Outside, c: ObjectKey, spec: Spec, st: Status, data: Data, f: Faults)
    ensures StatusesFollow(Sync(cfg, s, c, spec, st, data, f).effects, c, st)
  {
    hide Publish, HashOf, Follows, With;
    HashIsNotEmpty(cfg, data);
    var apply := Written(f.secretApply, ApplySecret(spec.target, data));
    PublishedStatuses(Replay(s, apply), c, spec, st, data, HashOf(cfg, data), f);
    SetBeforeFirstSync(st, SecretSynced, false);
  }

  lemma FollowsIsTransitive(a: Status, b: Status, c: Status)
    requires Follows(a, b) && Follows(b, c)
    ensures Follows(a, c)
  {
  }

  lemma PlanStatuses(cfg: Settings, s: Outside, memory: string, c: ObjectKey, f: Faults)
    requires c in s.clients
    ensures StatusesFollow(ReconcilePlan(cfg, s, memory, c, f).effects, c, StatusOf(s, c))
  {
    hide Sync, Refresh, HashOf, With, Follows, Desired;
    var bearer := LoadedToken(cfg, s, memory, f);
    var client := s.clients[c];
    RefreshIsTokenWork(cfg, s, bearer, f);
    SetBeforeFirstSync(client.status, AuthentikProviderFound, false);
    SetBeforeFirstSync(client.status, AuthentikProviderFound, true);
    var d := Compared(cfg, s, memory, c, f);
    if d.Some? {
      var st := With(client.status, AuthentikProviderFound, true);
      SyncStatuses(cfg, s, c, client.spec, st, d.value, f);
      forall e | e in Sync(cfg, s, c, client.spec, st, d.value, f).effects && e.PutStatus?
        ensures Follows(client.status, e.status)
      {
        FollowsIsTransitive(client.status, st, e.status);
      }
    }
  }

  lemma {:induction false} StatusAfterReplay(s: Outside, es: seq<Effect>, c: ObjectKey, st: Status)
    requires c in s.clients && StatusesFollow(es, c, st) && Follows(st, StatusOf(s, c))
    ensures c in Replay(s, es).clients && Follows(st, StatusOf(Replay(s, es), c))
  {
    hide Follows;
    if es != [] {
      StatusAfterReplay(s, es[..|es| - 1], c, st);
      assert es[|es| - 1] in es;
    }
  }

  lemma StatusStep(cfg: Settings, w: World, c: ObjectKey, t: ObjectKey, step: Step)
    requires Watched(cfg, w.outside, c, t) && ValidStep(w, c, t, step)
    ensures c in After(cfg, w, c, step).outside.clients
    ensures Follows(StatusOf(w.outside, c), StatusOf(After(cfg, w, c, step).outside, c))
  {
    hide ReconcilePlan, Replay, Owned;
    if !step.Drift? {
      PlanStatuses(cfg, w.outside, w.memory, c, step.f);
      var all := ReconcilePlan(cfg, w.outside, w.memory, c, step.f).effects;
      assert forall e | e in Done(cfg, w, c, step) :: e in all;
      StatusAfterReplay(w.outside, Done(cfg, w, c, step), c, StatusOf(w.outside, c));
    }
  }

  /**
   In every state of every run: condition types are distinct; SecretSynced=True, or a verdict
   on the ConfigMap or the workload, goes with a stored hash; a stored hash never disappears.
   */
  lemma {:induction false} StatusStaysConsistent(cfg: Settings, w: World, c: ObjectKey, t: ObjectKey, steps: seq<Step>)
    requires Watched(cfg, w.outside, c, t) && ValidRun(cfg, w, c, t, steps)
    ensures c in RunTo(cfg, w, c, steps).outside.clients
    ensures Follows(StatusOf(w.outside, c), StatusOf(RunTo(cfg, w, c, steps).outside, c))
  {
    hide Follows;
    if steps == [] {
      FollowsItself(StatusOf(w.outside, c));
    } else {
      var front, last := steps[..|steps| - 1], steps[|steps| - 1];
      StatusStaysConsistent(cfg, w, c, t, front);
      RunStaysWatched(cfg, w, c, t, front);
      var mid := RunTo(cfg, w, c, front);
      StatusStep(cfg, mid, c, t, last);
      var end := RunTo(cfg, w, c, steps);
      FollowsIsTransitive(StatusOf(w.outside, c), StatusOf(mid.outside, c), StatusOf(end.outside, c));
    }
  }

  lemma FollowsItself(st: Status)
    ensures Follows(st, st)
  {
  }
}
