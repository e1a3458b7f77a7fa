/**
 Runs: any sequence of reconciles of one resource, complete or cut short by a crash, with
 anything that the rest of the world may do in between.
 */
module SyncRuns {
  import opened Wrappers
  import opened Backends
  import opened Reconciler
  import opened SyncSteps
  import AuthentikClient
  import CanonicalHash

  datatype World = World(outside: Outside, memory: string)

  /** `Crash` loses the process after some durable effects; it restarts with some token. */
  datatype Step =
    | Complete(f: Faults)
    | Crash(f: Faults, done: nat, restarted: string)
    | Drift(after: World)

  /** The durable effects of a step. */
  ghost function Done(cfg: Settings, w: World, c: ObjectKey, step: Step): seq<Effect> {
    match step
    case Complete(f) => ReconcilePlan(cfg, w.outside, w.memory, c, f).effects
    case Crash(f, done, _) =>
      var es := ReconcilePlan(cfg, w.outside, w.memory, c, f).effects;
      if done < |es| then es[..done] else es
    case Drift(_) => []
  }

  ghost function After(cfg: Settings, w: World, c: ObjectKey, step: Step): World {
    match step
    case Complete(f) =>
      World(Replay(w.outside, Done(cfg, w, c, step)), ReconcilePlan(cfg, w.outside, w.memory, c, f).memory)
    case Crash(_, _, restarted) => World(Replay(w.outside, Done(cfg, w, c, step)), restarted)
    case Drift(after) => after
  }

  /**
   What everybody else leaves alone: the resource's existence, target and status, and what the
   operator owns in the target.  All else may change: the rest of the spec, providers,
   certificates, tokens, other resources, entries of the target with other owners.
   */
  ghost predicate Respects(s: Outside, s': Outside, c: ObjectKey, t: ObjectKey) {
    && c in s.clients && c in s'.clients
    && s'.clients[c].spec.target == s.clients[c].spec.target
    && s'.clients[c].status == s.clients[c].status
    && (t in s.secrets ==> t in s'.secrets)
    && Owned(s', t) == Owned(s, t)
  }

  ghost predicate ValidStep(w: World, c: ObjectKey, t: ObjectKey, step: Step) {
    step.Drift? ==> Respects(w.outside, step.after.outside, c, t)
  }

  ghost function RunTo(cfg: Settings, w: World, c: ObjectKey, steps: seq<Step>): World {
    if steps == [] then w
    else After(cfg, RunTo(cfg, w, c, steps[..|steps| - 1]), c, steps[|steps| - 1])
  }

  ghost predicate ValidRun(cfg: Settings, w: World, c: ObjectKey, t: ObjectKey, steps: seq<Step>) {
    steps != [] ==>
      && ValidRun(cfg, w, c, t, steps[..|steps| - 1])
      && ValidStep(RunTo(cfg, w, c, steps[..|steps| - 1]), c, t, steps[|steps| - 1])
  }

  /** The data that a step compares; a crash before any effect counts as not getting there. */
  ghost function ComparedIn(cfg: Settings, w: World, c: ObjectKey, step: Step): Option<Data> {
    match step
    case Complete(f) => Compared(cfg, w.outside, w.memory, c, f)
    case Crash(f, done, _) => if done == 0 then None else Compared(cfg, w.outside, w.memory, c, f)
    case Drift(_) => None
  }

  ghost predicate AppliesIn(cfg: Settings, w: World, c: ObjectKey, t: ObjectKey, step: Step) {
    Applies(Done(cfg, w, c, step), t)
  }

  function StoredHash(w: World, c: ObjectKey): string
    requires c in w.outside.clients
  {
    StatusOf(w.outside, c).secretHash
  }

  /** A step that applies data but leaves another hash in the status: a lost status write, a crash, a lost response. */
  ghost predicate UnrecordedIn(cfg: Settings, w: World, c: ObjectKey, t: ObjectKey, step: Step) {
    var w', d := After(cfg, w, c, step), ComparedIn(cfg, w, c, step);
    && AppliesIn(cfg, w, c, t, step)
    && d.Some? && c in w'.outside.clients
    && StoredHash(w', c) != HashOf(cfg, d.value)
  }

  // ---------------------------------------------------------------- one step

  lemma StepOnView(cfg: Settings, w: World, c: ObjectKey, t: ObjectKey, step: Step)
    requires Watched(cfg, w.outside, c, t) && ValidStep(w, c, t, step)
    ensures var w', d := After(cfg, w, c, step), ComparedIn(cfg, w, c, step);
            && Watched(cfg, w'.outside, c, t)
            && (t in w.outside.secrets ==> t in w'.outside.secrets)
            && (if AppliesIn(cfg, w, c, t, step) then
                  && d.Some? && HashOf(cfg, d.value) != StoredHash(w, c)
                  && Owned(w'.outside, t) == d.value
                  && StoredHash(w', c) in {StoredHash(w, c), HashOf(cfg, d.value)}
                else
                  && Owned(w'.outside, t) == Owned(w.outside, t)
                  && StoredHash(w', c) == StoredHash(w, c))
  {
    hide ReconcilePlan, Compared, HashOf, Owned, Replay;
    match step
    case Drift(_) =>
    case Complete(f) =>
      var es := ReconcilePlan(cfg, w.outside, w.memory, c, f).effects;
      assert es[..|es|] == es;
      PrefixOnView(cfg, w.outside, w.memory, c, t, f, |es|);
      SameSecretSameData(w.outside, Replay(w.outside, es), t);
    case Crash(f, done, _) =>
      var es := ReconcilePlan(cfg, w.outside, w.memory, c, f).effects;
      assert es[..|es|] == es;
      var n := if done < |es| then done else |es|;
      assert Done(cfg, w, c, step) == es[..n];
      PrefixOnView(cfg, w.outside, w.memory, c, t, f, n);
      SameSecretSameData(w.outside, Replay(w.outside, es[..n]), t);
  }

  lemma SameSecretSameData(s: Outside, s': Outside, t: ObjectKey)
    ensures SecretAt(s', t) == SecretAt(s, t) ==> Owned(s', t) == Owned(s, t)
  {
  }

  /** The resource stays watched along a run. */
  lemma {:induction false} RunStaysWatched(cfg: Settings, w: World, c: ObjectKey, t: ObjectKey, steps: seq<Step>)
    requires Watched(cfg, w.outside, c, t) && ValidRun(cfg, w, c, t, steps)
    ensures Watched(cfg, RunTo(cfg, w, c, steps).outside, c, t)
    ensures t in w.outside.secrets ==> t in RunTo(cfg, w, c, steps).outside.secrets
  {
    if steps != [] {
      RunStaysWatched(cfg, w, c, t, steps[..|steps| - 1]);
      StepOnView(cfg, RunTo(cfg, w, c, steps[..|steps| - 1]), c, t, steps[|steps| - 1]);
    }
  }

  // ---------------------------------------------------------------- agreement

  /** The stored hash, if there is one, is the hash of what the operator owns in the target. */
  ghost predicate Agreeing(cfg: Settings, s: Outside, c: ObjectKey, t: ObjectKey) {
    c in s.clients && (StatusOf(s, c).secretHash == "" || StatusOf(s, c).secretHash == HashOf(cfg, Owned(s, t)))
  }

  /** Every apply of the run is recorded in the status by the step that makes it. */
  ghost predicate AllRecorded(cfg: Settings, w: World, c: ObjectKey, t: ObjectKey, steps: seq<Step>) {
    steps != [] ==>
      var front := steps[..|steps| - 1];
      AllRecorded(cfg, w, c, t, front) && !UnrecordedIn(cfg, RunTo(cfg, w, c, front), c, t, steps[|steps| - 1])
  }

  /** Agreement holds at the end of every run whose applies are all recorded. */
  lemma {:induction false} AgreementHolds(cfg: Settings, w: World, c: ObjectKey, t: ObjectKey, steps: seq<Step>)
    requires Watched(cfg, w.outside, c, t) && ValidRun(cfg, w, c, t, steps)
    requires Agreeing(cfg, w.outside, c, t) && AllRecorded(cfg, w, c, t, steps)
    ensures Agreeing(cfg, RunTo(cfg, w, c, steps).outside, c, t)
  {
    if steps != [] {
      var front, last := steps[..|steps| - 1], steps[|steps| - 1];
      AgreementHolds(cfg, w, c, t, front);
      RunStaysWatched(cfg, w, c, t, front);
      StepOnView(cfg, RunTo(cfg, w, c, front), c, t, last);
    }
  }

  /**
   In an agreeing state the comparison tells the truth: the hashes match exactly when the target
   holds the desired data.
   */
  lemma {:induction false} ComparisonIsTruthful(cfg: Settings, s: Outside, c: ObjectKey, t: ObjectKey, data: Data)
    requires Agreeing(cfg, s, c, t) && CanonicalHash.Injective(cfg.digest)
    requires CanonicalHash.Comparable(data, Owned(s, t))
    ensures HashOf(cfg, data) == StatusOf(s, c).secretHash
       <==> StatusOf(s, c).secretHash != "" && Owned(s, t) == data
  {
    hide CanonicalHash.Comparable;
    assert HashOf(cfg, data)[0] == 's';
    CanonicalHash.HashIsInjective(data, Owned(s, t), cfg.digest);
  }

  // ---------------------------------------------------------------- when a reconcile writes

  lemma SyncAppliesIff(cfg: Settings, s: Outside, c: ObjectKey, spec: Spec, st: Status, data: Data, f: Faults)
    ensures var es := Sync(cfg, s, c, spec, st, data, f).effects;
            && (Applies(es, spec.target) <==> HashOf(cfg, data) != st.secretHash && !f.secretApply.WriteFailed?)
            && (f.secretApply.WriteFailed? ==> forall e | e in es :: !e.ApplySecret?)
  {
    hide Publish, HashOf, SetCondition;
    var es := Sync(cfg, s, c, spec, st, data, f).effects;
    var apply := ApplySecret(spec.target, data);
    if HashOf(cfg, data) != st.secretHash && !f.secretApply.WriteFailed? {
      assert es[0] == apply;
    }
  }

  /**
   A reconcile applies to the target exactly when it compares data whose hash differs from the
   stored one and the call goes through.  What the target holds, or whether it exists, plays no part.
   */
  lemma {:induction false} AppliesIff(cfg: Settings, w: World, c: ObjectKey, t: ObjectKey, f: Faults)
    requires Watched(cfg, w.outside, c, t)
    ensures var d := Compared(cfg, w.outside, w.memory, c, f);
            AppliesIn(cfg, w, c, t, Complete(f)) <==>
              d.Some? && HashOf(cfg, d.value) != StoredHash(w, c) && !f.secretApply.WriteFailed?
  {
    hide Sync, Refresh, AuthentikClient.FetchProvider, Desired, SetCondition, HashOf;
    var s := w.outside;
    var d := Compared(cfg, s, w.memory, c, f);
    if d.Some? {
      SyncAppliesIff(cfg, s, c, s.clients[c].spec, With(s.clients[c].status, AuthentikProviderFound, true), d.value, f);
    } else {
      RefreshIsTokenWork(cfg, s, LoadedToken(cfg, s, w.memory, f), f);
    }
  }

  /** A target that is missing is not created again while the hash is unchanged. */
  lemma {:induction false} MissingTargetIsNotRestored(cfg: Settings, w: World, c: ObjectKey, t: ObjectKey, f: Faults)
    requires Watched(cfg, w.outside, c, t) && t !in w.outside.secrets
    requires var d := Compared(cfg, w.outside, w.memory, c, f); d.Some? && HashOf(cfg, d.value) == StoredHash(w, c)
    ensures Done(cfg, w, c, Complete(f)) == [] && t !in After(cfg, w, c, Complete(f)).outside.secrets
  {
    hide ReconcilePlan, Compared, HashOf;
    PlanShape(cfg, w.outside, w.memory, c, t, f);
  }

  lemma SyncRecordsIff(cfg: Settings, s: Outside, c: ObjectKey, spec: Spec, st: Status, data: Data, f: Faults)
    requires HashOf(cfg, data) != st.secretHash && !f.secretApply.WriteFailed?
    ensures var es := Sync(cfg, s, c, spec, st, data, f).effects;
            if f.secretApply.WriteOk? && !f.statusWrite.WriteFailed?
            then es != [] && KeepsHash(es[|es| - 1], c, HashOf(cfg, data))
            else forall e | e in es && e.PutStatus? :: KeepsHash(e, c, st.secretHash)
  {
    hide HashOf, SetCondition, Replay;
  }

  lemma KeptHashOnce(s: Outside, e: Effect, c: ObjectKey)
    requires c in s.clients && (e.PutStatus? ==> KeepsHash(e, c, StatusOf(s, c).secretHash))
    ensures c in Perform(s, e).clients && StatusOf(Perform(s, e), c).secretHash == StatusOf(s, c).secretHash
  {
    hide Applied;
  }

  lemma {:induction false} KeptHash(s: Outside, es: seq<Effect>, c: ObjectKey)
    requires c in s.clients && forall e | e in es && e.PutStatus? :: KeepsHash(e, c, StatusOf(s, c).secretHash)
    ensures c in Replay(s, es).clients && StatusOf(Replay(s, es), c).secretHash == StatusOf(s, c).secretHash
  {
    hide Perform, KeepsHash;
    if es != [] {
      var front, last := es[..|es| - 1], es[|es| - 1];
      KeptHash(s, front, c);
      assert last in es;
      KeptHashOnce(Replay(s, front), last, c);
    }
  }

  /**
   An apply goes unrecorded exactly when its own response is lost, or it succeeds and the
   status write fails.
   */
  lemma {:induction false} UnrecordedIff(cfg: Settings, w: World, c: ObjectKey, t: ObjectKey, f: Faults)
    requires Watched(cfg, w.outside, c, t)
    ensures UnrecordedIn(cfg, w, c, t, Complete(f)) <==>
              && AppliesIn(cfg, w, c, t, Complete(f))
              && (f.secretApply.ResponseLost? || f.statusWrite.WriteFailed?)
  {
    hide Sync, Compared, HashOf, With, Replay, Applies, AuthentikClient.FetchProvider, Desired, FailurePlan;
    var s, d := w.outside, Compared(cfg, w.outside, w.memory, c, f);
    AppliesIff(cfg, w, c, t, f);
    if AppliesIn(cfg, w, c, t, Complete(f)) {
      StepOnView(cfg, w, c, t, Complete(f));
      var st := With(s.clients[c].status, AuthentikProviderFound, true);
      var es := ReconcilePlan(cfg, s, w.memory, c, f).effects;
      PlanIsSync(cfg, s, w.memory, c, f);
      SyncRecordsIff(cfg, s, c, s.clients[c].spec, st, d.value, f);
      if f.secretApply.ResponseLost? || f.statusWrite.WriteFailed? {
        KeptHash(s, es, c);
      } else {
        LastStatusStands(s, es, c, HashOf(cfg, d.value));
      }
    }
  }

  lemma PlanIsSync(cfg: Settings, s: Outside, memory: string, c: ObjectKey, f: Faults)
    requires c in s.clients && Compared(cfg, s, memory, c, f).Some?
    ensures ReconcilePlan(cfg, s, memory, c, f).effects
         == Sync(cfg, s, c, s.clients[c].spec, With(s.clients[c].status, AuthentikProviderFound, true),
                 Compared(cfg, s, memory, c, f).value, f).effects
    ensures With(s.clients[c].status, AuthentikProviderFound, true).secretHash == StatusOf(s, c).secretHash
  {
    hide Sync, AuthentikClient.FetchProvider, Desired, SetCondition;
  }

  lemma LastStatusStands(s: Outside, es: seq<Effect>, c: ObjectKey, hash: string)
    requires es != [] && KeepsHash(es[|es| - 1], c, hash)
    requires c in Replay(s, es).clients
    ensures StatusOf(Replay(s, es), c).secretHash == hash
  {
  }

  /** An agreeing state is followed by one that agrees, unless an apply goes unrecorded next to an earlier hash. */
  lemma {:induction false} AgreementIsKeptIff(cfg: Settings, w: World, c: ObjectKey, t: ObjectKey, step: Step)
    requires Watched(cfg, w.outside, c, t) && ValidStep(w, c, t, step) && Agreeing(cfg, w.outside, c, t)
    ensures Agreeing(cfg, After(cfg, w, c, step).outside, c, t)
       <==> StoredHash(w, c) == "" || !UnrecordedIn(cfg, w, c, t, step)
  {
    hide Done, After, ComparedIn, HashOf, Owned, AppliesIn;
    StepOnView(cfg, w, c, t, step);
  }

  // ---------------------------------------------------------------- the squeeze

  /** The data compared along a run, in order. */
  ghost function History(cfg: Settings, w: World, c: ObjectKey, steps: seq<Step>): seq<Data> {
    if steps == [] then []
    else
      var front := steps[..|steps| - 1];
      var d := ComparedIn(cfg, RunTo(cfg, w, c, front), c, steps[|steps| - 1]);
      History(cfg, w, c, front) + (if d.Some? then [d.value] else [])
  }

  /**
   `a` is the version of the stored hash and `b` the version of the owned data; the last version is
   the desired one.
   */
  ghost predicate SqueezedAt(cfg: Settings, s: Outside, c: ObjectKey, t: ObjectKey, versions: seq<Data>, a: int, b: int)
    requires c in s.clients
  {
    && 0 <= a <= b < |versions|
    && StatusOf(s, c).secretHash == HashOf(cfg, versions[a])
    && Owned(s, t) == versions[b]
  }

  /** version(stored hash) <= version(owned data) <= version(desired data) */
  ghost predicate Squeezed(cfg: Settings, s: Outside, c: ObjectKey, t: ObjectKey, versions: seq<Data>) {
    c in s.clients &&
    (StatusOf(s, c).secretHash == "" || exists a, b :: SqueezedAt(cfg, s, c, t, versions, a, b))
  }

  lemma SqueezeStep(cfg: Settings, w: World, c: ObjectKey, t: ObjectKey, step: Step, versions: seq<Data>)
    requires Watched(cfg, w.outside, c, t) && ValidStep(w, c, t, step)
    requires Squeezed(cfg, w.outside, c, t, versions)
    ensures var d := ComparedIn(cfg, w, c, step);
            Squeezed(cfg, After(cfg, w, c, step).outside, c, t, versions + (if d.Some? then [d.value] else []))
  {
    hide Done, After, ComparedIn, HashOf, Owned, AppliesIn;
    StepOnView(cfg, w, c, t, step);
    var s, s', d := w.outside, After(cfg, w, c, step).outside, ComparedIn(cfg, w, c, step);
    var more := versions + (if d.Some? then [d.value] else []);
    if StatusOf(s', c).secretHash != "" {
      if StatusOf(s', c).secretHash == StatusOf(s, c).secretHash {
        var a, b :| SqueezedAt(cfg, s, c, t, versions, a, b);
        if AppliesIn(cfg, w, c, t, step) {
          assert SqueezedAt(cfg, s', c, t, more, a, |more| - 1);
        } else {
          assert SqueezedAt(cfg, s', c, t, more, a, b);
        }
      } else {
        assert SqueezedAt(cfg, s', c, t, more, |more| - 1, |more| - 1);
      }
    }
  }

  /** Whatever is lost along the way, the stored hash never overtakes the data, nor the data what is desired. */
  lemma {:induction false} SqueezeHolds(
      cfg: Settings, w: World, c: ObjectKey, t: ObjectKey, steps: seq<Step>, versions: seq<Data>)
    requires Watched(cfg, w.outside, c, t) && ValidRun(cfg, w, c, t, steps)
    requires Squeezed(cfg, w.outside, c, t, versions)
    ensures Squeezed(cfg, RunTo(cfg, w, c, steps).outside, c, t, versions + History(cfg, w, c, steps))
  {
    hide Done, After, ComparedIn, Squeezed, ValidStep;
    if steps == [] {
      assert versions + [] == versions;
    } else {
      var front, last := steps[..|steps| - 1], steps[|steps| - 1];
      SqueezeHolds(cfg, w, c, t, front, versions);
      RunStaysWatched(cfg, w, c, t, front);
      var mid := RunTo(cfg, w, c, front);
      SqueezeStep(cfg, mid, c, t, last, versions + History(cfg, w, c, front));
      var d := ComparedIn(cfg, mid, c, last);
      var tail := if d.Some? then [d.value] else [];
      assert versions + History(cfg, w, c, steps) == versions + History(cfg, w, c, front) + tail;
    }
  }

  /** Once left, a value does not come back. */
  ghost predicate NeverReturns(versions: seq<Data>) {
    forall i, j, k :: 0 <= i < j < k < |versions| && versions[i] == versions[k] ==> versions[j] == versions[i]
  }

  ghost predicate PairwiseComparable(versions: seq<Data>) {
    forall i, j :: 0 <= i < |versions| && 0 <= j < |versions| ==> CanonicalHash.Comparable(versions[i], versions[j])
  }

  /**
   With any number of lost status writes and crashes: if the desired data never returns to an
   earlier value, then equal hashes still mean that the target holds the desired data.
   */
  lemma {:induction false} WithoutReturnComparisonIsSound(
      cfg: Settings, w: World, c: ObjectKey, t: ObjectKey, steps: seq<Step>, versions: seq<Data>, desired: Data)
    requires Watched(cfg, w.outside, c, t) && ValidRun(cfg, w, c, t, steps)
    requires Squeezed(cfg, w.outside, c, t, versions) && CanonicalHash.Injective(cfg.digest)
    requires var all := versions + History(cfg, w, c, steps) + [desired]; NeverReturns(all) && PairwiseComparable(all)
    requires var s := RunTo(cfg, w, c, steps).outside;
             c in s.clients && StatusOf(s, c).secretHash == HashOf(cfg, desired)
    ensures Owned(RunTo(cfg, w, c, steps).outside, t) == desired
  {
    hide CanonicalHash.Comparable, CanonicalHash.Injective, RunTo, Owned, CanonicalHash.Hash;
    var s := RunTo(cfg, w, c, steps).outside;
    var past := versions + History(cfg, w, c, steps);
    var all := past + [desired];
    SqueezeHolds(cfg, w, c, t, steps, versions);
    HashIsNotEmpty(cfg, desired);
    var a, b :| SqueezedAt(cfg, s, c, t, past, a, b);
    assert all[a] == past[a] && all[b] == past[b] && all[|past|] == desired;
    CanonicalHash.HashIsInjective(all[a], all[|past|], cfg.digest);
    assert all[a] == all[|past|];
    if a < b {
      assert all[b] == all[a];
    }
  }

  lemma HashIsNotEmpty(cfg: Settings, data: Data)
    ensures HashOf(cfg, data) != ""
  {
    assert HashOf(cfg, data)[0] == 's';
  }

  /**
   The condition is needed.  Once some data is applied without being recorded, a return of the
   desired data to what the stored hash stands for goes unnoticed: nothing is written, and the
   target keeps the other data.
   */
  lemma {:induction false} ReturnAfterLostRecordIsMissed(
      cfg: Settings, w: World, c: ObjectKey, t: ObjectKey, lost: Step, other: Data, drift: Step, back: Step)
    requires Watched(cfg, w.outside, c, t) && Agreeing(cfg, w.outside, c, t) && StoredHash(w, c) != ""
    requires ValidStep(w, c, t, lost) && UnrecordedIn(cfg, w, c, t, lost) && ComparedIn(cfg, w, c, lost) == Some(other)
    requires drift.Drift? && ValidStep(After(cfg, w, c, lost), c, t, drift)
    requires back.Complete? && ComparedIn(cfg, drift.after, c, back) == Some(Owned(w.outside, t))
    ensures Done(cfg, drift.after, c, back) == []
    ensures Owned(After(cfg, drift.after, c, back).outside, t) == other != Owned(w.outside, t)
  {
    hide ReconcilePlan, Compared, CanonicalHash.Hash, Owned, Replay;
    var w1 := After(cfg, w, c, lost);
    StepOnView(cfg, w, c, t, lost);
    StepOnView(cfg, w1, c, t, drift);
    PlanShape(cfg, drift.after.outside, drift.after.memory, c, t, back.f);
    StepOnView(cfg, drift.after, c, t, back);
  }

  // ---------------------------------------------------------------- bounded restarts

  datatype Tally = Tally(
    applies: nat,        // steps that applied data to the target
    changes: nat,        // compared data that differs from the data compared before it
    unrecorded: nat,     // applies that were not recorded
    restarts: nat,       // workload patches
    last: Option<Data>)  // the data compared last

  function CountRestarts(es: seq<Effect>): nat {
    if es == [] then 0 else (if es[0].Annotate? then 1 else 0) + CountRestarts(es[1..])
  }

  ghost function Counted(cfg: Settings, w: World, c: ObjectKey, t: ObjectKey, step: Step, n: Tally): Tally {
    var d := ComparedIn(cfg, w, c, step);
    Tally(
      n.applies + (if AppliesIn(cfg, w, c, t, step) then 1 else 0),
      n.changes + (if d.Some? && n.last.Some? && d != n.last then 1 else 0),
      n.unrecorded + (if UnrecordedIn(cfg, w, c, t, step) then 1 else 0),
      n.restarts + CountRestarts(Done(cfg, w, c, step)),
      if d.Some? then d else n.last)
  }

  ghost function TallyOf(cfg: Settings, w: World, c: ObjectKey, t: ObjectKey, steps: seq<Step>): Tally {
    if steps == [] then Tally(0, 0, 0, 0, None)
    else
      var front := steps[..|steps| - 1];
      Counted(cfg, RunTo(cfg, w, c, front), c, t, steps[|steps| - 1], TallyOf(cfg, w, c, t, front))
  }

  /** One apply is in credit exactly while the stored hash is that of the data compared last. */
  ghost predicate InBudget(cfg: Settings, w: World, c: ObjectKey, n: Tally)
    requires c in w.outside.clients
  {
    if n.last.None? then n.applies == 0
    else n.applies <= n.changes + n.unrecorded + (if StoredHash(w, c) == HashOf(cfg, n.last.value) then 1 else 0)
  }

  lemma BudgetStep(cfg: Settings, w: World, c: ObjectKey, t: ObjectKey, step: Step, n: Tally)
    requires Watched(cfg, w.outside, c, t) && ValidStep(w, c, t, step)
    requires InBudget(cfg, w, c, n)
    ensures Watched(cfg, After(cfg, w, c, step).outside, c, t)
    ensures InBudget(cfg, After(cfg, w, c, step), c, Counted(cfg, w, c, t, step, n))
  {
    hide Done, After, ComparedIn, HashOf, Owned, AppliesIn, CountRestarts;
    StepOnView(cfg, w, c, t, step);
  }

  lemma CountConcat(a: seq<Effect>, b: seq<Effect>)
    ensures CountRestarts(a + b) == CountRestarts(a) + CountRestarts(b)
  {
    if a == [] {
      assert a + b == b;
    } else {
      CountConcat(a[1..], b);
      assert (a + b)[1..] == a[1..] + b;
    }
  }

  lemma CountNone(es: seq<Effect>)
    requires forall e | e in es :: !e.Annotate?
    ensures CountRestarts(es) == 0
  {
  }

  lemma CountPrefix(es: seq<Effect>, n: nat)
    requires n <= |es|
    ensures CountRestarts(es[..n]) <= CountRestarts(es)
  {
    assert es == es[..n] + es[n..];
    CountConcat(es[..n], es[n..]);
  }

  lemma PublishRestartsOnce(s: Outside, c: ObjectKey, spec: Spec, st: Status, data: Data, hash: string, f: Faults)
    ensures CountRestarts(Publish(s, c, spec, st, data, hash, f).effects) <= 1
  {
    hide Replay, SetCondition;
    var cm := ConfigMapPart(s, spec, data, f);
    var s1 := Replay(s, cm.effects);
    var ro := RolloutPart(s1, spec, hash, f);
    var last := Written(f.statusWrite, PutStatus(c, SyncedStatus(st, cm, ro, hash)));
    CountNone(cm.effects);
    CountNone(last);
    CountConcat(cm.effects, ro.effects + last);
    CountConcat(ro.effects, last);
    assert |ro.effects| <= 1;
    assert CountRestarts(ro.effects) <= 1;
  }

  /** A reconcile restarts at most once, and only after applying. */
  lemma PlanRestartsOnce(cfg: Settings, s: Outside, memory: string, c: ObjectKey, t: ObjectKey, f: Faults)
    requires c in s.clients && s.clients[c].spec.target == t
    ensures CountRestarts(ReconcilePlan(cfg, s, memory, c, f).effects) <= 1
  {
    hide Publish, Refresh, HashOf, SetCondition, Desired;
    var bearer := LoadedToken(cfg, s, memory, f);
    var es := ReconcilePlan(cfg, s, memory, c, f).effects;
    var d := Compared(cfg, s, memory, c, f);
    if d.Some? {
      var spec, st := s.clients[c].spec, With(s.clients[c].status, AuthentikProviderFound, true);
      var hash := HashOf(cfg, d.value);
      if hash != st.secretHash && f.secretApply.WriteOk? {
        var apply := [ApplySecret(spec.target, d.value)];
        var rest := Publish(Replay(s, apply), c, spec, st, d.value, hash, f).effects;
        PublishRestartsOnce(Replay(s, apply), c, spec, st, d.value, hash, f);
        assert es == apply + rest;
        CountConcat(apply, rest);
        CountNone(apply);
      } else {
        CountNone(es);
      }
    } else {
      RefreshIsTokenWork(cfg, s, bearer, f);
      CountNone(es);
    }
  }

  lemma StepRestartsOnce(cfg: Settings, w: World, c: ObjectKey, t: ObjectKey, step: Step)
    requires Watched(cfg, w.outside, c, t)
    ensures CountRestarts(Done(cfg, w, c, step)) <= if AppliesIn(cfg, w, c, t, step) then 1 else 0
  {
    hide ReconcilePlan, Compared, HashOf;
    if !step.Drift? {
      var all := ReconcilePlan(cfg, w.outside, w.memory, c, step.f).effects;
      var es := Done(cfg, w, c, step);
      PlanShape(cfg, w.outside, w.memory, c, t, step.f);
      PlanRestartsOnce(cfg, w.outside, w.memory, c, t, step.f);
      assert es == all[..|es|];
      CountPrefix(all, |es|);
      assert forall e | e in es :: e in all;
      if AllQuiet(cfg, all, c, StoredHash(w, c)) || es == [] {
        CountNone(es);
      } else {
        assert es[0] == all[0];
      }
    }
  }

  /** Over any run: applies <= 1 + changes + unrecorded applies, and restarts <= applies. */
  lemma {:induction false} RestartsAreBounded(cfg: Settings, w: World, c: ObjectKey, t: ObjectKey, steps: seq<Step>)
    requires Watched(cfg, w.outside, c, t) && ValidRun(cfg, w, c, t, steps)
    ensures var n := TallyOf(cfg, w, c, t, steps);
            && n.restarts <= n.applies <= 1 + n.changes + n.unrecorded
            && Watched(cfg, RunTo(cfg, w, c, steps).outside, c, t)
            && InBudget(cfg, RunTo(cfg, w, c, steps), c, n)
  {
    if steps != [] {
      var front, last := steps[..|steps| - 1], steps[|steps| - 1];
      RestartsAreBounded(cfg, w, c, t, front);
      var mid := RunTo(cfg, w, c, front);
      BudgetStep(cfg, mid, c, t, last, TallyOf(cfg, w, c, t, front));
      StepRestartsOnce(cfg, mid, c, t, last);
    }
  }
}
