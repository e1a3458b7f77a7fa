/**
 Reconciles of different resources run at the same time.  Here the durable effects of one, and
 of any number of others, come in any order, and each read of the one sees what the others
 have done by then.  For the one resource that is no different from a run of `SyncRuns`.
 */
module SyncInterleaving {
  import opened Wrappers
  import opened Backends
  import opened Reconciler
  import opened SyncSteps
  import opened SyncRuns
  import opened SyncSafety

  /** `mix` is an interleaving of `own` and `others`. */
  ghost predicate Interleaves(mix: seq<Effect>, own: seq<Effect>, others: seq<Effect>)
    decreases |mix|
  {
    if mix == [] then own == [] && others == []
    else
      var front, last := mix[..|mix| - 1], mix[|mix| - 1];
      || (own != [] && own[|own| - 1] == last && Interleaves(front, own[..|own| - 1], others))
      || (others != [] && others[|others| - 1] == last && Interleaves(front, own, others[..|others| - 1]))
  }

  /** The resource and the target secret are the same in both states; anything else may differ. */
  ghost predicate SameHere(s: Outside, s': Outside, c: ObjectKey, t: ObjectKey) {
    && c in s.clients && c in s'.clients && s'.clients[c] == s.clients[c]
    && SecretAt(s', t) == SecretAt(s, t)
    && (t in s.secrets <==> t in s'.secrets)
  }

  /** What an effect does here depends only on what is here. */
  lemma EffectIsLocal(s: Outside, s': Outside, e: Effect, c: ObjectKey, t: ObjectKey)
    requires SameHere(s, s', c, t)
    ensures SameHere(Perform(s, e), Perform(s', e), c, t)
  {
    hide Applied;
  }

  lemma ApartChangesNothingHere(s: Outside, s': Outside, e: Effect, c: ObjectKey, t: ObjectKey)
    requires SameHere(s, s', c, t) && Apart(e, c, t)
    ensures SameHere(s, Perform(s', e), c, t)
  {
    hide Applied;
  }

  /** The effects of others leave no trace here, wherever they come in between. */
  lemma {:induction false} OthersLeaveNoTrace(
      s: Outside, s': Outside, mix: seq<Effect>, own: seq<Effect>, others: seq<Effect>, c: ObjectKey, t: ObjectKey)
    requires SameHere(s, s', c, t) && Interleaves(mix, own, others)
    requires forall e | e in others :: Apart(e, c, t)
    ensures SameHere(Replay(s, own), Replay(s', mix), c, t)
    decreases |mix|
  {
    hide SameHere, Perform, Apart;
    if mix != [] {
      var front, last := mix[..|mix| - 1], mix[|mix| - 1];
      if own != [] && own[|own| - 1] == last && Interleaves(front, own[..|own| - 1], others) {
        OthersLeaveNoTrace(s, s', front, own[..|own| - 1], others, c, t);
        EffectIsLocal(Replay(s, own[..|own| - 1]), Replay(s', front), last, c, t);
      } else {
        var rest := others[..|others| - 1];
        assert others == rest + [last];
        OthersLeaveNoTrace(s, s', front, own, rest, c, t);
        ApartChangesNothingHere(Replay(s, own), Replay(s', front), last, c, t);
      }
    }
  }

  /**
   The state that the reads of a step have seen: the resource and its target as they were at
   the start, since nobody else writes them, and all else as others had left it by each read.
   */
  ghost predicate SeenBy(w: World, seen: Outside, c: ObjectKey, t: ObjectKey) {
    SameHere(w.outside, seen, c, t)
  }

  /**
   A reconcile of the resource, whole or cut short, whose effects are interleaved with those of
   reconciles of others, comes to a run of three steps: the others' work as seen by its
   reads, the reconcile by itself, the rest of the others' work.  So every theorem about runs
   holds for such reconciles too, of up to any number of workers.
   */
  lemma {:induction false} InterleavedIsARun(
      cfg: Settings, w: World, c: ObjectKey, t: ObjectKey, seen: World, step: Step, mix: seq<Effect>,
      others: seq<Effect>,
      memory: string)
    requires Watched(cfg, w.outside, c, t) && SeenBy(w, seen.outside, c, t) && !step.Drift?
    requires Interleaves(mix, Done(cfg, seen, c, step), others)
    requires forall e | e in others :: Apart(e, c, t)
    ensures var after := World(Replay(w.outside, mix), memory);
            && ValidRun(cfg, w, c, t, [Drift(seen), step, Drift(after)])
            && RunTo(cfg, w, c, [Drift(seen), step, Drift(after)]) == after
  {
    hide ReconcilePlan, Replay, SameHere, Respects, Watched, Interleaves, Apart;
    var after := World(Replay(w.outside, mix), memory);
    SameHereBackwards(w.outside, seen.outside, c, t);
    OthersLeaveNoTrace(seen.outside, w.outside, mix, Done(cfg, seen, c, step), others, c, t);
    SameHereIsRespected(w.outside, seen.outside, c, t);
    SameHereIsRespected(After(cfg, seen, c, step).outside, after.outside, c, t);
    ThreeSteps(cfg, w, c, t, Drift(seen), step, Drift(after));
  }

  lemma SameHereIsRespected(s: Outside, s': Outside, c: ObjectKey, t: ObjectKey)
    requires SameHere(s, s', c, t)
    ensures Respects(s, s', c, t)
  {
    hide OwnedData;
  }

  lemma ThreeSteps(cfg: Settings, w: World, c: ObjectKey, t: ObjectKey, a: Step, b: Step, d: Step)
    requires var w1 := After(cfg, w, c, a);
             var w2 := After(cfg, w1, c, b);
             ValidStep(w, c, t, a) && ValidStep(w1, c, t, b) && ValidStep(w2, c, t, d)
    ensures ValidRun(cfg, w, c, t, [a, b, d])
    ensures RunTo(cfg, w, c, [a, b, d]) == After(cfg, After(cfg, After(cfg, w, c, a), c, b), c, d)
  {
    hide After, ValidStep;
    assert [a, b, d][..2] == [a, b] && [a, b][..1] == [a] && [a][..0] == [];
    assert RunTo(cfg, w, c, [a]) == After(cfg, w, c, a);
    assert RunTo(cfg, w, c, [a, b]) == After(cfg, After(cfg, w, c, a), c, b);
    assert ValidRun(cfg, w, c, t, [a]);
    assert ValidRun(cfg, w, c, t, [a, b]);
  }

  lemma SameHereBackwards(s: Outside, s': Outside, c: ObjectKey, t: ObjectKey)
    requires SameHere(s, s', c, t)
    ensures SameHere(s', s, c, t)
  {
  }

  /** So is any worker's token work, this one's included: it may come in any order with everything else. */
  lemma TokenWorkIsApart(cfg: Settings, e: Effect, c: ObjectKey, t: ObjectKey)
    requires t != TokenKey(cfg) && TokenEffect(e, TokenKey(cfg))
    ensures Apart(e, c, t)
  {
  }
}
