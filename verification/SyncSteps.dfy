/**
 What one reconcile can do, in part or in whole, to the two things that belong together:
 the hash in the status of a resource, and the data in its target secret.
 */
module SyncSteps {
  import opened Wrappers
  import opened Backends
  import opened AuthentikClient
  import opened Rollout
  import opened Reconciler
  import Bootstrap

  // ---------------------------------------------------------------- the view of one resource

  /** The entries of a secret that the operator owns. */
  function OwnedData(secret: Secret): Data {
    map k | k in secret && OPERATOR in secret[k].owners :: secret[k].value
  }

  function Owned(s: Outside, t: ObjectKey): Data {
    OwnedData(SecretAt(s, t))
  }

  function StatusOf(s: Outside, c: ObjectKey): Status
    requires c in s.clients
  {
    s.clients[c].status
  }

  /** The resource exists, and its target is `t`, which is not the token secret. */
  predicate Watched(cfg: Settings, s: Outside, c: ObjectKey, t: ObjectKey) {
    c in s.clients && s.clients[c].spec.target == t && t != TokenKey(cfg)
  }

  /** The data that a reconcile compares by hash; None when it does not get that far. */
  function Compared(cfg: Settings, s: Outside, memory: string, c: ObjectKey, f: Faults): Option<Data> {
    var bearer := LoadedToken(cfg, s, memory, f);
    if (bearer == "" && cfg.tokenSecretName != "") || !Look(s.clients, c, f.clientRead).Found? then None
    else
      var spec := s.clients[c].spec;
      var fetched := FetchProvider(s.authentik, bearer, spec.slug, f.application, f.providers);
      if !fetched.Provided? then None
      else
        var cert := SigningCertificate(s.authentik, bearer, fetched.provider, f.certificate);
        Some(Desired(cfg, spec, fetched.provider, cert))
  }

  // ---------------------------------------------------------------- kinds of effects

  /** What acquiring a token can do. */
  predicate TokenEffect(e: Effect, tokenKey: ObjectKey) {
    || e.StoreToken?
    || e == DeleteSecret(tokenKey)
    || (e.ApplySecret? && e.key == tokenKey && e.data.Keys == {Bootstrap.TOKEN_FIELD})
  }

  /** A status of `c` that keeps the hash. */
  predicate KeepsHash(e: Effect, c: ObjectKey, hash: string) {
    e.PutStatus? && e.client == c && e.status.secretHash == hash
  }

  predicate Quiet(cfg: Settings, e: Effect, c: ObjectKey, hash: string) {
    TokenEffect(e, TokenKey(cfg)) || KeepsHash(e, c, hash)
  }

  /** What may follow the apply of data whose hash is `h`, when the stored hash was `h0`. */
  predicate AfterApply(e: Effect, c: ObjectKey, h0: string, h: string) {
    || e.PutConfigMap?
    || (e.Annotate? && e.name == ANNOTATION && e.value == h)
    || KeepsHash(e, c, h0)
    || KeepsHash(e, c, h)
  }

  ghost predicate AllQuiet(cfg: Settings, es: seq<Effect>, c: ObjectKey, hash: string) {
    forall e | e in es :: Quiet(cfg, e, c, hash)
  }

  ghost predicate AllAfterApply(es: seq<Effect>, c: ObjectKey, h0: string, h: string) {
    forall e | e in es :: AfterApply(e, c, h0, h)
  }

  /** An apply of `data` to the target, and then only what may follow it. */
  ghost predicate Applying(cfg: Settings, es: seq<Effect>, c: ObjectKey, t: ObjectKey, h0: string, data: Data) {
    && |es| > 0 && es[0] == ApplySecret(t, data)
    && HashOf(cfg, data) != h0
    && AllAfterApply(es[1..], c, h0, HashOf(cfg, data))
  }

  // ---------------------------------------------------------------- the shape of a reconcile

  lemma RefillIsTokenWork(s: Outside, cfg: Bootstrap.Config, f: Bootstrap.Faults)
    ensures forall e | e in Bootstrap.Refill(s, cfg, f).effects :: TokenEffect(e, cfg.tokenSecret)
  {
  }

  lemma BootstrapIsTokenWork(s: Outside, cfg: Bootstrap.Config, f: Bootstrap.Faults)
    ensures forall e | e in Bootstrap.Run(s, cfg, f).effects :: TokenEffect(e, cfg.tokenSecret)
  {
    hide Bootstrap.Refill;
    RefillIsTokenWork(s, cfg, f);
    RefillIsTokenWork(Replay(s, Written(f.delete, DeleteSecret(cfg.tokenSecret))), cfg, f);
  }

  lemma RefreshIsTokenWork(cfg: Settings, s: Outside, memory: string, f: Faults)
    ensures forall e | e in Refresh(cfg, s, memory, f).effects :: TokenEffect(e, TokenKey(cfg))
  {
    hide Bootstrap.Run;
    BootstrapIsTokenWork(s, BootConfig(cfg, BootstrapToken(cfg, s, f)), f.boot);
  }

  lemma PublishShape(s: Outside, c: ObjectKey, spec: Spec, st: Status, data: Data, hash: string, f: Faults)
    ensures AllAfterApply(Publish(s, c, spec, st, data, hash, f).effects, c, st.secretHash, hash)
  {
    hide Replay, SetCondition;
  }

  /** From the comparison on: nothing, or a report of a failed apply, or an apply and its consequences. */
  lemma SyncShape(cfg: Settings, s: Outside, c: ObjectKey, spec: Spec, st: Status, data: Data, f: Faults)
    ensures var es := Sync(cfg, s, c, spec, st, data, f).effects;
            && (HashOf(cfg, data) == st.secretHash ==> es == [])
            && (AllQuiet(cfg, es, c, st.secretHash) || Applying(cfg, es, c, spec.target, st.secretHash, data))
  {
    hide Publish, HashOf, SetCondition;
    var hash := HashOf(cfg, data);
    var apply := Written(f.secretApply, ApplySecret(spec.target, data));
    var es := Sync(cfg, s, c, spec, st, data, f).effects;
    if hash != st.secretHash {
      if f.secretApply.WriteOk? {
        var rest := Publish(Replay(s, apply), c, spec, st, data, hash, f).effects;
        PublishShape(Replay(s, apply), c, spec, st, data, hash, f);
        assert es == [ApplySecret(spec.target, data)] + rest;
        assert es[1..] == rest;
      } else if f.secretApply.ResponseLost? {
        var rest := Written(f.statusWrite, PutStatus(c, With(st, SecretSynced, false)));
        assert es == [ApplySecret(spec.target, data)] + rest;
        assert es[1..] == rest;
      }
    }
  }

  /** Every reconcile is quiet, or compares some data and applies just that. */
  lemma PlanShape(cfg: Settings, s: Outside, memory: string, c: ObjectKey, t: ObjectKey, f: Faults)
    requires c in s.clients && s.clients[c].spec.target == t
    ensures var es, d := ReconcilePlan(cfg, s, memory, c, f).effects, Compared(cfg, s, memory, c, f);
            var h0 := StatusOf(s, c).secretHash;
            && (AllQuiet(cfg, es, c, h0) || (d.Some? && Applying(cfg, es, c, t, h0, d.value)))
            && (d.Some? && HashOf(cfg, d.value) == h0 ==> es == [])
  {
    hide Sync, Refresh, FetchProvider, Desired, SetCondition, HashOf, Applying;
    var bearer := LoadedToken(cfg, s, memory, f);
    var client := s.clients[c];
    RefreshIsTokenWork(cfg, s, bearer, f);
    var d := Compared(cfg, s, memory, c, f);
    if d.Some? {
      SyncShape(cfg, s, c, client.spec, With(client.status, AuthentikProviderFound, true), d.value, f);
    }
  }

  // ---------------------------------------------------------------- the effect on the view

  lemma QuietPerform(cfg: Settings, s: Outside, e: Effect, c: ObjectKey, t: ObjectKey)
    requires Watched(cfg, s, c, t) && Quiet(cfg, e, c, StatusOf(s, c).secretHash)
    ensures var s' := Perform(s, e);
            && Watched(cfg, s', c, t)
            && SecretAt(s', t) == SecretAt(s, t) && (t in s'.secrets <==> t in s.secrets)
            && StatusOf(s', c).secretHash == StatusOf(s, c).secretHash
  {
    hide Applied;
  }

  lemma {:induction false} QuietReplay(cfg: Settings, s: Outside, es: seq<Effect>, c: ObjectKey, t: ObjectKey)
    requires Watched(cfg, s, c, t)
    requires AllQuiet(cfg, es, c, StatusOf(s, c).secretHash)
    ensures var s' := Replay(s, es);
            && Watched(cfg, s', c, t)
            && SecretAt(s', t) == SecretAt(s, t) && (t in s'.secrets <==> t in s.secrets)
            && StatusOf(s', c).secretHash == StatusOf(s, c).secretHash
  {
    hide Perform, Quiet;
    if es != [] {
      QuietReplay(cfg, s, es[..|es| - 1], c, t);
      QuietPerform(cfg, Replay(s, es[..|es| - 1]), es[|es| - 1], c, t);
    }
  }

  lemma {:induction false} AfterApplyReplay(
      cfg: Settings, s: Outside, es: seq<Effect>, c: ObjectKey, t: ObjectKey, h0: string, h: string)
    requires Watched(cfg, s, c, t)
    requires AllAfterApply(es, c, h0, h) && StatusOf(s, c).secretHash in {h0, h}
    ensures var s' := Replay(s, es);
            && Watched(cfg, s', c, t)
            && s'.secrets == s.secrets
            && StatusOf(s', c).secretHash in {h0, h}
  {
    if es != [] {
      AfterApplyReplay(cfg, s, es[..|es| - 1], c, t, h0, h);
      assert AfterApply(es[|es| - 1], c, h0, h);
    }
  }

  /** After an apply the operator owns exactly the applied data. */
  lemma {:induction false} ApplyOwns(old_: Secret, data: Data)
    ensures OwnedData(Applied(old_, data)) == data
  {
    var owned := OwnedData(Applied(old_, data));
    assert forall k :: k in owned <==> k in data;
  }

  lemma ApplyOnView(cfg: Settings, s: Outside, c: ObjectKey, t: ObjectKey, data: Data)
    requires Watched(cfg, s, c, t)
    ensures var s' := Replay(s, [ApplySecret(t, data)]);
            && Watched(cfg, s', c, t) && t in s'.secrets
            && SecretAt(s', t) == Applied(SecretAt(s, t), data) && Owned(s', t) == data
            && StatusOf(s', c) == StatusOf(s, c)
  {
    hide Applied;
    ReplayOne(s, ApplySecret(t, data));
    ApplyOwns(SecretAt(s, t), data);
  }

  ghost predicate Applies(es: seq<Effect>, t: ObjectKey) {
    exists e :: e in es && e.ApplySecret? && e.key == t
  }

  /**
   Any prefix of a reconcile's effects either leaves the stored hash and the owned data alone,
   or replaces the owned data by the compared data, whose hash differed from the stored one;
   the stored hash is then the old one or the hash of that data.
   */
  lemma {:induction false} PrefixOnView(
      cfg: Settings, s: Outside, memory: string, c: ObjectKey, t: ObjectKey, f: Faults, n: nat)
    requires Watched(cfg, s, c, t)
    requires n <= |ReconcilePlan(cfg, s, memory, c, f).effects|
    ensures var es := ReconcilePlan(cfg, s, memory, c, f).effects[..n];
            var s', d, h0 := Replay(s, es), Compared(cfg, s, memory, c, f), StatusOf(s, c).secretHash;
            && Watched(cfg, s', c, t)
            && (t in s.secrets ==> t in s'.secrets)
            && (if Applies(es, t) then
                  && d.Some? && HashOf(cfg, d.value) != h0
                  && SecretAt(s', t) == Applied(SecretAt(s, t), d.value)
                  && Owned(s', t) == d.value
                  && StatusOf(s', c).secretHash in {h0, HashOf(cfg, d.value)}
                else
                  && SecretAt(s', t) == SecretAt(s, t)
                  && StatusOf(s', c).secretHash == h0)
  {
    hide ReconcilePlan, Compared, HashOf, Applied, Perform, OwnedData;
    var all := ReconcilePlan(cfg, s, memory, c, f).effects;
    var es := all[..n];
    var h0 := StatusOf(s, c).secretHash;
    PlanShape(cfg, s, memory, c, t, f);
    if AllQuiet(cfg, all, c, h0) {
      assert forall e | e in es :: e in all;
      QuietReplay(cfg, s, es, c, t);
      assert !Applies(es, t);
    } else if n > 0 {
      var data := Compared(cfg, s, memory, c, f).value;
      var first, rest := ApplySecret(t, data), es[1..];
      assert es == [first] + rest;
      assert first in es;
      assert forall e | e in rest :: e in all[1..];
      ApplyOnView(cfg, s, c, t, data);
      ReplayConcat(s, [first], rest);
      AfterApplyReplay(cfg, Replay(s, [first]), rest, c, t, h0, HashOf(cfg, data));
    }
  }
}
