/** How a running operator can end up without any token: exactly when a refresh strands it. */
module Stranding {
  import opened Wrappers
  import opened Backends
  import opened AuthentikClient
  import opened Reconciler
  import opened SyncSteps
  import opened SyncRuns
  import opened Convergence
  import Bootstrap
  import TokenScan
  import TokenStore

  lemma AcquiringKeepsSecrets(s: Outside, cfg: Bootstrap.Config, f: Bootstrap.Faults)
    requires cfg.identifier == Bootstrap.SHELL_IDENTIFIER && TokenStore.KeysAreTokenLike(s.authentik, f)
    ensures var c := Bootstrap.Acquired(s, cfg, f);
            && Replay(s, c.effects).secrets == s.secrets
            && (c.key.Some? ==> c.key.value != "")
  {
    hide TokenScan.TokenLike, Bootstrap.Acquired;
    var c := Bootstrap.Acquired(s, cfg, f);
    TokenStore.AcquiredCreatesOnce(s, cfg, f);
    AcquiringOnlyStores(s, cfg, f);
    StoringKeepsSecrets(s, c.effects);
    TokenStore.StoreAfterReplay(s, c.effects, f.minted);
    if c.key.Some? {
      TokenStore.EitherRouteYieldsTheStoredKeyIff(s, cfg, f);
      TokenScan.TokenLikeIsNotEmpty(c.key.value);
    }
  }

  lemma AcquiringOnlyStores(s: Outside, cfg: Bootstrap.Config, f: Bootstrap.Faults)
    ensures forall e | e in Bootstrap.Acquired(s, cfg, f).effects :: e.StoreToken?
  {
    hide Replay;
  }

  lemma {:induction false} StoringKeepsSecrets(s: Outside, es: seq<Effect>)
    requires forall e | e in es :: e.StoreToken?
    ensures Replay(s, es).secrets == s.secrets
  {
    if es != [] {
      StoringKeepsSecrets(s, es[..|es| - 1]);
      assert es[|es| - 1] in es;
    }
  }

  /** The new secret is written: Authentik is ready, a key is to be had, and the apply takes effect. */
  predicate Refills(a: Authentik, cfg: Bootstrap.Config, f: Bootstrap.Faults) {
    f.ready && TokenStore.KeyIsToBeHad(a, cfg, f) && !f.apply.WriteFailed?
  }

  lemma RefillStoresIff(s: Outside, cfg: Bootstrap.Config, f: Bootstrap.Faults)
    requires cfg.identifier == Bootstrap.SHELL_IDENTIFIER && TokenStore.KeysAreTokenLike(s.authentik, f)
    requires cfg.tokenSecret !in s.secrets
    ensures TokenAt(Replay(s, Bootstrap.Refill(s, cfg, f).effects), cfg.tokenSecret) != ""
       <==> Refills(s.authentik, cfg, f)
  {
    hide TokenScan.TokenLike, Bootstrap.Acquired, TokenStore.KeyIsToBeHad;
    var c := Bootstrap.Acquired(s, cfg, f);
    AcquiringKeepsSecrets(s, cfg, f);
    TokenStore.AcquiresIff(s, cfg, f);
    if Refills(s.authentik, cfg, f) {
      var apply := ApplySecret(cfg.tokenSecret, map[Bootstrap.TOKEN_FIELD := c.key.value]);
      ReplayConcat(s, c.effects, [apply]);
      ReplayOne(Replay(s, c.effects), apply);
    } else if f.ready {
      assert c.effects + [] == c.effects;
    }
  }

  /** What a run leaves in the token secret: what was there, if that was left alone, or else what was written. */
  lemma {:induction false} RunStoresIff(s: Outside, cfg: Bootstrap.Config, f: Bootstrap.Faults)
    requires cfg.identifier == Bootstrap.SHELL_IDENTIFIER && TokenStore.KeysAreTokenLike(s.authentik, f)
    ensures var s' := Replay(s, Bootstrap.Run(s, cfg, f).effects);
            TokenAt(s', cfg.tokenSecret) != "" <==>
              if || f.existingRead.ReadFailed?
                 || (cfg.tokenSecret in s.secrets && (!cfg.forceRefresh || f.delete.WriteFailed?))
              then TokenAt(s, cfg.tokenSecret) != ""
              else
                && (cfg.tokenSecret in s.secrets ==> f.delete.WriteOk?)
                && Refills(s.authentik, cfg, f)
  {
    hide Bootstrap.Refill, Refills, TokenScan.TokenLike, Applied;
    var bare := Perform(s, DeleteSecret(cfg.tokenSecret));
    RefillStoresIff(bare, cfg, f);
    ReplayOne(s, DeleteSecret(cfg.tokenSecret));
    if cfg.tokenSecret !in s.secrets {
      assert bare == s;
    } else if f.existingRead.ReadOk? && f.delete.WriteOk? {
      ReplayConcat(s, [DeleteSecret(cfg.tokenSecret)], Bootstrap.Refill(bare, cfg, f).effects);
    }
  }

  /**
   When a refresh strands a running operator: the bootstrap secret was read, so the token in
   memory is gone, and afterwards the token secret holds none either.  That is so exactly when
   the old secret did not survive (or held nothing) and no new one was written.
   */
  lemma {:induction false} RefreshStrandsIff(cfg: Settings, w: World, c: ObjectKey, f: Faults)
    requires cfg.tokenSecretName != "" && LoadedToken(cfg, w.outside, w.memory, f) != ""
    requires c in w.outside.clients && f.clientRead.ReadOk?
    requires FetchProvider(w.outside.authentik, LoadedToken(cfg, w.outside, w.memory, f),
                           w.outside.clients[c].spec.slug, f.application, f.providers).TokenExpired?
    requires BootstrapToken(cfg, w.outside, f) != "" && TokenStore.KeysAreTokenLike(w.outside.authentik, f.boot)
    ensures var s, key := w.outside, TokenKey(cfg);
            Stranded(cfg, After(cfg, w, c, Complete(f))) <==>
              if f.boot.existingRead.ReadFailed? || (key in s.secrets && f.boot.delete.WriteFailed?)
              then TokenAt(s, key) == ""
              else
                || (key in s.secrets && !f.boot.delete.WriteOk?)
                || !Refills(s.authentik, BootConfig(cfg, BootstrapToken(cfg, s, f)), f.boot)
  {
    hide Bootstrap.Run, FetchProvider, Sync, SetCondition, BootstrapToken, Replay, Perform, Refills;
    hide TokenStore.KeysAreTokenLike;
    var s, bearer := w.outside, LoadedToken(cfg, w.outside, w.memory, f);
    var bcfg := BootConfig(cfg, BootstrapToken(cfg, s, f));
    var r := Refresh(cfg, s, bearer, f);
    RunStoresIff(s, bcfg, f.boot);
    var missing := MissingEffects(c, s.clients[c].status, f);
    ReplayConcat(s, r.effects, missing);
    ReportsKeepSecrets(Replay(s, r.effects), missing);
  }

  lemma ReportsKeepSecrets(s: Outside, es: seq<Effect>)
    requires |es| <= 1 && forall e | e in es :: e.PutStatus?
    ensures Replay(s, es).secrets == s.secrets
  {
    if es != [] {
      assert es == [es[0]] && es[0] in es;
      ReplayOne(s, es[0]);
    }
  }
}
