/** Bootstrap runs and Authentik's token store: one token per identifier, the same key by either route. */
module TokenStore {
  import opened Wrappers
  import opened Backends
  import opened AuthentikClient
  import opened Bootstrap
  import opened TokenScan

  /** The shell would print the stored key, or else the new one, on a single line without outer white space. */
  predicate PrintableKeys(a: Authentik, minted: string) {
    TokenLike(minted) && (SHELL_IDENTIFIER in a.tokens ==> TokenLike(a.tokens[SHELL_IDENTIFIER]))
  }

  /** Nothing but white space stands before the printed key on its line. */
  predicate BannerEnds(f: Faults) {
    f.exec.ExecDelivered? ==> Blank(LastLine(f.exec.banner))
  }

  /** A key comes back unchanged from the shell. */
  predicate KeysAreTokenLike(a: Authentik, f: Faults) {
    PrintableKeys(a, f.minted) && BannerEnds(f)
  }

  /** The store after a run that may have created the operator's token. */
  predicate SameOrCreated(a: Authentik, a': Authentik, minted: string) {
    && (a'.tokens == a.tokens ||
        (SHELL_IDENTIFIER !in a.tokens && a'.tokens == a.tokens[SHELL_IDENTIFIER := minted]))
    && a.accepted <= a'.accepted
    && a'.applications == a.applications && a'.providers == a.providers && a'.certificates == a.certificates
  }

  /** At most one creation, of the operator's token, and only if that is missing. */
  ghost predicate CreatesOnce(a: Authentik, es: seq<Effect>, minted: string) {
    && (forall i :: 0 <= i < |es| && es[i].StoreToken? ==>
          es[i] == StoreToken(SHELL_IDENTIFIER, minted) && SHELL_IDENTIFIER !in a.tokens)
    && (forall i, j :: 0 <= i < j < |es| && es[i].StoreToken? ==> !es[j].StoreToken?)
  }

  lemma {:induction false} StoreAfterReplay(s: Outside, es: seq<Effect>, minted: string)
    requires CreatesOnce(s.authentik, es, minted)
    ensures SameOrCreated(s.authentik, Replay(s, es).authentik, minted)
    ensures (exists e :: e in es && e.StoreToken?) <==> Replay(s, es).authentik.tokens != s.authentik.tokens
    ensures Replay(s, es).authentik.tokens != s.authentik.tokens ==> minted in Replay(s, es).authentik.accepted
  {
    if es != [] {
      var front, last := es[..|es| - 1], es[|es| - 1];
      StoreAfterReplay(s, front, minted);
      assert es == front + [last];
      if last.StoreToken? {
        assert forall e | e in front :: !e.StoreToken?;
        assert last in es;
        assert SHELL_IDENTIFIER in Replay(s, es).authentik.tokens;
      }
    }
  }

  lemma AcquiredCreatesOnce(s: Outside, cfg: Config, f: Faults)
    requires cfg.identifier == SHELL_IDENTIFIER
    ensures CreatesOnce(s.authentik, Acquired(s, cfg, f).effects, f.minted)
  {
  }

  lemma RefillCreatesOnce(s: Outside, cfg: Config, f: Faults)
    requires cfg.identifier == SHELL_IDENTIFIER
    ensures CreatesOnce(s.authentik, Refill(s, cfg, f).effects, f.minted)
  {
    hide Acquired;
    AcquiredCreatesOnce(s, cfg, f);
  }

  lemma RunCreatesOnce(s: Outside, cfg: Config, f: Faults)
    requires cfg.identifier == SHELL_IDENTIFIER
    ensures CreatesOnce(s.authentik, Run(s, cfg, f).effects, f.minted)
  {
    hide Refill;
    var deleted := Written(f.delete, DeleteSecret(cfg.tokenSecret));
    RefillCreatesOnce(s, cfg, f);
    if deleted != [] { ReplayOne(s, deleted[0]); }
    var s1 := Replay(s, deleted);
    assert s1.authentik == s.authentik;
    RefillCreatesOnce(s1, cfg, f);
    if Look(s.secrets, cfg.tokenSecret, f.existingRead).Found? && cfg.forceRefresh && f.delete.WriteOk? {
      var rest := Refill(s1, cfg, f).effects;
      var es := Run(s, cfg, f).effects;
      assert es == deleted + rest;
      assert deleted == [DeleteSecret(cfg.tokenSecret)];
      assert forall i :: 0 < i < |es| ==> es[i] == rest[i - 1];
    }
  }

  /** The state after a sequence of bootstrap runs, each of which may be cut short after some effects. */
  ghost function AfterRuns(s: Outside, cfg: Config, runs: seq<(Faults, nat)>): Outside {
    if runs == [] then s
    else
      var mid := AfterRuns(s, cfg, runs[..|runs| - 1]);
      var (f, n) := runs[|runs| - 1];
      var es := Run(mid, cfg, f).effects;
      Replay(mid, if n < |es| then es[..n] else es)
  }

  /**
   Between any two moments of any sequence of runs, whatever fails in them and wherever they
   are cut short: at most the one token of the operator is added, its key never changes once it
   is there, and no other token is touched.
   */
  lemma {:induction false} RunsAddAtMostOneToken(s: Outside, cfg: Config, runs: seq<(Faults, nat)>, k: nat)
    requires cfg.identifier == SHELL_IDENTIFIER && k <= |runs|
    ensures var a, a' := AfterRuns(s, cfg, runs[..k]).authentik, AfterRuns(s, cfg, runs).authentik;
            && a'.tokens - {SHELL_IDENTIFIER} == a.tokens - {SHELL_IDENTIFIER}
            && (SHELL_IDENTIFIER in a.tokens ==> a'.tokens == a.tokens)
            && a.accepted <= a'.accepted
  {
    hide Run;
    if k == |runs| {
      assert runs[..k] == runs;
    } else {
      var front := runs[..|runs| - 1];
      assert front[..k] == runs[..k];
      RunsAddAtMostOneToken(s, cfg, front, k);
      var mid := AfterRuns(s, cfg, front);
      var (f, n) := runs[|runs| - 1];
      var all := Run(mid, cfg, f).effects;
      var es := if n < |all| then all[..n] else all;
      RunCreatesOnce(mid, cfg, f);
      StoreAfterReplay(mid, es, f.minted);
    }
  }

  lemma ShellStores(s: Outside, cfg: Config, f: Faults)
    requires cfg.canExec && !f.exec.ExecNotRun?
    ensures var a := Replay(s, ExecEffects(s, cfg, f)).authentik;
            && SHELL_IDENTIFIER in a.tokens && a.tokens[SHELL_IDENTIFIER] == ShellKey(s.authentik, f.minted)
            && a.tokens - {SHELL_IDENTIFIER} == s.authentik.tokens - {SHELL_IDENTIFIER}
  {
    if SHELL_IDENTIFIER !in s.authentik.tokens {
      ReplayOne(s, StoreToken(SHELL_IDENTIFIER, f.minted));
    }
  }

  /** What the shell yields when its output arrives: the stored key exactly if its banner ends. */
  lemma ShellYieldsIff(s: Outside, cfg: Config, f: Faults)
    requires cfg.canExec && f.exec.ExecDelivered? && PrintableKeys(s.authentik, f.minted)
    ensures ExecKey(s, cfg, f) != ""
    ensures ExecKey(s, cfg, f) == ShellKey(s.authentik, f.minted) <==> BannerEnds(f)
  {
    hide TokenLine, TokenLike;
    TokenLikeIsNotEmpty(ShellKey(s.authentik, f.minted));
    PrintedKeyIsFoundIff(f.exec.banner, ShellKey(s.authentik, f.minted));
  }

  /**
   Whichever route yields a key, it is the key that Authentik then holds for the operator, with
   one exception: output in which the key does not start its own line.
   */
  lemma {:induction false} EitherRouteYieldsTheStoredKeyIff(s: Outside, cfg: Config, f: Faults)
    requires cfg.identifier == SHELL_IDENTIFIER && PrintableKeys(s.authentik, f.minted)
    requires Acquired(s, cfg, f).key.Some?
    ensures var a := Replay(s, Acquired(s, cfg, f).effects).authentik;
            && SHELL_IDENTIFIER in a.tokens
            && (Acquired(s, cfg, f).key == Some(a.tokens[SHELL_IDENTIFIER]) <==> !cfg.canExec || BannerEnds(f))
  {
    hide ShellKey, TokenLine, TokenLike, BannerEnds, PrintableKeys;
    var es := ExecEffects(s, cfg, f);
    if cfg.canExec && f.exec.ExecDelivered? {
      ShellYieldsIff(s, cfg, f);
      ShellStores(s, cfg, f);
    } else {
      assert !f.exec.ExecDelivered? ==> BannerEnds(f) by { NoBanner(f); }
      var c := Created(Replay(s, es), cfg.bootstrapToken, cfg.identifier, f.minted, f.post, f.view);
      ReplayConcat(s, es, c.effects);
    }
  }

  lemma NoBanner(f: Faults)
    ensures !f.exec.ExecDelivered? ==> BannerEnds(f)
  {
  }

  /**
   The shell ignores the configured identifier: the key that it yields is the one that
   Authentik holds for that identifier exactly when this is the identifier written into the
   shell command, or happens to have had the same key before.
   */
  lemma {:induction false} RoutesCoincideIff(s: Outside, cfg: Config, f: Faults)
    requires cfg.canExec && f.exec.ExecDelivered? && KeysAreTokenLike(s.authentik, f)
    ensures var a, key := Replay(s, Acquired(s, cfg, f).effects).authentik.tokens, ShellKey(s.authentik, f.minted);
            cfg.identifier in a && Acquired(s, cfg, f).key == Some(a[cfg.identifier]) <==>
              || cfg.identifier == "authentik-operator"
              || (cfg.identifier in s.authentik.tokens && s.authentik.tokens[cfg.identifier] == key)
  {
    hide ShellKey, TokenLine, TokenLike, PrintableKeys;
    ShellYieldsIff(s, cfg, f);
    ShellStores(s, cfg, f);
    var a := Replay(s, Acquired(s, cfg, f).effects).authentik.tokens;
    assert cfg.identifier != SHELL_IDENTIFIER ==>
      (cfg.identifier in a - {SHELL_IDENTIFIER} <==> cfg.identifier in s.authentik.tokens - {SHELL_IDENTIFIER});
  }

  /** The HTTP route does follow the configured identifier. */
  lemma {:induction false} HttpYieldsConfiguredKey(s: Outside, cfg: Config, f: Faults)
    requires !cfg.canExec || !f.exec.ExecDelivered?
    requires Acquired(s, cfg, f).key.Some?
    ensures var a := Replay(s, Acquired(s, cfg, f).effects).authentik.tokens;
            cfg.identifier in a && Acquired(s, cfg, f).key == Some(a[cfg.identifier])
  {
    hide Created, Replay, ExecEffects, TokenLine;
    var es := ExecEffects(s, cfg, f);
    var s1 := Replay(s, es);
    CreatedIsStored(s1, cfg.bootstrapToken, cfg.identifier, f.minted, f.post, f.view);
    ReplayConcat(s, es, Created(s1, cfg.bootstrapToken, cfg.identifier, f.minted, f.post, f.view).effects);
  }

  lemma CreatedIsStored(s: Outside, bearer: string, identifier: string, minted: string, fate: PostFate, view: Transport)
    ensures var c := Created(s, bearer, identifier, minted, fate, view);
            var a := Replay(s, c.effects).authentik.tokens;
            c.key.Some? ==> identifier in a && c.key == Some(a[identifier])
  {
    hide Replay;
  }

  // ---------------------------------------------------------------- when a key is to be had

  /** The shell command runs and does its work. */
  predicate ShellWorks(cfg: Config, f: Faults) {
    cfg.canExec && !f.exec.ExecNotRun?
  }

  /** The shell's output arrives, and is not all white space. */
  predicate ShellPrints(a: Authentik, cfg: Config, f: Faults) {
    cfg.canExec && f.exec.ExecDelivered? && !Blank(f.exec.banner + ShellKey(a, f.minted) + "\n")
  }

  /** Authentik accepts the bootstrap token, or the shell has just minted just that. */
  predicate BearerAccepted(a: Authentik, cfg: Config, f: Faults) {
    || cfg.bootstrapToken in a.accepted
    || (ShellWorks(cfg, f) && SHELL_IDENTIFIER !in a.tokens && cfg.bootstrapToken == f.minted)
  }

  /** The POST is answered with a status that lets the key be read. */
  predicate PostPasses(fate: PostFate) {
    || fate.PostDelivered?
    || (fate.PostReplaced? && (fate.status in {200, 201} || (fate.status == 400 && fate.saysExists)))
  }

  /** The token that the HTTP API is asked for exists once the POST is over. */
  predicate TokenExists(a: Authentik, cfg: Config, f: Faults) {
    || cfg.identifier in a.tokens
    || (ShellWorks(cfg, f) && cfg.identifier == SHELL_IDENTIFIER)
    || f.post.PostDelivered?
    || f.post.reached
  }

  /** The shell prints something, or else both HTTP requests get through to an existing token. */
  predicate KeyIsToBeHad(a: Authentik, cfg: Config, f: Faults) {
    || ShellPrints(a, cfg, f)
    || (BearerAccepted(a, cfg, f) && PostPasses(f.post) && TokenExists(a, cfg, f) && f.view.Delivered?)
  }

  lemma {:induction false} AcquiresIff(s: Outside, cfg: Config, f: Faults)
    ensures Acquired(s, cfg, f).key.Some? <==> KeyIsToBeHad(s.authentik, cfg, f)
  {
    hide TokenLine, Blank, ShellKey;
    if cfg.canExec && f.exec.ExecDelivered? {
      NothingScannedIff(f.exec.banner + ShellKey(s.authentik, f.minted) + "\n");
    }
    AskedStore(s, cfg, f);
    CreatedIff(Replay(s, ExecEffects(s, cfg, f)), cfg.bootstrapToken, cfg.identifier, f.minted, f.post, f.view);
  }

  /** What the shell leaves for the HTTP API to find. */
  lemma AskedStore(s: Outside, cfg: Config, f: Faults)
    ensures var a := Replay(s, ExecEffects(s, cfg, f)).authentik;
            && (cfg.bootstrapToken in a.accepted <==> BearerAccepted(s.authentik, cfg, f))
            && (cfg.identifier in a.tokens <==>
                  cfg.identifier in s.authentik.tokens || (ShellWorks(cfg, f) && cfg.identifier == SHELL_IDENTIFIER))
  {
    if ExecEffects(s, cfg, f) != [] {
      ReplayOne(s, StoreToken(SHELL_IDENTIFIER, f.minted));
    }
  }

  lemma CreatedIff(s: Outside, bearer: string, identifier: string, minted: string, fate: PostFate, view: Transport)
    ensures Created(s, bearer, identifier, minted, fate, view).key.Some? <==>
              && bearer in s.authentik.accepted && PostPasses(fate) && view.Delivered?
              && (identifier in s.authentik.tokens || fate.PostDelivered? || fate.reached)
  {
    if Creates(s.authentik, bearer, identifier, fate) {
      ReplayOne(s, StoreToken(identifier, minted));
    }
  }

  // ---------------------------------------------------------------- when a run succeeds

  /**
   The secret could be looked up, and either may stay, or is out of the way and written anew
   with a key that was to be had.
   */
  predicate RunSucceeds(s: Outside, cfg: Config, f: Faults) {
    && f.existingRead.ReadOk?
    && ((cfg.tokenSecret in s.secrets && !cfg.forceRefresh) ||
        (&& (cfg.tokenSecret in s.secrets ==> f.delete.WriteOk?)
         && f.ready
         && KeyIsToBeHad(s.authentik, cfg, f)
         && f.apply.WriteOk?))
  }

  lemma {:induction false} RunOkIff(s: Outside, cfg: Config, f: Faults)
    ensures Run(s, cfg, f).ok <==> RunSucceeds(s, cfg, f)
  {
    hide Acquired, KeyIsToBeHad, Perform;
    AcquiresIff(s, cfg, f);
    var bare := Replay(s, [DeleteSecret(cfg.tokenSecret)]);
    DeletingKeepsStore(s, cfg.tokenSecret);
    AcquiresIff(bare, cfg, f);
  }

  lemma DeletingKeepsStore(s: Outside, key: ObjectKey)
    ensures Replay(s, [DeleteSecret(key)]).authentik == s.authentik
  {
    ReplayOne(s, DeleteSecret(key));
  }

  /**
   A secret that exists is left alone unless a refresh is forced: any number of runs, whatever
   fails in them, changes nothing at all, and each succeeds exactly when its look-up does.
   */
  lemma {:induction false} UnforcedRunsChangeNothing(s: Outside, cfg: Config, runs: seq<(Faults, nat)>)
    requires !cfg.forceRefresh && cfg.tokenSecret in s.secrets
    ensures AfterRuns(s, cfg, runs) == s
    ensures forall r | r in runs ::
              Run(s, cfg, r.0).effects == [] && (Run(s, cfg, r.0).ok <==> r.0.existingRead.ReadOk?)
  {
    hide Run;
    if runs != [] {
      var front, last := runs[..|runs| - 1], runs[|runs| - 1];
      UnforcedRunsChangeNothing(s, cfg, front);
      UnforcedRun(s, cfg, last.0);
      assert runs == front + [last];
      assert Replay(s, []) == s;
    }
  }

  lemma UnforcedRun(s: Outside, cfg: Config, f: Faults)
    requires !cfg.forceRefresh && cfg.tokenSecret in s.secrets
    ensures Run(s, cfg, f).effects == [] && (Run(s, cfg, f).ok <==> f.existingRead.ReadOk?)
  {
    hide Refill;
  }

  /** What the token secret holds after a refill that succeeds: the stored key and nothing else of the operator's. */
  lemma {:induction false} RefilledSecretHoldsStoredKey(s: Outside, cfg: Config, f: Faults)
    requires cfg.identifier == SHELL_IDENTIFIER && KeysAreTokenLike(s.authentik, f)
    requires Refill(s, cfg, f).ok
    ensures var s' := Replay(s, Refill(s, cfg, f).effects);
            && SHELL_IDENTIFIER in s'.authentik.tokens
            && cfg.tokenSecret in s'.secrets
            && FieldValue(s'.secrets[cfg.tokenSecret], TOKEN_FIELD) == s'.authentik.tokens[SHELL_IDENTIFIER]
  {
    hide Acquired, TokenLike;
    var c := Acquired(s, cfg, f);
    EitherRouteYieldsTheStoredKeyIff(s, cfg, f);
    var apply := ApplySecret(cfg.tokenSecret, map[TOKEN_FIELD := c.key.value]);
    ReplayConcat(s, c.effects, [apply]);
    ReplayOne(Replay(s, c.effects), apply);
  }

  /** So does a run that succeeds, unless it left an earlier secret alone. */
  lemma {:induction false} RunHoldsStoredKey(s: Outside, cfg: Config, f: Faults)
    requires cfg.identifier == SHELL_IDENTIFIER && KeysAreTokenLike(s.authentik, f)
    requires Run(s, cfg, f).ok && (cfg.tokenSecret in s.secrets ==> cfg.forceRefresh)
    ensures var s' := Replay(s, Run(s, cfg, f).effects);
            && SHELL_IDENTIFIER in s'.authentik.tokens && cfg.tokenSecret in s'.secrets
            && FieldValue(s'.secrets[cfg.tokenSecret], TOKEN_FIELD) == s'.authentik.tokens[SHELL_IDENTIFIER] != ""
  {
    hide Refill, TokenLike, Perform, BannerEnds;
    var bare := Replay(s, [DeleteSecret(cfg.tokenSecret)]);
    DeletingKeepsStore(s, cfg.tokenSecret);
    var start := if cfg.tokenSecret in s.secrets then bare else s;
    RefilledSecretHoldsStoredKey(start, cfg, f);
    RefillCreatesOnce(start, cfg, f);
    StoreAfterReplay(start, Refill(start, cfg, f).effects, f.minted);
    TokenLikeIsNotEmpty(f.minted);
    if SHELL_IDENTIFIER in s.authentik.tokens { TokenLikeIsNotEmpty(s.authentik.tokens[SHELL_IDENTIFIER]); }
    ReplayConcat(s, [DeleteSecret(cfg.tokenSecret)], Refill(bare, cfg, f).effects);
  }
}
