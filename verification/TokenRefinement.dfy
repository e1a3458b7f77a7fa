/**
 The step-by-step worker is the program: for every outcome of the calls, the token refresh of
 a reconcile is what one worker does when no other comes in between.
 */
module TokenRefinement {
  import opened Wrappers
  import opened Backends
  import opened SharedToken
  import AuthentikClient
  import Bootstrap
  import Reconciler
  import TokenScan
  import TokenStore

  function SecretSeen(s: Outside, tokenKey: ObjectKey): Option<string> {
    if tokenKey in s.secrets then Some(FieldValue(s.secrets[tokenKey], Bootstrap.TOKEN_FIELD)) else None
  }

  function StoreSeen(s: Outside): Option<string> {
    if Bootstrap.SHELL_IDENTIFIER in s.authentik.tokens
    then Some(s.authentik.tokens[Bootstrap.SHELL_IDENTIFIER])
    else None
  }

  /** What a worker at that place sees of the outside world. */
  function Seen(s: Outside, tokenKey: ObjectKey, memory: string, place: Place): Local {
    Local(memory, SecretSeen(s, tokenKey), StoreSeen(s), place)
  }

  function Steps(l: Local, cs: seq<Choice>): Local
    decreases |cs|
  {
    if cs == [] then l else Steps(Step(l, cs[0]), cs[1..])
  }

  /** Some steps of the one worker lead there. */
  ghost predicate Alone(l: Local, l': Local) {
    exists cs :: Steps(l, cs) == l'
  }

  lemma AloneThere(l: Local)
    ensures Alone(l, l)
  {
    assert Steps(l, []) == l;
  }

  lemma AloneAfter(l: Local, c: Choice, l': Local)
    requires Alone(Step(l, c), l')
    ensures Alone(l, l')
  {
    var cs :| Steps(Step(l, c), cs) == l';
    assert ([c] + cs)[1..] == cs;
    assert Steps(l, [c] + cs) == l';
  }

  const ANY := Choice(true, WriteOk, ShellFate.NotRun, false, "")

  // ---------------------------------------------------------------- what effects look like from here

  lemma SeenStore(s: Outside, tokenKey: ObjectKey, minted: string)
    ensures var s' := Replay(s, [StoreToken(Bootstrap.SHELL_IDENTIFIER, minted)]);
            SecretSeen(s', tokenKey) == SecretSeen(s, tokenKey) && StoreSeen(s') == Some(minted)
  {
    ReplayOne(s, StoreToken(Bootstrap.SHELL_IDENTIFIER, minted));
  }

  lemma SeenDelete(s: Outside, tokenKey: ObjectKey)
    ensures var s' := Replay(s, [DeleteSecret(tokenKey)]);
            SecretSeen(s', tokenKey) == None && StoreSeen(s') == StoreSeen(s)
  {
    ReplayOne(s, DeleteSecret(tokenKey));
  }

  lemma SeenApply(s: Outside, tokenKey: ObjectKey, key: string)
    ensures var s' := Replay(s, [ApplySecret(tokenKey, map[Bootstrap.TOKEN_FIELD := key])]);
            SecretSeen(s', tokenKey) == Some(key) && StoreSeen(s') == StoreSeen(s)
  {
    ReplayOne(s, ApplySecret(tokenKey, map[Bootstrap.TOKEN_FIELD := key]));
  }

  // ---------------------------------------------------------------- phases

  /** From asking on, a worker gets to `place` in the state that `es` leads to. */
  ghost predicate Gets(s: Outside, tokenKey: ObjectKey, memory: string, from: Place, es: seq<Effect>, place: Place) {
    Alone(Seen(s, tokenKey, memory, from), Seen(Replay(s, es), tokenKey, memory, place))
  }

  function KeyPlace(key: Option<string>): Place {
    if key.Some? then Applying(key.value) else Idle
  }

  lemma HttpPhase(s: Outside, tokenKey: ObjectKey, memory: string, bearer: string, f: Bootstrap.Faults)
    ensures var c := AuthentikClient.Created(s, bearer, Bootstrap.SHELL_IDENTIFIER, f.minted, f.post, f.view);
            Gets(s, tokenKey, memory, Posting, c.effects, KeyPlace(c.key))
  {
    hide Alone;
    var id := Bootstrap.SHELL_IDENTIFIER;
    var c := AuthentikClient.Created(s, bearer, id, f.minted, f.post, f.view);
    var s' := Replay(s, c.effects);
    var goal := Seen(s', tokenKey, memory, KeyPlace(c.key));
    var creates := Creates(s.authentik, bearer, id, f.post);
    var mayView := AuthentikClient.MayView(CreateAnswer(s.authentik, bearer, id, f.post));
    SeenStore(s, tokenKey, f.minted);
    assert Replay(s, []) == s;
    var posting := ANY.(creates := creates, minted := f.minted, ok := mayView);
    var viewing := ANY.(ok := AuthentikClient.ViewedKey(s'.authentik, bearer, id, f.view).Some?);
    var l1 := Step(Seen(s, tokenKey, memory, Posting), posting);
    AloneThere(goal);
    if mayView {
      assert l1 == Seen(s', tokenKey, memory, Viewing);
      assert Step(l1, viewing) == goal;
      AloneAfter(l1, viewing, goal);
    } else {
      assert l1 == goal;
    }
    AloneAfter(Seen(s, tokenKey, memory, Posting), posting, goal);
  }

  lemma AskPhase(s: Outside, cfg: Bootstrap.Config, memory: string, f: Bootstrap.Faults)
    requires cfg.identifier == Bootstrap.SHELL_IDENTIFIER && TokenStore.KeysAreTokenLike(s.authentik, f)
    ensures var c := Bootstrap.Acquired(s, cfg, f);
            Gets(s, cfg.tokenSecret, memory, Asking, c.effects, KeyPlace(c.key))
  {
    hide Alone, AuthentikClient.Created, TokenScan.TokenLine, TokenScan.TokenLike;
    var t := cfg.tokenSecret;
    var es := Bootstrap.ExecEffects(s, cfg, f);
    var s1 := Replay(s, es);
    var c := Bootstrap.Acquired(s, cfg, f);
    var goal := Seen(Replay(s, c.effects), t, memory, KeyPlace(c.key));
    var start := Seen(s, t, memory, Asking);
    SeenStore(s, t, f.minted);
    assert Replay(s, []) == s;
    if cfg.canExec && f.exec.ExecDelivered? {
      var key := Bootstrap.ShellKey(s.authentik, f.minted);
      TokenStore.ShellYieldsIff(s, cfg, f);
      TokenScan.TokenLikeIsNotEmpty(key);
      var printed := ANY.(shell := ShellFate.Printed, minted := f.minted);
      assert Step(start, printed) == goal;
      AloneThere(goal);
      AloneAfter(start, printed, goal);
    } else {
      var http := AuthentikClient.Created(s1, cfg.bootstrapToken, cfg.identifier, f.minted, f.post, f.view);
      var asked := ANY.(shell := if es == [] then ShellFate.NotRun else ShellFate.Broken, minted := f.minted);
      assert Step(start, asked) == Seen(s1, t, memory, Posting);
      HttpPhase(s1, t, memory, cfg.bootstrapToken, f);
      ReplayConcat(s, es, http.effects);
      AloneAfter(start, asked, goal);
    }
  }

  lemma AloneTogether(a: Local, b: Local, c: Local)
    requires Alone(a, b) && Alone(b, c)
    ensures Alone(a, c)
  {
    var cs :| Steps(a, cs) == b;
    StepsThen(a, b, c, cs);
  }

  lemma {:induction false} StepsThen(a: Local, b: Local, c: Local, cs: seq<Choice>)
    requires Steps(a, cs) == b && Alone(b, c)
    ensures Alone(a, c)
    decreases |cs|
  {
    if cs != [] {
      StepsThen(Step(a, cs[0]), b, c, cs[1..]);
      AloneAfter(a, cs[0], c);
    }
  }

  lemma ApplyPhase(s: Outside, tokenKey: ObjectKey, memory: string, key: string, o: WriteOutcome)
    ensures Gets(s, tokenKey, memory, Applying(key),
                 Written(o, ApplySecret(tokenKey, map[Bootstrap.TOKEN_FIELD := key])),
                 if o.WriteOk? then Reloading else Idle)
  {
    hide Alone, Perform, SecretSeen, StoreSeen;
    var goal := Seen(Replay(s, Written(o, ApplySecret(tokenKey, map[Bootstrap.TOKEN_FIELD := key]))), tokenKey, memory,
                     if o.WriteOk? then Reloading else Idle);
    SeenApply(s, tokenKey, key);
    assert Replay(s, []) == s;
    assert Step(Seen(s, tokenKey, memory, Applying(key)), ANY.(write := o)) == goal;
    AloneThere(goal);
    AloneAfter(Seen(s, tokenKey, memory, Applying(key)), ANY.(write := o), goal);
  }

  lemma WaitPhase(s: Outside, cfg: Bootstrap.Config, memory: string, f: Bootstrap.Faults)
    requires cfg.identifier == Bootstrap.SHELL_IDENTIFIER && TokenStore.KeysAreTokenLike(s.authentik, f)
    ensures var run := Bootstrap.Refill(s, cfg, f);
            Gets(s, cfg.tokenSecret, memory, Waiting, run.effects, if run.ok then Reloading else Idle)
  {
    hide Alone, Bootstrap.Acquired, TokenScan.TokenLike, Perform, SecretSeen, StoreSeen;
    var t := cfg.tokenSecret;
    var run := Bootstrap.Refill(s, cfg, f);
    var goal := Seen(Replay(s, run.effects), t, memory, if run.ok then Reloading else Idle);
    var start := Seen(s, t, memory, Waiting);
    var waited := ANY.(ok := f.ready);
    AloneThere(goal);
    assert Replay(s, []) == s;
    if f.ready {
      var c := Bootstrap.Acquired(s, cfg, f);
      var s1 := Replay(s, c.effects);
      AskPhase(s, cfg, memory, f);
      var asked := Seen(s1, t, memory, KeyPlace(c.key));
      if c.key.Some? {
        ApplyPhase(s1, t, memory, c.key.value, f.apply);
        ReplayConcat(s, c.effects, Written(f.apply, ApplySecret(t, map[Bootstrap.TOKEN_FIELD := c.key.value])));
      }
      AloneTogether(Seen(s, t, memory, Asking), asked, goal);
    }
    AloneAfter(start, waited, goal);
  }

  lemma CheckPhase(s: Outside, cfg: Bootstrap.Config, memory: string, f: Bootstrap.Faults)
    requires cfg.identifier == Bootstrap.SHELL_IDENTIFIER && cfg.forceRefresh
        && TokenStore.KeysAreTokenLike(s.authentik, f)
    ensures var run := Bootstrap.Run(s, cfg, f);
            Gets(s, cfg.tokenSecret, memory, Checking, run.effects, if run.ok then Reloading else Idle)
  {
    hide Alone, Bootstrap.Refill, TokenScan.TokenLike, StoreSeen, Applied;
    var t := cfg.tokenSecret;
    var run := Bootstrap.Run(s, cfg, f);
    var goal := Seen(Replay(s, run.effects), t, memory, if run.ok then Reloading else Idle);
    var start := Seen(s, t, memory, Checking);
    var checked := ANY.(ok := f.existingRead.ReadOk?);
    AloneThere(goal);
    assert Replay(s, []) == s;
    if f.existingRead.ReadOk? {
      if t in s.secrets {
        var deleted := Written(f.delete, DeleteSecret(t));
        SeenDelete(s, t);
        var s1 := Replay(s, deleted);
        if f.delete.WriteOk? {
          ReplayOne(s, DeleteSecret(t));
          assert s1.authentik == s.authentik;
          WaitPhase(s1, cfg, memory, f);
          ReplayConcat(s, deleted, Bootstrap.Refill(s1, cfg, f).effects);
        }
        AloneAfter(Seen(s, t, memory, Deleting), ANY.(write := f.delete), goal);
      } else {
        WaitPhase(s, cfg, memory, f);
      }
    }
    AloneAfter(start, checked, goal);
  }

  /**
   The refresh of a reconcile, for every outcome of its calls, is what one worker does from the
   moment its token was refused to the end, with nobody in between: the same token in memory,
   the same token secret, the same key at Authentik.
   */
  lemma {:induction false} RefreshIsOneWorkerAlone(
      cfg: Reconciler.Settings, s: Outside, memory: string, f: Reconciler.Faults)
    requires TokenStore.KeysAreTokenLike(s.authentik, f.boot)
    ensures var r := Reconciler.Refresh(cfg, s, memory, f);
            Alone(Seen(s, Reconciler.TokenKey(cfg), memory, Refused),
                  Seen(Replay(s, r.effects), Reconciler.TokenKey(cfg), r.memory, Idle))
  {
    hide Alone, Bootstrap.Run, TokenScan.TokenLike, Reconciler.BootstrapToken;
    var t := Reconciler.TokenKey(cfg);
    var r := Reconciler.Refresh(cfg, s, memory, f);
    var token := Reconciler.BootstrapToken(cfg, s, f);
    var goal := Seen(Replay(s, r.effects), t, r.memory, Idle);
    AloneThere(goal);
    assert Replay(s, []) == s;
    if token != "" {
      var run := Bootstrap.Run(s, Reconciler.BootConfig(cfg, token), f.boot);
      var s1 := Replay(s, run.effects);
      CheckPhase(s, Reconciler.BootConfig(cfg, token), "", f.boot);
      var checked := Seen(s1, t, "", if run.ok then Reloading else Idle);
      if run.ok {
        var reload := ANY.(ok := f.reload.ReadOk?);
        if r.ok {
          assert Step(checked, reload) == Seen(s1, t, "", Storing(r.memory));
          AloneAfter(Step(checked, reload), ANY, goal);
        }
        AloneAfter(checked, reload, goal);
      }
      AloneTogether(Seen(s, t, "", Checking), checked, goal);
      AloneAfter(Seen(s, t, memory, Clearing), ANY, goal);
    }
    AloneAfter(Seen(s, t, memory, Refused), ANY.(ok := token != ""), goal);
  }

  /** So is the loading of the token at the start of a reconcile. */
  lemma {:induction false} LoadIsOneWorkerAlone(
      cfg: Reconciler.Settings, s: Outside, memory: string, f: Reconciler.Faults)
    requires cfg.tokenSecretName != ""
    ensures var bearer := Reconciler.LoadedToken(cfg, s, memory, f);
            Alone(Seen(s, Reconciler.TokenKey(cfg), memory, Idle),
                  Seen(s, Reconciler.TokenKey(cfg), bearer, if bearer == "" then Idle else Fetching))
  {
    hide Alone, StoreSeen;
    var t, bearer := Reconciler.TokenKey(cfg), Reconciler.LoadedToken(cfg, s, memory, f);
    var goal := Seen(s, t, bearer, if bearer == "" then Idle else Fetching);
    AloneThere(goal);
    if memory == "" {
      var read := ANY.(ok := f.tokenRead.ReadOk?);
      AloneAfter(Seen(s, t, bearer, LoadCheck), ANY, goal);
      if bearer != "" {
        AloneAfter(Seen(s, t, "", LoadSet(bearer)), ANY, goal);
      }
      AloneAfter(Seen(s, t, "", LoadRead), read, goal);
    }
    AloneAfter(Seen(s, t, memory, Idle), ANY, goal);
  }
}
