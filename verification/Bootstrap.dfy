/** Acquiring the operator's API token and keeping it in a secret. */
module Bootstrap {
  import opened Wrappers
  import opened Backends
  import opened AuthentikClient
  import opened TokenScan

  /** The identifier written into the shell command. */
  const SHELL_IDENTIFIER := "authentik-operator"

  const TOKEN_FIELD := "token"

  datatype Config = Config(
    bootstrapToken: string,
    identifier: string,
    tokenSecret: ObjectKey,
    forceRefresh: bool,
    canExec: bool)

  /**
   Running the shell command: it may not start, it may do its work and then lose its output
   stream, or it may deliver its output, which is a banner followed by the printed key.
   */
  datatype ExecFate = ExecNotRun | ExecStreamBroken | ExecDelivered(banner: string)

  datatype Faults = Faults(
    existingRead: ReadOutcome,
    delete: WriteOutcome,
    ready: bool,
    exec: ExecFate,
    post: PostFate,
    view: Transport,
    minted: string,            // the key that Authentik makes up if a token is created
    apply: WriteOutcome)

  /** Token.objects.get_or_create */
  function GetOrCreateEffects(a: Authentik, minted: string): seq<Effect> {
    if SHELL_IDENTIFIER in a.tokens then [] else [StoreToken(SHELL_IDENTIFIER, minted)]
  }

  function ShellKey(a: Authentik, minted: string): string {
    if SHELL_IDENTIFIER in a.tokens then a.tokens[SHELL_IDENTIFIER] else minted
  }

  function ExecEffects(s: Outside, cfg: Config, f: Faults): seq<Effect> {
    if cfg.canExec && !f.exec.ExecNotRun? then GetOrCreateEffects(s.authentik, f.minted) else []
  }

  /** The key scanned from the output; empty when this route yields none. */
  function ExecKey(s: Outside, cfg: Config, f: Faults): string {
    if cfg.canExec && f.exec.ExecDelivered?
    then TokenLine(f.exec.banner + ShellKey(s.authentik, f.minted) + "\n")
    else ""
  }

  /** The shell first, the HTTP API when the shell yields nothing. */
  function Acquired(s: Outside, cfg: Config, f: Faults): Creation {
    var es := ExecEffects(s, cfg, f);
    var key := ExecKey(s, cfg, f);
    if key != "" then Creation(es, Some(key))
    else
      var c := Created(Replay(s, es), cfg.bootstrapToken, cfg.identifier, f.minted, f.post, f.view);
      Creation(es + c.effects, c.key)
  }

  datatype Outcome = Outcome(effects: seq<Effect>, ok: bool)

  /** What a run does once the existing secret is out of the way. */
  function Refill(s: Outside, cfg: Config, f: Faults): Outcome {
    if !f.ready then Outcome([], false)
    else
      var c := Acquired(s, cfg, f);
      if c.key.None? then Outcome(c.effects, false)
      else
        Outcome(
          c.effects + Written(f.apply, ApplySecret(cfg.tokenSecret, map[TOKEN_FIELD := c.key.value])),
          f.apply.WriteOk?)
  }

  function Run(s: Outside, cfg: Config, f: Faults): Outcome {
    match Look(s.secrets, cfg.tokenSecret, f.existingRead)
    case Failed => Outcome([], false)
    case NotFound => Refill(s, cfg, f)
    case Found(_) =>
      if !cfg.forceRefresh then Outcome([], true)
      else
        var deleted := Written(f.delete, DeleteSecret(cfg.tokenSecret));
        if !f.delete.WriteOk? then Outcome(deleted, false)
        else
          var rest := Refill(Replay(s, deleted), cfg, f);
          Outcome(deleted + rest.effects, rest.ok)
  }

  // ---------------------------------------------------------------- the program

  method ExecGetToken(b: Backends, cfg: Config, f: Faults) returns (key: string)
    requires cfg.canExec
    modifies b
    ensures var es := ExecEffects(old(b.State()), cfg, f);
            b.State() == Replay(old(b.State()), es) && b.log == old(b.log) + es
    ensures key == ExecKey(old(b.State()), cfg, f)
  {
    key := "";
    if f.exec.ExecNotRun? {
      return;
    }
    var stored := ShellKey(b.authentik, f.minted);
    if SHELL_IDENTIFIER !in b.authentik.tokens {
      b.Commit(StoreToken(SHELL_IDENTIFIER, f.minted));
    }
    if f.exec.ExecStreamBroken? {
      return;
    }
    key := ScanOutput(f.exec.banner + stored + "\n");
  }

  lemma NoShell(s: Outside, cfg: Config, f: Faults)
    requires !cfg.canExec
    ensures ExecEffects(s, cfg, f) == [] && ExecKey(s, cfg, f) == ""
    ensures Replay(s, []) == s
  {
  }

  method AcquireKey(b: Backends, cfg: Config, f: Faults) returns (key: Option<string>)
    modifies b
    ensures var c := Acquired(old(b.State()), cfg, f);
            && b.State() == Replay(old(b.State()), c.effects)
            && b.log == old(b.log) + c.effects
            && key == c.key
  {
    hide Created, ExecEffects, ExecKey, Replay;
    ghost var s := b.State();
    ghost var first := ExecEffects(s, cfg, f);
    var tokenKey := "";
    if cfg.canExec {
      tokenKey := ExecGetToken(b, cfg, f);
    } else {
      NoShell(s, cfg, f);
    }
    if tokenKey != "" {
      return Some(tokenKey);
    }
    ghost var second := Created(b.State(), cfg.bootstrapToken, cfg.identifier, f.minted, f.post, f.view).effects;
    key := CreateApiToken(b, cfg.bootstrapToken, cfg.identifier, f.minted, f.post, f.view);
    ReplayConcat(s, first, second);
  }

  method RefillSecret(b: Backends, cfg: Config, f: Faults) returns (ok: bool)
    modifies b
    ensures var run := Refill(old(b.State()), cfg, f);
            && b.State() == Replay(old(b.State()), run.effects)
            && b.log == old(b.log) + run.effects
            && ok == run.ok
  {
    hide Acquired;
    if !f.ready {
      return false;
    }
    ghost var s := b.State();
    var key := AcquireKey(b, cfg, f);
    if key.None? {
      return false;
    }
    ghost var es := Acquired(s, cfg, f).effects;
    ok := b.Write(ApplySecret(cfg.tokenSecret, map[TOKEN_FIELD := key.value]), f.apply);
    ReplayConcat(s, es, Written(f.apply, ApplySecret(cfg.tokenSecret, map[TOKEN_FIELD := key.value])));
  }

  method RunBootstrap(b: Backends, cfg: Config, f: Faults) returns (ok: bool)
    modifies b
    ensures var run := Run(old(b.State()), cfg, f);
            && b.State() == Replay(old(b.State()), run.effects)
            && b.log == old(b.log) + run.effects
            && ok == run.ok
  {
    hide Refill;
    ghost var s := b.State();
    var existing := b.GetSecret(cfg.tokenSecret, f.existingRead);
    if existing.Found? {
      if !cfg.forceRefresh {
        return true;
      }
      var gone := b.Write(DeleteSecret(cfg.tokenSecret), f.delete);
      if !gone {
        return false;
      }
      ReplayConcat(s, Written(f.delete, DeleteSecret(cfg.tokenSecret)), Refill(b.State(), cfg, f).effects);
    } else if !existing.NotFound? {
      return false;
    }
    ok := RefillSecret(b, cfg, f);
  }
}
