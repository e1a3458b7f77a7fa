/**
 One reconcile of one custom resource.

 `ReconcilePlan` gives, for any state of the surroundings and any outcomes of the calls, the
 durable effects in order, the token left in memory, and the result; the class below is the
 program, and does exactly that.
 */
module Reconciler {
  import opened Wrappers
  import opened Backends
  import opened AuthentikClient
  import opened Rollout
  import Bootstrap
  import CanonicalHash
  import OidcValues
  import Profiles
  import RedirectUris
  import Text

  datatype Settings = Settings(
    authentikUrl: string,
    tokenSecretName: string,
    namespace: string,
    bootstrapSecretName: string,
    bootstrapSecretKey: string,
    canExec: bool,
    digest: string -> string,
    render: Profiles.Render,
    base64: string -> string)

  /** The outcome of every call that one reconcile can make. */
  datatype Faults = Faults(
    tokenRead: ReadOutcome,
    clientRead: ReadOutcome,
    application: Transport,
    providers: Transport,
    certificate: Transport,
    bootstrapRead: ReadOutcome,
    boot: Bootstrap.Faults,
    reload: ReadOutcome,
    secretApply: WriteOutcome,
    configMapRead: ReadOutcome,
    configMapUpdate: WriteOutcome,
    workloadRead: ReadOutcome,
    rolloutPatch: WriteOutcome,
    statusWrite: WriteOutcome)

  datatype Result = Finished | Requeue | RequeueNow | Retry

  datatype Plan = Plan(effects: seq<Effect>, memory: string, result: Result)

  function TokenKey(cfg: Settings): ObjectKey {
    ObjectKey(cfg.namespace, cfg.tokenSecretName)
  }

  function TokenIn(l: Lookup<Secret>): string {
    if l.Found? then FieldValue(l.value, Bootstrap.TOKEN_FIELD) else ""
  }

  /** The token in memory, or else the one in the token secret. */
  function LoadedToken(cfg: Settings, s: Outside, memory: string, f: Faults): string {
    if memory == "" && cfg.tokenSecretName != ""
    then TokenIn(Look(s.secrets, TokenKey(cfg), f.tokenRead))
    else memory
  }

  // ---------------------------------------------------------------- token refresh

  datatype Refreshed = Refreshed(effects: seq<Effect>, memory: string, ok: bool)

  function BootstrapToken(cfg: Settings, s: Outside, f: Faults): string {
    if cfg.bootstrapSecretName == "" then ""
    else
      var l := Look(s.secrets, ObjectKey(cfg.namespace, cfg.bootstrapSecretName), f.bootstrapRead);
      if l.Found? then FieldValue(l.value, cfg.bootstrapSecretKey) else ""
  }

  function BootConfig(cfg: Settings, bootstrapToken: string): Bootstrap.Config {
    Bootstrap.Config(bootstrapToken, Bootstrap.SHELL_IDENTIFIER, TokenKey(cfg), true, cfg.canExec)
  }

  function Refresh(cfg: Settings, s: Outside, memory: string, f: Faults): Refreshed {
    var bootstrapToken := BootstrapToken(cfg, s, f);
    if bootstrapToken == "" then Refreshed([], memory, false)
    else
      var run := Bootstrap.Run(s, BootConfig(cfg, bootstrapToken), f.boot);
      if !run.ok then Refreshed(run.effects, "", false)
      else
        var token := TokenIn(Look(Replay(s, run.effects).secrets, TokenKey(cfg), f.reload));
        Refreshed(run.effects, token, token != "")
  }

  // ---------------------------------------------------------------- desired data

  function SigningCertificate(
      a: Authentik, bearer: string, provider: Provider, t: Transport): Option<OidcValues.SigningCert>
  {
    if provider.signingKey.Some? && provider.signingKey.value != ""
    then FetchCertificate(a, bearer, provider.signingKey.value, t)
    else None
  }

  function Values(cfg: Settings, spec: Spec, provider: Provider): OidcValues.OidcData {
    OidcValues.BuildOidcData(cfg.authentikUrl, spec.slug, provider.clientId, provider.clientSecret,
                             RedirectUris.KeptUris(provider.redirectUris))
  }

  /** The data that the target secret should hold. */
  function Desired(cfg: Settings, spec: Spec, provider: Provider, cert: Option<OidcValues.SigningCert>): Data {
    Profiles.SecretData(spec.profile, Values(cfg, spec, provider), spec.overrides, cert, cfg.render, cfg.base64)
  }

  /**
   From the provider's raw redirect URIs to Grafana's secret: without an override, the root URL
   is that of the first element with a URL, and present exactly when that URL has a scheme.
   */
  lemma {:induction false} GrafanaRootOfProvider(
      cfg: Settings, spec: Spec, provider: Provider, cert: Option<OidcValues.SigningCert>,
      items: seq<RedirectUris.Json>, i: nat)
    requires spec.profile == "grafana" && "GF_SERVER_ROOT_URL" !in spec.overrides
    requires provider.redirectUris == RedirectUris.Array(items)
    requires forall j | j in items :: RedirectUris.DecodesAsObject(j)
    requires RedirectUris.IsFirstUrl(items, i)
    ensures var data, uri, k := Desired(cfg, spec, provider, cert), RedirectUris.UrlOf(items[i]), "GF_SERVER_ROOT_URL";
            && (k in data <==> Text.Contains(uri, "://"))
            && (k in data ==>
                  data[k] == OidcValues.AppRootUrl([uri])
                      && OidcValues.IsRoot(data[k]))
  {
    hide Profiles.SecretData, RedirectUris.KeptUris, OidcValues.IsRoot, Text.Contains;
    RedirectUris.FirstKeptUri(items, i);
    Profiles.GrafanaRootUrlIff(Values(cfg, spec, provider), spec.overrides, cert, cfg.render, cfg.base64);
  }

  // ---------------------------------------------------------------- bringing the cluster up to date

  /** The effects of one optional part, and whether it has something to report. */
  datatype Part = Part(effects: seq<Effect>, verdict: Option<bool>)

  function ConfigMapPart(s: Outside, spec: Spec, data: Data, f: Faults): Part {
    if spec.configMap.None? || spec.configMap.value.sourceKey !in data then Part([], None)
    else
      var t := spec.configMap.value;
      match Look(s.configMaps, t.key, f.configMapRead)
      case Found(held) =>
        Part(Written(f.configMapUpdate, PutConfigMap(t.key, held[t.dataKey := data[t.sourceKey]])),
             Some(f.configMapUpdate.WriteOk?))
      case _ => Part([], Some(false))
  }

  function RolloutTarget(spec: Spec): Option<WorkloadRef> {
    if spec.rollout.Some? && spec.rollout.value.enabled then spec.rollout.value.targetRef else None
  }

  function RolloutPart(s: Outside, spec: Spec, hash: string, f: Faults): Part {
    var target := RolloutTarget(spec);
    if target.None? then Part([], None)
    else
      Part(RolloutEffects(s, target.value, hash, f.workloadRead, f.rolloutPatch),
           Some(Patches(s, target.value, f.workloadRead) && f.rolloutPatch.WriteOk?))
  }

  function Reported(st: Status, kind: ConditionType, part: Part): Status {
    if part.verdict.None? then st else With(st, kind, part.verdict.value)
  }

  /** The status recorded after a successful apply. */
  function SyncedStatus(st: Status, cm: Part, ro: Part, hash: string): Status {
    With(Reported(Reported(st, ConfigMapSynced, cm), RolloutTriggered, ro).(secretHash := hash), SecretSynced, true)
  }

  datatype Synced = Synced(effects: seq<Effect>, result: Result)

  /** The workload is restarted, then the status recorded. */
  function Restart(s: Outside, c: ObjectKey, spec: Spec, st: Status, cm: Part, hash: string, f: Faults): Synced {
    var ro := RolloutPart(s, spec, hash, f);
    Synced(ro.effects + Written(f.statusWrite, PutStatus(c, SyncedStatus(st, cm, ro, hash))),
           if f.statusWrite.WriteOk? then Requeue else Retry)
  }

  /** What follows a successful apply: the ConfigMap, the workload, the status. */
  function Publish(s: Outside, c: ObjectKey, spec: Spec, st: Status, data: Data, hash: string, f: Faults): Synced {
    var cm := ConfigMapPart(s, spec, data, f);
    var rest := Restart(Replay(s, cm.effects), c, spec, st, cm, hash, f);
    Synced(cm.effects + rest.effects, rest.result)
  }

  ghost function HashOf(cfg: Settings, data: Data): string {
    CanonicalHash.Hash(data, cfg.digest)
  }

  /** From the computed data on; `st` is the status with the provider marked as found. */
  ghost function Sync(cfg: Settings, s: Outside, c: ObjectKey, spec: Spec, st: Status, data: Data, f: Faults): Synced {
    var hash := HashOf(cfg, data);
    var apply := Written(f.secretApply, ApplySecret(spec.target, data));
    if hash == st.secretHash then Synced([], Requeue)
    else if !f.secretApply.WriteOk? then
      Synced(apply + Written(f.statusWrite, PutStatus(c, With(st, SecretSynced, false))), Requeue)
    else
      var rest := Publish(Replay(s, apply), c, spec, st, data, hash, f);
      Synced(apply + rest.effects, rest.result)
  }

  ghost function SyncPlan(
      cfg: Settings, s: Outside, bearer: string, c: ObjectKey, client: OidcClient, provider: Provider,
      f: Faults): Plan
  {
    var cert := SigningCertificate(s.authentik, bearer, provider, f.certificate);
    var st := With(client.status, AuthentikProviderFound, true);
    var sync := Sync(cfg, s, c, client.spec, st, Desired(cfg, client.spec, provider, cert), f);
    Plan(sync.effects, bearer, sync.result)
  }

  /** The write that follows a failed fetch; the stored hash is carried over. */
  function MissingEffects(c: ObjectKey, st: Status, f: Faults): seq<Effect> {
    Written(f.statusWrite, PutStatus(c, With(st, AuthentikProviderFound, false)))
  }

  /** After a failed fetch: refresh the token if it was refused, and report unless that worked. */
  function FailurePlan(
      cfg: Settings, s: Outside, bearer: string, c: ObjectKey, st: Status, expired: bool, f: Faults): Plan
  {
    var r := if expired then Refresh(cfg, s, bearer, f) else Refreshed([], bearer, false);
    if r.ok then Plan(r.effects, r.memory, RequeueNow)
    else Plan(r.effects + MissingEffects(c, st, f), r.memory, Requeue)
  }

  /** A whole reconcile of the resource `c`. */
  ghost function ReconcilePlan(cfg: Settings, s: Outside, memory: string, c: ObjectKey, f: Faults): Plan {
    var bearer := LoadedToken(cfg, s, memory, f);
    if bearer == "" && cfg.tokenSecretName != "" then Plan([], "", Requeue)
    else
      match Look(s.clients, c, f.clientRead)
      case NotFound => Plan([], bearer, Finished)
      case Failed => Plan([], bearer, Retry)
      case Found(client) =>
        var fetched := FetchProvider(s.authentik, bearer, client.spec.slug, f.application, f.providers);
        if fetched.Provided? then SyncPlan(cfg, s, bearer, c, client, fetched.provider, f)
        else FailurePlan(cfg, s, bearer, c, client.status, fetched.TokenExpired?, f)
  }

  // ---------------------------------------------------------------- the program

  class Reconciler {
    const cfg: Settings
    const backends: Backends
    const client: TokenClient

    constructor (cfg: Settings, backends: Backends, client: TokenClient)
      ensures this.cfg == cfg && this.backends == backends && this.client == client
    {
      this.cfg, this.backends, this.client := cfg, backends, client;
    }

    method RefreshToken(f: Faults) returns (ok: bool)
      modifies backends, client
      ensures var r := Refresh(cfg, old(backends.State()), old(client.token), f);
              && backends.State() == Replay(old(backends.State()), r.effects)
              && backends.log == old(backends.log) + r.effects
              && client.token == r.memory
              && ok == r.ok
    {
      hide Bootstrap.Run;
      if cfg.bootstrapSecretName == "" {
        return false;
      }
      var secret := backends.GetSecret(ObjectKey(cfg.namespace, cfg.bootstrapSecretName), f.bootstrapRead);
      if !secret.Found? {
        return false;
      }
      var bootstrapToken := FieldValue(secret.value, cfg.bootstrapSecretKey);
      if bootstrapToken == "" {
        return false;
      }
      client.ClearToken();
      var done := Bootstrap.RunBootstrap(backends, BootConfig(cfg, bootstrapToken), f.boot);
      if !done {
        return false;
      }
      var tokenSecret := backends.GetSecret(TokenKey(cfg), f.reload);
      assert backends.secrets == backends.State().secrets;
      if !tokenSecret.Found? {
        return false;
      }
      var newToken := FieldValue(tokenSecret.value, Bootstrap.TOKEN_FIELD);
      if newToken == "" {
        return false;
      }
      client.SetToken(newToken);
      ok := true;
    }

    method PatchConfigMap(spec: Spec, data: Data, st: Status, f: Faults) returns (status: Status)
      modifies backends
      ensures var part := ConfigMapPart(old(backends.State()), spec, data, f);
              && backends.State() == Replay(old(backends.State()), part.effects)
              && backends.log == old(backends.log) + part.effects
              && status == Reported(st, ConfigMapSynced, part)
    {
      status := st;
      if spec.configMap.Some? {
        var t := spec.configMap.value;
        if t.sourceKey in data {
          var cm := backends.GetConfigMap(t.key, f.configMapRead);
          if !cm.Found? {
            status := With(status, ConfigMapSynced, false);
          } else {
            var held := cm.value[t.dataKey := data[t.sourceKey]];
            var ok := backends.Write(PutConfigMap(t.key, held), f.configMapUpdate);
            if !ok {
              status := With(status, ConfigMapSynced, false);
            } else {
              status := With(status, ConfigMapSynced, true);
            }
          }
        }
      }
    }

    method RestartWorkload(spec: Spec, hash: string, st: Status, f: Faults) returns (status: Status)
      modifies backends
      ensures var part := RolloutPart(old(backends.State()), spec, hash, f);
              && backends.State() == Replay(old(backends.State()), part.effects)
              && backends.log == old(backends.log) + part.effects
              && status == Reported(st, RolloutTriggered, part)
    {
      status := st;
      if spec.rollout.Some? && spec.rollout.value.enabled && spec.rollout.value.targetRef.Some? {
        var ref := spec.rollout.value.targetRef.value;
        var ok := TriggerRollout(backends, ref, hash, f.workloadRead, f.rolloutPatch);
        if !ok {
          status := With(status, RolloutTriggered, false);
        } else {
          status := With(status, RolloutTriggered, true);
        }
      }
    }

    method RestartAndRecord(
        c: ObjectKey, spec: Spec, st: Status, hash: string, f: Faults, ghost before: Status, ghost cm: Part)
      returns (result: Result)
      requires st == Reported(before, ConfigMapSynced, cm)
      modifies backends
      ensures var rest := Restart(old(backends.State()), c, spec, before, cm, hash, f);
              && backends.State() == Replay(old(backends.State()), rest.effects)
              && backends.log == old(backends.log) + rest.effects
              && result == rest.result
    {
      hide With, RolloutEffects, Perform;
      ghost var s := backends.State();
      var status := RestartWorkload(spec, hash, st, f);
      status := status.(secretHash := hash);
      status := With(status, SecretSynced, true);
      ReplayConcat(s, RolloutPart(s, spec, hash, f).effects, Written(f.statusWrite, PutStatus(c, status)));
      var ok := backends.Write(PutStatus(c, status), f.statusWrite);
      result := if ok then Requeue else Retry;
    }

    method PublishData(
        c: ObjectKey, spec: Spec, st: Status, data: Data, hash: string, f: Faults) returns (result: Result)
      modifies backends
      ensures var rest := Publish(old(backends.State()), c, spec, st, data, hash, f);
              && backends.State() == Replay(old(backends.State()), rest.effects)
              && backends.log == old(backends.log) + rest.effects
              && result == rest.result
    {
      hide Restart, ConfigMapPart, Reported, Replay, Perform, With;
      ghost var s := backends.State();
      ghost var cm := ConfigMapPart(s, spec, data, f);
      var status := PatchConfigMap(spec, data, st, f);
      ReplayConcat(s, cm.effects, Restart(backends.State(), c, spec, st, cm, hash, f).effects);
      result := RestartAndRecord(c, spec, status, hash, f, st, cm);
    }

    method SyncTarget(c: ObjectKey, spec: Spec, st: Status, data: Data, f: Faults) returns (result: Result)
      modifies backends
      ensures var sync := Sync(cfg, old(backends.State()), c, spec, st, data, f);
              && backends.State() == Replay(old(backends.State()), sync.effects)
              && backends.log == old(backends.log) + sync.effects
              && result == sync.result
    {
      hide Publish, With, Perform, CanonicalHash.Hash;
      var newHash := CanonicalHash.ComputeSecretHash(data, cfg.digest);
      if newHash == st.secretHash {
        return Requeue;
      }
      ghost var s := backends.State();
      ghost var apply := Written(f.secretApply, ApplySecret(spec.target, data));
      var ok := backends.Write(ApplySecret(spec.target, data), f.secretApply);
      if !ok {
        var status := With(st, SecretSynced, false);
        ReplayConcat(s, apply, Written(f.statusWrite, PutStatus(c, status)));
        var _ := backends.Write(PutStatus(c, status), f.statusWrite);
        return Requeue;
      }
      ReplayConcat(s, apply, Publish(backends.State(), c, spec, st, data, newHash, f).effects);
      result := PublishData(c, spec, st, data, newHash, f);
    }

    /** Makes sure that there is a token to work with. */
    method EnsureToken(f: Faults) returns (ok: bool)
      modifies client
      ensures client.token == LoadedToken(cfg, backends.State(), old(client.token), f)
      ensures ok <==> client.token != "" || cfg.tokenSecretName == ""
    {
      if !client.HasToken() && cfg.tokenSecretName != "" {
        var tokenSecret := backends.GetSecret(TokenKey(cfg), f.tokenRead);
        if tokenSecret.Found? {
          var token := FieldValue(tokenSecret.value, Bootstrap.TOKEN_FIELD);
          if token != "" {
            client.SetToken(token);
          }
        }
        if !client.HasToken() {
          return false;
        }
      }
      ok := true;
    }

    method ReportFailure(c: ObjectKey, st: Status, expired: bool, f: Faults) returns (result: Result)
      modifies backends, client
      ensures var plan := FailurePlan(cfg, old(backends.State()), old(client.token), c, st, expired, f);
              && backends.State() == Replay(old(backends.State()), plan.effects)
              && backends.log == old(backends.log) + plan.effects
              && client.token == plan.memory
              && result == plan.result
    {
      hide Refresh, With, Perform;
      ghost var s, bearer := backends.State(), client.token;
      ghost var missing := MissingEffects(c, st, f);
      if expired {
        var refreshed := RefreshToken(f);
        if refreshed {
          return RequeueNow;
        }
        ReplayConcat(s, Refresh(cfg, s, bearer, f).effects, missing);
      } else {
        assert [] + missing == missing;
      }
      var status := With(st, AuthentikProviderFound, false);
      var _ := backends.Write(PutStatus(c, status), f.statusWrite);
      return Requeue;
    }

    method Reconcile(c: ObjectKey, f: Faults) returns (result: Result)
      modifies backends, client
      ensures var plan := ReconcilePlan(cfg, old(backends.State()), old(client.token), c, f);
              && backends.State() == Replay(old(backends.State()), plan.effects)
              && backends.log == old(backends.log) + plan.effects
              && client.token == plan.memory
              && result == plan.result
    {
      hide FailurePlan, Sync, FetchProvider, With, Profiles.SecretData, OidcValues.BuildOidcData;
      var ready := EnsureToken(f);
      if !ready {
        return Requeue;
      }
      var found := backends.GetClient(c, f.clientRead);
      if !found.Found? {
        if found.NotFound? {
          return Finished;
        }
        return Retry;
      }
      var spec, status := found.value.spec, found.value.status;
      var fetched := FetchProvider(backends.authentik, client.token, spec.slug, f.application, f.providers);
      if !fetched.Provided? {
        result := ReportFailure(c, status, fetched.TokenExpired?, f);
        return;
      }
      var provider := fetched.provider;
      status := With(status, AuthentikProviderFound, true);
      var cert := SigningCertificate(backends.authentik, client.token, provider, f.certificate);
      var uris := RedirectUris.ParseRedirectUris(provider.redirectUris);
      var values := OidcValues.BuildOidcData(
        cfg.authentikUrl, spec.slug, provider.clientId, provider.clientSecret, uris);
      var data := Profiles.ApplyWithCert(spec.profile, values, spec.overrides, cert, cfg.render, cfg.base64);
      result := SyncTarget(c, spec, status, data, f);
    }
  }
}
