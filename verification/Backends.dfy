/**
 What a reconcile reaches over the network: the Kubernetes API server and Authentik.

 `Outside` is their persistent state as a value, `Effect` one durable change to it, and
 `Backends` the object that the operator's code calls.  Every call takes an outcome, so
 that any call may fail, and a write may take effect although its response is lost.
 */
module Backends {
  import opened Wrappers
  import RedirectUris
  import OidcValues

  // ---------------------------------------------------------------- Kubernetes objects

  const OPERATOR := "authentik-operator"

  datatype ObjectKey = ObjectKey(namespace: string, name: string)

  /** One entry of a secret, with the field managers that own it. */
  datatype Field = Field(value: string, owners: set<string>)

  type Secret = map<string, Field>

  datatype ConfigMapTarget = ConfigMapTarget(key: ObjectKey, dataKey: string, sourceKey: string)

  datatype WorkloadRef = WorkloadRef(kind: string, key: ObjectKey)

  datatype RolloutRestart = RolloutRestart(enabled: bool, targetRef: Option<WorkloadRef>)

  datatype Spec = Spec(
    slug: string,
    target: ObjectKey,
    profile: string,
    overrides: Data,
    configMap: Option<ConfigMapTarget>,
    rollout: Option<RolloutRestart>)

  datatype ConditionType = AuthentikProviderFound | SecretSynced | ConfigMapSynced | RolloutTriggered

  datatype Condition = Condition(kind: ConditionType, holds: bool)

  datatype Status = Status(conditions: seq<Condition>, secretHash: string)

  datatype OidcClient = OidcClient(spec: Spec, status: Status)

  /** meta.SetStatusCondition: replace the entry of that type, or append one. */
  function SetCondition(cs: seq<Condition>, c: Condition): seq<Condition> {
    if cs == [] then [c]
    else if cs[0].kind == c.kind then [c] + cs[1..]
    else [cs[0]] + SetCondition(cs[1..], c)
  }

  function With(st: Status, kind: ConditionType, holds: bool): Status {
    st.(conditions := SetCondition(st.conditions, Condition(kind, holds)))
  }

  // ---------------------------------------------------------------- Authentik

  datatype Provider = Provider(
    clientId: string,
    clientSecret: string,
    signingKey: Option<string>,
    redirectUris: RedirectUris.Json)

  /** API tokens by identifier, the bearer tokens it accepts, and what it serves. */
  datatype Authentik = Authentik(
    tokens: map<string, string>,
    accepted: set<string>,
    applications: map<string, string>,
    providers: map<string, seq<Provider>>,
    certificates: map<string, OidcValues.SigningCert>)

  datatype Outside = Outside(
    secrets: map<ObjectKey, Secret>,
    configMaps: map<ObjectKey, Data>,
    workloads: map<WorkloadRef, Data>,
    clients: map<ObjectKey, OidcClient>,
    authentik: Authentik)

  // ---------------------------------------------------------------- effects

  datatype Effect =
    | ApplySecret(key: ObjectKey, data: Data)
    | DeleteSecret(key: ObjectKey)
    | PutConfigMap(key: ObjectKey, data: Data)
    | Annotate(ref: WorkloadRef, name: string, value: string)
    | PutStatus(client: ObjectKey, status: Status)
    | StoreToken(identifier: string, tokenKey: string)

  /**
   Server-side apply by the operator with forced ownership: the named entries take its values
   and become its own, shared only where another manager set the same value; entries that it
   no longer names lose its ownership, and vanish when no owner is left.
   */
  function Applied(old_: Secret, data: Data): Secret {
    map k | k in old_.Keys + data.Keys && (k in data || old_[k].owners != {OPERATOR}) ::
      if k in data then
        Field(data[k], if k in old_ && old_[k].value == data[k] then old_[k].owners + {OPERATOR} else {OPERATOR})
      else
        old_[k].(owners := old_[k].owners - {OPERATOR})
  }

  function SecretAt(s: Outside, key: ObjectKey): Secret {
    if key in s.secrets then s.secrets[key] else map[]
  }

  function Perform(s: Outside, e: Effect): Outside {
    match e
    case ApplySecret(key, data) => s.(secrets := s.secrets[key := Applied(SecretAt(s, key), data)])
    case DeleteSecret(key) => s.(secrets := s.secrets - {key})
    case PutConfigMap(key, data) => s.(configMaps := s.configMaps[key := data])
    case Annotate(ref, name, value) =>
      if ref in s.workloads then s.(workloads := s.workloads[ref := s.workloads[ref][name := value]]) else s
    case PutStatus(client, status) =>
      if client in s.clients then s.(clients := s.clients[client := s.clients[client].(status := status)]) else s
    case StoreToken(identifier, tokenKey) =>
      s.(authentik := s.authentik.(
        tokens := s.authentik.tokens[identifier := tokenKey],
        accepted := s.authentik.accepted + {tokenKey}))
  }

  function Replay(s: Outside, es: seq<Effect>): Outside {
    if es == [] then s else Perform(Replay(s, es[..|es| - 1]), es[|es| - 1])
  }

  lemma {:induction false} ReplayConcat(s: Outside, a: seq<Effect>, b: seq<Effect>)
    ensures Replay(s, a + b) == Replay(Replay(s, a), b)
  {
    if b == [] {
      assert a + b == a;
    } else {
      ReplayConcat(s, a, b[..|b| - 1]);
      assert (a + b)[..|a + b| - 1] == a + b[..|b| - 1];
    }
  }

  lemma ReplayOne(s: Outside, e: Effect)
    ensures Replay(s, [e]) == Perform(s, e)
  {
    assert [e][..0] == [];
  }

  // ---------------------------------------------------------------- outcomes

  datatype ReadOutcome = ReadOk | ReadFailed

  datatype WriteOutcome = WriteOk | WriteFailed | ResponseLost

  /** What an HTTP exchange comes to: served by Authentik, answered by something in between, or unanswered. */
  datatype Transport = Delivered | Replaced(status: int) | Lost

  datatype Http<+T> = NoAnswer | Answer(status: int, body: Option<T>)

  datatype Lookup<+T> = Found(value: T) | NotFound | Failed

  function Written(o: WriteOutcome, e: Effect): seq<Effect> {
    if o.WriteFailed? then [] else [e]
  }

  function Look<K, V>(m: map<K, V>, k: K, o: ReadOutcome): Lookup<V> {
    if o.ReadFailed? then Failed
    else if k in m then Found(m[k])
    else NotFound
  }

  /** string(secret.Data[name]) */
  function FieldValue(secret: Secret, name: string): string {
    if name in secret then secret[name].value else ""
  }

  // ---------------------------------------------------------------- Authentik's answers

  function ApplicationAnswer(a: Authentik, bearer: string, slug: string, t: Transport): Http<string> {
    match t
    case Lost => NoAnswer
    case Replaced(status) => Answer(status, None)
    case Delivered =>
      if bearer !in a.accepted then Answer(403, None)
      else if slug !in a.applications then Answer(404, None)
      else Answer(200, Some(a.applications[slug]))
  }

  function ProvidersAnswer(a: Authentik, bearer: string, pk: string, t: Transport): Http<seq<Provider>> {
    match t
    case Lost => NoAnswer
    case Replaced(status) => Answer(status, None)
    case Delivered =>
      if bearer !in a.accepted then Answer(403, None)
      else Answer(200, Some(if pk in a.providers then a.providers[pk] else []))
  }

  function CertificateAnswer(a: Authentik, bearer: string, id: string, t: Transport): Http<OidcValues.SigningCert> {
    match t
    case Lost => NoAnswer
    case Replaced(status) => Answer(status, None)
    case Delivered =>
      if bearer !in a.accepted then Answer(403, None)
      else if id !in a.certificates then Answer(404, None)
      else Answer(200, Some(a.certificates[id]))
  }

  function ViewKeyAnswer(a: Authentik, bearer: string, identifier: string, t: Transport): Http<string> {
    match t
    case Lost => NoAnswer
    case Replaced(status) => Answer(status, None)
    case Delivered =>
      if bearer !in a.accepted then Answer(403, None)
      else if identifier !in a.tokens then Answer(404, None)
      else Answer(200, Some(a.tokens[identifier]))
  }

  /** The fate of a creating POST: `reached` tells whether Authentik processed it before its answer went astray. */
  datatype PostFate =
    | PostDelivered
    | PostReplaced(status: int, saysExists: bool, reached: bool)
    | PostLost(reached: bool)

  /** Creating is refused to a bearer that is not accepted and for an identifier that is taken. */
  predicate Creates(a: Authentik, bearer: string, identifier: string, fate: PostFate) {
    && (fate.PostDelivered? || fate.reached)
    && bearer in a.accepted
    && identifier !in a.tokens
  }

  function CreateEffects(
      a: Authentik, bearer: string, identifier: string, minted: string, fate: PostFate): seq<Effect>
  {
    if Creates(a, bearer, identifier, fate) then [StoreToken(identifier, minted)] else []
  }

  /** The body of the answer is reduced to whether it contains "already exists". */
  function CreateAnswer(a: Authentik, bearer: string, identifier: string, fate: PostFate): Http<bool> {
    match fate
    case PostLost(_) => NoAnswer
    case PostReplaced(status, saysExists, _) => Answer(status, Some(saysExists))
    case PostDelivered =>
      if bearer !in a.accepted then Answer(403, Some(false))
      else if identifier in a.tokens then Answer(400, Some(true))
      else Answer(201, Some(false))
  }

  // ---------------------------------------------------------------- the object that the program calls

  class Backends {
    var secrets: map<ObjectKey, Secret>
    var configMaps: map<ObjectKey, Data>
    var workloads: map<WorkloadRef, Data>
    var clients: map<ObjectKey, OidcClient>
    var authentik: Authentik
    /** Every durable change so far, in order. */
    ghost var log: seq<Effect>

    ghost function State(): Outside
      reads this
    {
      Outside(secrets, configMaps, workloads, clients, authentik)
    }

    constructor (s: Outside)
      ensures State() == s && log == []
    {
      secrets, configMaps, workloads, clients, authentik :=
        s.secrets, s.configMaps, s.workloads, s.clients, s.authentik;
      log := [];
    }

    method GetSecret(key: ObjectKey, o: ReadOutcome) returns (r: Lookup<Secret>)
      ensures r == Look(secrets, key, o)
    {
      r := Look(secrets, key, o);
    }

    method GetClient(key: ObjectKey, o: ReadOutcome) returns (r: Lookup<OidcClient>)
      ensures r == Look(clients, key, o)
    {
      r := Look(clients, key, o);
    }

    method GetConfigMap(key: ObjectKey, o: ReadOutcome) returns (r: Lookup<Data>)
      ensures r == Look(configMaps, key, o)
    {
      r := Look(configMaps, key, o);
    }

    method GetWorkload(ref: WorkloadRef, o: ReadOutcome) returns (r: Lookup<Data>)
      ensures r == Look(workloads, ref, o)
    {
      r := Look(workloads, ref, o);
    }

    /** One durable write: it happens unless its outcome is a failure, and only an ok outcome is reported as success. */
    method Write(e: Effect, o: WriteOutcome) returns (ok: bool)
      modifies this
      ensures State() == Replay(old(State()), Written(o, e))
      ensures log == old(log) + Written(o, e)
      ensures ok <==> o.WriteOk?
    {
      ok := o.WriteOk?;
      if !o.WriteFailed? {
        Commit(e);
      }
    }

    method Commit(e: Effect)
      modifies this
      ensures State() == Replay(old(State()), [e])
      ensures log == old(log) + [e]
    {
      ReplayOne(State(), e);
      log := log + [e];
      match e
      case ApplySecret(key, data) =>
        secrets := secrets[key := Applied(if key in secrets then secrets[key] else map[], data)];
      case DeleteSecret(key) =>
        secrets := secrets - {key};
      case PutConfigMap(key, data) =>
        configMaps := configMaps[key := data];
      case Annotate(ref, name, value) =>
        if ref in workloads {
          workloads := workloads[ref := workloads[ref][name := value]];
        }
      case PutStatus(client, status) =>
        if client in clients {
          clients := clients[client := clients[client].(status := status)];
        }
      case StoreToken(identifier, tokenKey) =>
        authentik := authentik.(
          tokens := authentik.tokens[identifier := tokenKey],
          accepted := authentik.accepted + {tokenKey});
    }

    /** POST /api/v3/core/tokens/ */
    method PostToken(bearer: string, identifier: string, minted: string, fate: PostFate) returns (r: Http<bool>)
      modifies this
      ensures r == CreateAnswer(old(authentik), bearer, identifier, fate)
      ensures var es := CreateEffects(old(authentik), bearer, identifier, minted, fate);
              State() == Replay(old(State()), es) && log == old(log) + es
    {
      r := CreateAnswer(authentik, bearer, identifier, fate);
      if Creates(authentik, bearer, identifier, fate) {
        Commit(StoreToken(identifier, minted));
      }
    }
  }
}
