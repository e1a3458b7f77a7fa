/**
 Up to five workers reconcile at once and share one token.  Here each of them moves through
 token loading and refresh one atomic step at a time, in any interleaving: a locked access to
 the token in memory, or one call to the API server or to Authentik.
 */
module SharedToken {
  import opened Wrappers
  import opened Backends

  /** Where a worker stands, with the values it has read. */
  datatype Place =
    | Idle
    | LoadRead                   // saw no token; reads the token secret next
    | LoadSet(token: string)     // stores what it read
    | LoadCheck                  // looks whether there is a token now
    | Fetching                   // asks Authentik with the token in memory
    | Refused                    // was refused; reads the bootstrap secret
    | Clearing                   // clears the token in memory
    | Checking                   // bootstrap: looks for the token secret
    | Deleting
    | Waiting                    // for Authentik to be ready
    | Asking                     // the shell
    | Posting                    // the HTTP API: create
    | Viewing                    // the HTTP API: read the key
    | Applying(key: string)      // writes the token secret
    | Reloading                  // reads it back
    | Storing(token: string)     // stores it in memory

  datatype Shared = Shared(
    memory: string,
    secret: Option<string>,      // the token entry of the token secret, if the secret exists
    store: Option<string>,       // the key that Authentik holds for the operator
    workers: map<nat, Place>)

  datatype ShellFate = NotRun | Broken | Printed

  /** How one step turns out; a step looks only at what concerns it. */
  datatype Choice = Choice(ok: bool, write: WriteOutcome, shell: ShellFate, creates: bool, minted: string)

  /** get_or_create */
  function Created(store: Option<string>, minted: string): Option<string> {
    if store.Some? then store else Some(minted)
  }

  /** What one worker can see: everything but the other workers. */
  datatype Local = Local(memory: string, secret: Option<string>, store: Option<string>, place: Place)

  /** One atomic step of a worker. */
  function Step(l: Local, c: Choice): Local {
    match l.place
    case Idle => l.(place := if l.memory == "" then LoadRead else Fetching)
    case LoadRead =>
      l.(place := if c.ok && l.secret.Some? && l.secret.value != "" then LoadSet(l.secret.value) else LoadCheck)
    case LoadSet(token) => l.(memory := token, place := LoadCheck)
    case LoadCheck => l.(place := if l.memory == "" then Idle else Fetching)
    case Fetching => l.(place := if c.ok then Idle else Refused)
    case Refused => l.(place := if c.ok then Clearing else Idle)
    case Clearing => l.(memory := "", place := Checking)
    case Checking => l.(place := if !c.ok then Idle else if l.secret.Some? then Deleting else Waiting)
    case Deleting =>
      // Deleting what another worker has deleted already is an error.
      if l.secret.None? || c.write.WriteFailed? then l.(place := Idle)
      else l.(secret := None, place := if c.write.WriteOk? then Waiting else Idle)
    case Waiting => l.(place := if c.ok then Asking else Idle)
    case Asking =>
      var store := Created(l.store, c.minted);
      if c.shell.NotRun? then l.(place := Posting)
      else if c.shell.Broken? || store.value == "" then l.(store := store, place := Posting)
      else l.(store := store, place := Applying(store.value))
    case Posting =>
      l.(store := if c.creates then Created(l.store, c.minted) else l.store, place := if c.ok then Viewing else Idle)
    case Viewing => l.(place := if c.ok && l.store.Some? then Applying(l.store.value) else Idle)
    case Applying(key) =>
      if c.write.WriteFailed? then l.(place := Idle)
      else l.(secret := Some(key), place := if c.write.WriteOk? then Reloading else Idle)
    case Reloading =>
      l.(place := if c.ok && l.secret.Some? && l.secret.value != "" then Storing(l.secret.value) else Idle)
    case Storing(token) => l.(memory := token, place := Idle)
  }

  function Move(s: Shared, w: nat, c: Choice): Shared {
    if w !in s.workers then s
    else
      var l := Step(Local(s.memory, s.secret, s.store, s.workers[w]), c);
      Shared(l.memory, l.secret, l.store, s.workers[w := l.place])
  }

  /** A worker's step, a change by somebody else, or a restart of the process. */
  datatype Event =
    | Work(w: nat, c: Choice)
    | Outsider(secret: Option<string>, store: Option<string>)
    | Restart(read: bool)

  /** On a restart the token comes from the environment, or else from the token secret if it can be read. */
  function Restarted(s: Shared, fromEnv: string, read: bool): Shared {
    var token := if fromEnv != "" then fromEnv else if read && s.secret.Some? then s.secret.value else "";
    Shared(token, s.secret, s.store, map w | w in s.workers :: Idle)
  }

  function Occur(s: Shared, fromEnv: string, e: Event): Shared {
    match e
    case Work(w, c) => Move(s, w, c)
    case Outsider(secret, store) => s.(secret := secret, store := store)
    case Restart(read) => Restarted(s, fromEnv, read)
  }

  function StateAfter(s: Shared, fromEnv: string, es: seq<Event>): Shared {
    if es == [] then s else Occur(StateAfter(s, fromEnv, es[..|es| - 1]), fromEnv, es[|es| - 1])
  }

  predicate AllIdle(s: Shared) {
    forall w | w in s.workers :: s.workers[w] == Idle
  }

  // ---------------------------------------------------------------- where the token in memory comes from

  /** The token stood in the token secret at some moment up to now. */
  ghost predicate OnceStored(s: Shared, fromEnv: string, es: seq<Event>, token: string) {
    exists k :: 0 <= k <= |es| && StateAfter(s, fromEnv, es[..k]).secret == Some(token)
  }

  ghost predicate Legitimate(s: Shared, fromEnv: string, es: seq<Event>, token: string) {
    token == "" || token == s.memory || token == fromEnv || OnceStored(s, fromEnv, es, token)
  }

  lemma LegitimateLater(s: Shared, fromEnv: string, es: seq<Event>, e: Event, token: string)
    ensures Legitimate(s, fromEnv, es, token) ==> Legitimate(s, fromEnv, es + [e], token)
    ensures StateAfter(s, fromEnv, es).secret == Some(token) ==> Legitimate(s, fromEnv, es, token)
  {
    if OnceStored(s, fromEnv, es, token) {
      var k :| 0 <= k <= |es| && StateAfter(s, fromEnv, es[..k]).secret == Some(token);
      assert (es + [e])[..k] == es[..k];
    }
    assert es[..|es|] == es;
  }

  /** The worker carries the token from a read to its place in memory. */
  predicate Carries(p: Place, token: string) {
    p == LoadSet(token) || p == Storing(token)
  }

  /** A token that a read has returned or would return now. */
  ghost predicate Readable(s: Shared, token: string) {
    s.secret == Some(token) || exists w :: w in s.workers && Carries(s.workers[w], token)
  }

  /** No event brings a token into memory or into a worker's hands that was not to be had, except the environment's. */
  lemma OccurInventsNothing(s: Shared, fromEnv: string, e: Event)
    ensures var s' := Occur(s, fromEnv, e);
            && (s'.memory == "" || s'.memory == fromEnv || s'.memory == s.memory || Readable(s, s'.memory))
            && (forall v, token :: v in s'.workers && Carries(s'.workers[v], token) ==> Readable(s, token))
  {
  }

  ghost predicate PlacesLegitimate(s: Shared, fromEnv: string, es: seq<Event>, now: Shared) {
    forall w, token :: w in now.workers && Carries(now.workers[w], token) ==> Legitimate(s, fromEnv, es, token)
  }

  /**
   In any interleaving of any number of workers, restarts and outside changes: the token in
   memory is empty, the one from the start, or a value that once stood in the token secret.
   */
  lemma {:induction false} MemoryIsLegitimate(s: Shared, fromEnv: string, es: seq<Event>)
    requires AllIdle(s)
    ensures Legitimate(s, fromEnv, es, StateAfter(s, fromEnv, es).memory)
    ensures PlacesLegitimate(s, fromEnv, es, StateAfter(s, fromEnv, es))
  {
    hide Legitimate, Occur;
    EmptyIsLegitimate(s, fromEnv, es);
    if es != [] {
      var front, e := es[..|es| - 1], es[|es| - 1];
      MemoryIsLegitimate(s, fromEnv, front);
      var was := StateAfter(s, fromEnv, front);
      assert es == front + [e];
      OccurInventsNothing(was, fromEnv, e);
      forall token | token == was.memory || Readable(was, token) ensures Legitimate(s, fromEnv, es, token) {
        LegitimateLater(s, fromEnv, front, e, token);
      }
    }
  }

  lemma EmptyIsLegitimate(s: Shared, fromEnv: string, es: seq<Event>)
    ensures Legitimate(s, fromEnv, es, "") && Legitimate(s, fromEnv, es, fromEnv)
        && Legitimate(s, fromEnv, es, s.memory)
  {
  }

  // ---------------------------------------------------------------- one key

  /** No outside change: Authentik keeps its key, and only workers write the token secret. */
  predicate Undisturbed(es: seq<Event>) {
    forall e | e in es :: !e.Outsider?
  }

  /** Every key about to be applied is the one that Authentik holds. */
  predicate KeysMatch(s: Shared) {
    forall w | w in s.workers && s.workers[w].Applying? :: s.store == Some(s.workers[w].key)
  }

  lemma KeysMatchNext(s: Shared, fromEnv: string, e: Event)
    requires KeysMatch(s) && !e.Outsider?
    ensures KeysMatch(Occur(s, fromEnv, e))
    ensures s.store.Some? ==> Occur(s, fromEnv, e).store == s.store
  {
  }

  lemma {:induction false} KeysKeepMatching(s: Shared, fromEnv: string, es: seq<Event>)
    requires KeysMatch(s) && Undisturbed(es)
    ensures KeysMatch(StateAfter(s, fromEnv, es))
    ensures s.store.Some? ==> StateAfter(s, fromEnv, es).store == s.store
  {
    hide Occur, KeysMatch;
    if es != [] {
      var front, e := es[..|es| - 1], es[|es| - 1];
      KeysKeepMatching(s, fromEnv, front);
      KeysMatchNext(StateAfter(s, fromEnv, front), fromEnv, e);
    }
  }

  /** From here on the token secret can only hold the one key. */
  predicate Keyed(s: Shared, key: string) {
    && s.store == Some(key) && KeysMatch(s)
    && (s.secret == None || s.secret == Some(key))
  }

  /** The event writes the token secret. */
  predicate Writes(s: Shared, e: Event) {
    e.Work? && e.w in s.workers && s.workers[e.w].Applying? && !e.c.write.WriteFailed?
  }

  lemma {:induction false} KeyedStays(s: Shared, fromEnv: string, es: seq<Event>, key: string)
    requires Keyed(s, key) && Undisturbed(es)
    ensures Keyed(StateAfter(s, fromEnv, es), key)
  {
    if es != [] {
      KeyedStays(s, fromEnv, es[..|es| - 1], key);
    }
  }

  /**
   Undisturbed, from the first write of the token secret on, the secret is only ever absent or
   equal to the key that Authentik holds, whatever the workers do to each other.
   */
  lemma {:induction false} AfterFirstApplyOneKey(
      s: Shared, fromEnv: string, before: seq<Event>, e: Event, es: seq<Event>)
    requires AllIdle(s) && Undisturbed(before) && Undisturbed(es)
    requires Writes(StateAfter(s, fromEnv, before), e)
    ensures var s1 := StateAfter(s, fromEnv, before + [e]);
            s1.store.Some? && Keyed(StateAfter(s1, fromEnv, es), s1.store.value)
  {
    KeysKeepMatching(s, fromEnv, before);
    assert (before + [e])[..|before|] == before;
    var s1 := StateAfter(s, fromEnv, before + [e]);
    KeyedStays(s1, fromEnv, es, s1.store.value);
  }

  // ---------------------------------------------------------------- stale tokens

  predicate NotStale(token: string, key: string) {
    token == "" || token == key
  }

  /** No worker carries, and memory does not hold, a token other than the key. */
  ghost predicate Fresh(s: Shared, key: string) {
    && NotStale(s.memory, key)
    && forall w, token :: w in s.workers && Carries(s.workers[w], token) ==> NotStale(token, key)
  }

  /** Once the secret is keyed and no stale read is left in flight, no stale token comes back. */
  lemma {:induction false} FreshStays(s: Shared, fromEnv: string, es: seq<Event>, key: string)
    requires Keyed(s, key) && Fresh(s, key) && Undisturbed(es) && NotStale(fromEnv, key)
    ensures Keyed(StateAfter(s, fromEnv, es), key) && Fresh(StateAfter(s, fromEnv, es), key)
  {
    hide Occur;
    KeyedStays(s, fromEnv, es, key);
    if es != [] {
      var front := es[..|es| - 1];
      FreshStays(s, fromEnv, front, key);
      var was := StateAfter(s, fromEnv, front);
      OccurInventsNothing(was, fromEnv, es[|es| - 1]);
      var now := Occur(was, fromEnv, es[|es| - 1]);
      assert now == StateAfter(s, fromEnv, es);
      assert NotStale(now.memory, key) by {
        assert Readable(was, now.memory) ==> NotStale(now.memory, key);
      }
      forall w, token | w in now.workers && Carries(now.workers[w], token) ensures NotStale(token, key) {
        assert Readable(was, token);
      }
    }
  }

  const FINE := Choice(true, WriteOk, Printed, false, "new")

  const REFUSING := FINE.(ok := false)

  /** Whatever happens from here on, no stale token gets into memory. */
  ghost predicate NeverStale(s: Shared, fromEnv: string, key: string) {
    forall es | Undisturbed(es) :: NotStale(StateAfter(s, fromEnv, es).memory, key)
  }

  lemma OneEvent(s: Shared, fromEnv: string, e: Event)
    ensures StateAfter(s, fromEnv, [e]) == Occur(s, fromEnv, e)
  {
    assert [e][..0] == [];
  }

  /** That is so exactly when memory, the workers' hands and the environment hold none now. */
  lemma {:induction false} NeverStaleIff(s: Shared, fromEnv: string, key: string)
    requires Keyed(s, key)
    ensures NeverStale(s, fromEnv, key) <==> Fresh(s, key) && NotStale(fromEnv, key)
  {
    if Fresh(s, key) && NotStale(fromEnv, key) {
      forall es | Undisturbed(es) ensures NotStale(StateAfter(s, fromEnv, es).memory, key) {
        FreshStays(s, fromEnv, es, key);
      }
    }
    if NeverStale(s, fromEnv, key) {
      assert Undisturbed([]) && StateAfter(s, fromEnv, []) == s;
      assert Undisturbed([Restart(true)]);
      OneEvent(s, fromEnv, Restart(true));
      forall w, token | w in s.workers && Carries(s.workers[w], token) ensures NotStale(token, key) {
        assert Undisturbed([Work(w, FINE)]);
        OneEvent(s, fromEnv, Work(w, FINE));
      }
    }
  }

  /** Two workers start without a token in memory; the secret holds a token that Authentik no longer accepts. */
  const START := Shared("", Some("old"), Some("new"), map[0 := Idle, 1 := Idle])

  /** Some undisturbed events lead from one state to the other. */
  ghost predicate Leads(s: Shared, s': Shared) {
    exists es :: Undisturbed(es) && StateAfter(s, "", es) == s'
  }

  lemma Onward(s: Shared, here: Shared, w: nat, c: Choice, next: Shared)
    requires Leads(s, here) && Move(here, w, c) == next
    ensures Leads(s, next)
  {
    var es :| Undisturbed(es) && StateAfter(s, "", es) == here;
    var more := es + [Work(w, c)];
    assert more[..|es|] == es;
    assert Undisturbed(more) && StateAfter(s, "", more) == next;
  }

  function Pair(memory: string, secret: Option<string>, p: Place, q: Place): Shared {
    Shared(memory, secret, Some("new"), map[0 := p, 1 := q])
  }

  /** Worker 0 takes a step. */
  lemma Zero(m: string, sec: Option<string>, p: Place, q: Place, l: Local)
    requires Leads(START, Pair(m, sec, p, q))
    requires Step(Local(m, sec, Some("new"), p), FINE) == l && l.store == Some("new")
    ensures Leads(START, Pair(l.memory, l.secret, l.place, q))
  {
    hide Leads, Step;
    Onward(START, Pair(m, sec, p, q), 0, FINE, Pair(l.memory, l.secret, l.place, q));
  }

  /** Worker 1 takes a step. */
  lemma One(m: string, sec: Option<string>, p: Place, q: Place, c: Choice, l: Local)
    requires Leads(START, Pair(m, sec, p, q))
    requires Step(Local(m, sec, Some("new"), q), c) == l && l.store == Some("new")
    ensures Leads(START, Pair(l.memory, l.secret, p, l.place))
  {
    hide Leads, Step;
    Onward(START, Pair(m, sec, p, q), 1, c, Pair(l.memory, l.secret, p, l.place));
  }

  /** Worker 0 reads the old token and pauses; worker 1 loads the same token, uses it, and is refused. */
  lemma BothLoadOne()
    ensures Leads(START, Pair("old", Some("old"), LoadSet("old"), Clearing))
  {
    var o, n, p := Some("old"), Some("new"), LoadSet("old");
    assert Undisturbed([]) && StateAfter(START, "", []) == START;
    hide Leads, Pair;
    Zero("", o, Idle, Idle, Local("", o, n, LoadRead));
    Zero("", o, LoadRead, Idle, Local("", o, n, p));
    One("", o, p, Idle, FINE, Local("", o, n, LoadRead));
    One("", o, p, LoadRead, FINE, Local("", o, n, LoadSet("old")));
    One("", o, p, LoadSet("old"), FINE, Local("old", o, n, LoadCheck));
    One("old", o, p, LoadCheck, FINE, Local("old", o, n, Fetching));
    One("old", o, p, Fetching, REFUSING, Local("old", o, n, Refused));
    One("old", o, p, Refused, FINE, Local("old", o, n, Clearing));
  }

  /** Worker 1 refreshes the token. */
  lemma OneRefreshes()
    ensures Leads(START, Pair("new", Some("new"), LoadSet("old"), Idle))
  {
    hide Leads, Pair;
    var o, n, p := Some("old"), Some("new"), LoadSet("old");
    BothLoadOne();
    One("old", o, p, Clearing, FINE, Local("", o, n, Checking));
    One("", o, p, Checking, FINE, Local("", o, n, Deleting));
    One("", o, p, Deleting, FINE, Local("", None, n, Waiting));
    One("", None, p, Waiting, FINE, Local("", None, n, Asking));
    One("", None, p, Asking, FINE, Local("", None, n, Applying("new")));
    One("", None, p, Applying("new"), FINE, Local("", n, n, Reloading));
    One("", n, p, Reloading, FINE, Local("", n, n, Storing("new")));
    One("", n, p, Storing("new"), FINE, Local("new", n, n, Idle));
  }

  /** So freshness is needed: a refreshed token can be overwritten by a worker's older read. */
  lemma {:induction false} RefreshCanBeOverwritten()
    ensures AllIdle(START)
    ensures Leads(START, Pair("new", Some("new"), LoadSet("old"), Idle))
    ensures Leads(START, Pair("old", Some("new"), LoadCheck, Idle))
  {
    hide Leads, Pair;
    OneRefreshes();
    Zero("new", Some("new"), LoadSet("old"), Idle, Local("old", Some("new"), Some("new"), LoadCheck));
  }
}
