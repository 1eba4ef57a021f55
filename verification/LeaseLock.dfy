/** components/redis/lock.go: any number of Lock objects on one key, one server, a
    global clock, and a network that may delay, repeat or lose requests and replies.
    The two scripts and SET NX PX are atomic server steps. */
module LeaseLock {
  import opened Wrappers
  import opened Transitions

  datatype Kind = Acquire | Release | Renew

  /** A request sent to the server by a Lock. */
  datatype Request = Request(client: nat, kind: Kind, token: nat, sentAt: int)

  /** The key's value and the time from which it is expired. */
  datatype Key = Key(token: nat, expires: int)

  /** A Lock object. `call` is the request its mutex holder is waiting for. The ghost
      of the caller's own bookkeeping: the lock was last confirmed by a request sent
      at validUntil - ttl. */
  datatype Lock = Lock(ttl: nat, autoRenew: bool, token: Option<nat>, call: Option<nat>,
                       watching: bool, stopCh: nat, validUntil: int)

  datatype Watchdog = Watchdog(client: nat, token: nat, stopped: bool)

  /** History of what the server granted: the last successful SET or renewal of a
      client, until its own deletion. */
  datatype Lease = Lease(token: nat, until: int)

  datatype State = State(
    now: int, key: Option<Key>, locks: map<nat, Lock>, watchdogs: map<nat, Watchdog>,
    requests: map<nat, Request>, inFlight: set<nat>, replies: set<(nat, bool)>,
    owner: map<nat, nat>, leases: map<nat, Lease>)

  datatype Step =
    | Elapse(now: int)
    | TryLock(c: nat, id: nat, token: nat)
    | Unlock(c: nat, id: nat)
    | Extend(c: nat, id: nat)                  // Renew, by a caller
    | Tick(w: nat, id: nat)                    // a watchdog's ticker case
    | Quit(w: nat)                             // stopCh, ctx.Done or a failed renewal
    | Exec(id: nat)                            // the server runs a request
    | Drop(id: nat)                            // a request will not be delivered (again)
    | Return(c: nat, ok: bool, w: nat)         // the reply arrives; w names a new watchdog
    | Fail(c: nat)                             // the call ends with an error, reply or not

  ghost predicate Initial(s: State) {
    && s.key.None? && s.watchdogs == map[] && s.requests == map[] && s.inFlight == {} && s.replies == {}
    && s.owner == map[] && s.leases == map[]
    && forall c | c in s.locks :: s.locks[c].ttl >= 1 && s.locks[c].token.None? && s.locks[c].call.None? && !s.locks[c].watching
  }

  predicate Live(s: State) {
    s.key.Some? && s.now < s.key.value.expires
  }

  predicate Free(s: State, c: nat) {
    c in s.locks && s.locks[c].call.None?
  }

  predicate Waiting(s: State, c: nat) {
    c in s.locks && s.locks[c].call.Some? && s.locks[c].call.value in s.requests
  }

  predicate Enabled(s: State, a: Step) {
    match a
    case Elapse(now) => s.now <= now
    case TryLock(c, id, token) => Free(s, c) && id !in s.requests && token !in s.owner
    case Unlock(c, id) => Free(s, c) && id !in s.requests && s.locks[c].token.Some?
    case Extend(c, id) => Free(s, c) && id !in s.requests && s.locks[c].token.Some?
    case Tick(w, id) => w in s.watchdogs && Free(s, s.watchdogs[w].client) && id !in s.requests
    case Quit(w) => w in s.watchdogs
    case Exec(id) => id in s.inFlight && Servable(s, id)
    case Drop(id) => id in s.inFlight
    case Return(c, ok, w) => Waiting(s, c) && (s.locks[c].call.value, ok) in s.replies && w !in s.watchdogs
    case Fail(c) => Waiting(s, c)
  }

  function Send(s: State, c: nat, id: nat, kind: Kind, token: nat): State
    requires c in s.locks
  {
    s.(requests := s.requests[id := Request(c, kind, token, s.now)], inFlight := s.inFlight + {id},
       locks := s.locks[c := s.locks[c].(call := Some(id))])
  }

  /** stopWatchdog. */
  function StopWatchdog(s: State, c: nat): (t: State)
    requires c in s.locks
    ensures t == s.(locks := s.locks[c := s.locks[c].(watching := false)], watchdogs := t.watchdogs)
  {
    var l := s.locks[c];
    if !l.watching then assert s.locks == s.locks[c := l]; s
    else s.(locks := s.locks[c := l.(watching := false)],
            watchdogs := if l.stopCh in s.watchdogs
                         then s.watchdogs[l.stopCh := s.watchdogs[l.stopCh].(stopped := true)] else s.watchdogs)
  }

  predicate Servable(s: State, id: nat) {
    id in s.requests && s.requests[id].client in s.locks
  }

  /** What the server does with a request and answers. */
  function Serve(s: State, id: nat): (t: State)
    requires Servable(s, id)
    ensures t == s.(key := t.key, replies := t.replies, leases := t.leases)
  {
    var r := s.requests[id];
    var until := s.now + s.locks[r.client].ttl;
    var mine := Live(s) && s.key.value.token == r.token;
    match r.kind
    case Acquire =>
      if Live(s) then s.(replies := s.replies + {(id, false)})
      else s.(key := Some(Key(r.token, until)), replies := s.replies + {(id, true)},
              leases := s.leases[r.client := Lease(r.token, until)])
    case Release =>
      if mine then s.(key := None, replies := s.replies + {(id, true)}, leases := s.leases - {r.client})
      else s.(replies := s.replies + {(id, false)})
    case Renew =>
      if mine then s.(key := Some(Key(r.token, until)), replies := s.replies + {(id, true)},
                      leases := s.leases[r.client := Lease(r.token, until)])
      else s.(replies := s.replies + {(id, false)})
  }

  /** The rest of TryLock, Unlock or renew once the script's outcome is known. */
  function Finish(s: State, c: nat, ok: bool, w: nat): (t: State)
    requires Waiting(s, c)
    ensures t == s.(locks := t.locks, watchdogs := t.watchdogs)
  {
    var l, r := s.locks[c], s.requests[s.locks[c].call.value];
    var done := l.(call := None);
    match r.kind
    case Acquire =>
      if !ok then s.(locks := s.locks[c := done])
      else
        var held := done.(token := Some(r.token), validUntil := r.sentAt + l.ttl);
        if l.autoRenew && !l.watching then
          s.(locks := s.locks[c := held.(watching := true, stopCh := w)], watchdogs := s.watchdogs[w := Watchdog(c, r.token, false)])
        else s.(locks := s.locks[c := held])
    case Release => s.(locks := s.locks[c := done.(token := None)])
    case Renew => s.(locks := s.locks[c := if ok then done.(validUntil := r.sentAt + l.ttl) else done])
  }

  function Next(s: State, a: Step): State
    requires Enabled(s, a)
  {
    match a
    case Elapse(now) => s.(now := now)
    case TryLock(c, id, token) => Send(s, c, id, Acquire, token).(owner := s.owner[token := c])
    case Unlock(c, id) => Send(StopWatchdog(s, c), c, id, Release, s.locks[c].token.value)
    case Extend(c, id) => Send(s, c, id, Renew, s.locks[c].token.value)
    case Tick(w, id) =>
      var d := s.watchdogs[w];
      if s.locks[d.client].token != Some(d.token) then s.(watchdogs := s.watchdogs - {w})
      else Send(s, d.client, id, Renew, d.token)
    case Quit(w) => s.(watchdogs := s.watchdogs - {w})
    case Exec(id) => Serve(s, id)
    case Drop(id) => s.(inFlight := s.inFlight - {id})
    case Return(c, ok, w) => Finish(s, c, ok, w)
    case Fail(c) => Finish(s, c, false, 0)
  }

  // ----- the invariant

  /** The client's last grant is for `token` and lasts at least to `t`. */
  ghost predicate Leased(s: State, c: nat, token: nat, t: int) {
    s.now < t ==> c in s.leases && s.leases[c].token == token && t <= s.leases[c].until
  }

  ghost predicate Releasing(s: State, c: nat) {
    Waiting(s, c) && s.requests[s.locks[c].call.value].kind.Release?
  }

  /** Tokens belong to one Lock each; requests name tokens of their sender. */
  ghost predicate TokensOk(s: State) {
    && (forall id | id in s.requests :: RequestOk(s, id))
    && (forall c | c in s.locks :: LockOk(s, c))
    && (forall x | x in s.replies :: x.0 in s.requests)
  }

  ghost predicate RequestOk(s: State, id: nat)
    requires id in s.requests
  {
    var r := s.requests[id];
    r.client in s.locks && r.token in s.owner && s.owner[r.token] == r.client && r.sentAt <= s.now
  }

  ghost predicate LockOk(s: State, c: nat)
    requires c in s.locks
  {
    var l := s.locks[c];
    && l.ttl >= 1
    && (l.token.Some? ==> l.token.value in s.owner && s.owner[l.token.value] == c)
    && (l.call.Some? ==>
          && Waiting(s, c) && s.requests[l.call.value].client == c
          && (!s.requests[l.call.value].kind.Acquire? ==> l.token == Some(s.requests[l.call.value].token)))
  }

  /** A token with a release request is gone, or the Unlock that sent it still runs. */
  ghost predicate ReleasesOk(s: State) {
    forall id | id in s.requests && s.requests[id].kind.Release? :: Spent(s, id)
  }

  ghost predicate Spent(s: State, id: nat)
    requires id in s.requests
  {
    var r := s.requests[id];
    && r.client in s.locks
    && (s.locks[r.client].token == Some(r.token) ==> s.locks[r.client].call == Some(id))
    && (Waiting(s, r.client) && s.requests[s.locks[r.client].call.value].kind.Acquire? ==>
          s.requests[s.locks[r.client].call.value].token != r.token)
  }

  /** The last grant of every client, while it lasts, is the server's key. */
  ghost predicate LeasesOk(s: State) {
    forall c | c in s.leases :: LeaseOk(s, c)
  }

  ghost predicate LeaseOk(s: State, c: nat)
    requires c in s.leases
  {
    && c in s.locks && s.leases[c].token in s.owner && s.owner[s.leases[c].token] == c
    && s.leases[c].until <= s.now + s.locks[c].ttl
    && (s.now < s.leases[c].until ==> s.key == Some(Key(s.leases[c].token, s.leases[c].until)))
  }

  /** Confirmations, received or on their way, are covered by the grant. */
  ghost predicate ConfirmedOk(s: State) {
    && (forall c | c in s.locks && s.locks[c].token.Some? && !Releasing(s, c) ::
          Leased(s, c, s.locks[c].token.value, s.locks[c].validUntil))
    && (forall id | (id, true) in s.replies && id in s.requests && !s.requests[id].kind.Release? && s.requests[id].client in s.locks
                    && s.locks[s.requests[id].client].call == Some(id) ::
          Leased(s, s.requests[id].client, s.requests[id].token, s.requests[id].sentAt + s.locks[s.requests[id].client].ttl))
  }

  ghost predicate Inv(s: State) {
    TokensOk(s) && ReleasesOk(s) && LeasesOk(s) && ConfirmedOk(s)
  }

  lemma SendKeeps(s: State, c: nat, id: nat, kind: Kind, token: nat)
    requires Inv(s) && Free(s, c) && id !in s.requests
    requires token in s.owner && s.owner[token] == c
    requires if kind.Acquire? then forall i | i in s.requests :: s.requests[i].token != token else s.locks[c].token == Some(token)
    ensures Inv(Send(s, c, id, kind, token))
  {
    var t := Send(s, c, id, kind, token);
    SendTokens(s, c, id, kind, token);
    forall i | i in t.requests && t.requests[i].kind.Release? ensures Spent(t, i) {
      if i != id { assert Spent(s, i); }
      SendSpent(s, c, id, kind, token, i);
    }
    forall d | d in t.leases ensures LeaseOk(t, d) { assert LeaseOk(s, d); }
    SendConfirmed(s, c, id, kind, token);
  }

  lemma SendTokens(s: State, c: nat, id: nat, kind: Kind, token: nat)
    requires Inv(s) && Free(s, c) && id !in s.requests
    requires token in s.owner && s.owner[token] == c
    requires if kind.Acquire? then forall i | i in s.requests :: s.requests[i].token != token else s.locks[c].token == Some(token)
    ensures TokensOk(Send(s, c, id, kind, token))
  {
    var t := Send(s, c, id, kind, token);
    forall i | i in t.requests ensures RequestOk(t, i) { if i != id { assert RequestOk(s, i); } }
    forall d | d in t.locks ensures LockOk(t, d) { assert LockOk(s, d); }
  }

  lemma SendSpent(s: State, c: nat, id: nat, kind: Kind, token: nat, i: nat)
    requires Free(s, c) && id !in s.requests && (i in s.requests && s.requests[i].kind.Release? ==> Spent(s, i))
    requires if kind.Acquire? then forall i | i in s.requests :: s.requests[i].token != token else s.locks[c].token == Some(token)
    requires var t := Send(s, c, id, kind, token); i in t.requests && t.requests[i].kind.Release?
    ensures Spent(Send(s, c, id, kind, token), i)
  {}

  lemma SendConfirmed(s: State, c: nat, id: nat, kind: Kind, token: nat)
    requires Inv(s) && Free(s, c) && id !in s.requests
    requires token in s.owner && s.owner[token] == c
    requires if kind.Acquire? then forall i | i in s.requests :: s.requests[i].token != token else s.locks[c].token == Some(token)
    ensures ConfirmedOk(Send(s, c, id, kind, token))
  {
    var t := Send(s, c, id, kind, token);
    forall d | d in t.locks && t.locks[d].token.Some? && !Releasing(t, d)
      ensures Leased(t, d, t.locks[d].token.value, t.locks[d].validUntil)
    {
      assert !Releasing(s, d);
    }
  }

  lemma StopWatchdogKeeps(s: State, c: nat)
    requires Inv(s) && Free(s, c)
    ensures var t := StopWatchdog(s, c); Inv(t) && Free(t, c) && t.locks[c].token == s.locks[c].token && t.requests == s.requests && t.owner == s.owner
  {
    var t := StopWatchdog(s, c);
    forall i | i in t.requests && t.requests[i].kind.Release? ensures Spent(t, i) { assert Spent(s, i); }
    forall d | d in t.locks && t.locks[d].token.Some? && !Releasing(t, d)
      ensures Leased(t, d, t.locks[d].token.value, t.locks[d].validUntil)
    {
      assert !Releasing(s, d);
    }
  }

  /** The heart of it: a grant that lasts is touched by no request but a release
      under its own token. */
  lemma GrantSurvives(s: State, id: nat, d: nat, token: nat, u: int)
    requires TokensOk(s) && LeasesOk(s) && Servable(s, id)
    requires d in s.locks && Leased(s, d, token, u)
    requires !(s.requests[id].kind.Release? && s.requests[id].token == token)
    ensures Leased(Serve(s, id), d, token, u)
  {
    assert RequestOk(s, id);
    if s.now < u { assert LeaseOk(s, d); }
  }

  lemma ServeLeases(s: State, id: nat)
    requires TokensOk(s) && LeasesOk(s) && Servable(s, id)
    ensures LeasesOk(Serve(s, id))
  {
    forall c | c in Serve(s, id).leases ensures LeaseOk(Serve(s, id), c) { ServeLease(s, id, c); }
  }

  lemma ServeLease(s: State, id: nat, c: nat)
    requires TokensOk(s) && LeasesOk(s) && Servable(s, id) && c in Serve(s, id).leases
    ensures LeaseOk(Serve(s, id), c)
  {
    assert RequestOk(s, id) && LockOk(s, s.requests[id].client);
    if c in s.leases { assert LeaseOk(s, c); }
  }

  lemma ServeConfirmed(s: State, id: nat)
    requires Inv(s) && Servable(s, id)
    ensures ConfirmedOk(Serve(s, id))
  {
    var t, r := Serve(s, id), s.requests[id];
    forall c | c in t.locks && t.locks[c].token.Some? && !Releasing(t, c)
      ensures Leased(t, c, t.locks[c].token.value, t.locks[c].validUntil)
    {
      assert !Releasing(s, c);
      if r.kind.Release? { assert Spent(s, id); }
      GrantSurvives(s, id, c, t.locks[c].token.value, t.locks[c].validUntil);
    }
    forall i | (i, true) in t.replies && i in t.requests && !t.requests[i].kind.Release? && t.requests[i].client in t.locks
               && t.locks[t.requests[i].client].call == Some(i)
      ensures Leased(t, t.requests[i].client, t.requests[i].token, t.requests[i].sentAt + t.locks[t.requests[i].client].ttl)
    {
      if (i, true) in s.replies {
        if r.kind.Release? { assert Spent(s, id); }
        GrantSurvives(s, id, t.requests[i].client, t.requests[i].token, t.requests[i].sentAt + t.locks[t.requests[i].client].ttl);
      }
    }
  }

  lemma ServeKeeps(s: State, id: nat)
    requires Inv(s) && Servable(s, id)
    ensures Inv(Serve(s, id))
  {
    var t := Serve(s, id);
    ServeLeases(s, id);
    ServeConfirmed(s, id);
    assert TokensOk(t);
    forall i | i in t.requests && t.requests[i].kind.Release? ensures Spent(t, i) { assert Spent(s, i); }
  }

  lemma FinishKeeps(s: State, c: nat, ok: bool, w: nat)
    requires Inv(s) && Waiting(s, c) && (ok ==> (s.locks[c].call.value, true) in s.replies)
    ensures Inv(Finish(s, c, ok, w))
  {
    FinishTokens(s, c, ok, w);
    FinishConfirmed(s, c, ok, w);
    var t := Finish(s, c, ok, w);
    forall d | d in t.leases ensures LeaseOk(t, d) { assert LeaseOk(s, d); }
  }

  lemma FinishTokens(s: State, c: nat, ok: bool, w: nat)
    requires Inv(s) && Waiting(s, c)
    ensures var t := Finish(s, c, ok, w); TokensOk(t) && ReleasesOk(t)
  {
    var t, call := Finish(s, c, ok, w), s.locks[c].call.value;
    assert LockOk(s, c) && RequestOk(s, call);
    forall i | i in t.requests ensures RequestOk(t, i) { assert RequestOk(s, i); }
    forall d | d in t.locks ensures LockOk(t, d) {
      assert LockOk(s, d);
      FinishLock(s, c, ok, w, d);
    }
    FinishSpent(s, c, ok, w);
  }

  lemma FinishLock(s: State, c: nat, ok: bool, w: nat, d: nat)
    requires Waiting(s, c) && d in s.locks && LockOk(s, d) && LockOk(s, c) && RequestOk(s, s.locks[c].call.value)
    ensures d in Finish(s, c, ok, w).locks && LockOk(Finish(s, c, ok, w), d)
  {}

  lemma FinishSpent(s: State, c: nat, ok: bool, w: nat)
    requires TokensOk(s) && ReleasesOk(s) && Waiting(s, c)
    ensures ReleasesOk(Finish(s, c, ok, w))
  {
    var t := Finish(s, c, ok, w);
    assert LockOk(s, c);
    forall i | i in t.requests && t.requests[i].kind.Release? ensures Spent(t, i) { assert Spent(s, i); }
  }

  lemma FinishConfirmed(s: State, c: nat, ok: bool, w: nat)
    requires Inv(s) && Waiting(s, c) && (ok ==> (s.locks[c].call.value, true) in s.replies)
    ensures ConfirmedOk(Finish(s, c, ok, w))
  {
    var t, call := Finish(s, c, ok, w), s.locks[c].call.value;
    assert LockOk(s, c);
    forall d | d in t.locks && t.locks[d].token.Some? && !Releasing(t, d)
      ensures Leased(t, d, t.locks[d].token.value, t.locks[d].validUntil)
    {
      if d != c { assert !Releasing(s, d); }
    }
  }

  lemma StepKeeps(s: State, a: Step)
    requires Inv(s) && Enabled(s, a)
    ensures Inv(Next(s, a)) && Next(s, a).now >= s.now
  {
    match a
    case Elapse(now) => ElapseKeeps(s, now);
    case TryLock(c, id, token) =>
      forall i | i in s.requests ensures s.requests[i].token != token { assert RequestOk(s, i); }
      OwnerKeeps(s, c, token);
      SendKeeps(s.(owner := s.owner[token := c]), c, id, Acquire, token);
    case Unlock(c, id) =>
      assert LockOk(s, c);
      StopWatchdogKeeps(s, c);
      SendKeeps(StopWatchdog(s, c), c, id, Release, s.locks[c].token.value);
    case Extend(c, id) =>
      assert LockOk(s, c);
      SendKeeps(s, c, id, Renew, s.locks[c].token.value);
    case Tick(w, id) =>
      var d := s.watchdogs[w];
      assert LockOk(s, d.client);
      if s.locks[d.client].token == Some(d.token) { SendKeeps(s, d.client, id, Renew, d.token); }
      else { WatchdogsKeep(s, s.watchdogs - {w}, s.inFlight); }
    case Quit(w) => WatchdogsKeep(s, s.watchdogs - {w}, s.inFlight);
    case Exec(id) => ServeKeeps(s, id);
    case Drop(id) => WatchdogsKeep(s, s.watchdogs, s.inFlight - {id});
    case Return(c, ok, w) => FinishKeeps(s, c, ok, w);
    case Fail(c) => FinishKeeps(s, c, false, 0);
  }

  /** The invariant does not depend on watchdogs or on what is in flight. */
  lemma WatchdogsKeep(s: State, watchdogs: map<nat, Watchdog>, inFlight: set<nat>)
    requires Inv(s)
    ensures Inv(s.(watchdogs := watchdogs, inFlight := inFlight))
  {
    var t := s.(watchdogs := watchdogs, inFlight := inFlight);
    SameView(s, t);
  }

  lemma ElapseKeeps(s: State, now: int)
    requires Inv(s) && s.now <= now
    ensures Inv(s.(now := now))
  {
    SameView(s, s.(now := now));
  }

  lemma OwnerKeeps(s: State, c: nat, token: nat)
    requires Inv(s) && token !in s.owner
    ensures Inv(s.(owner := s.owner[token := c]))
  {
    SameView(s, s.(owner := s.owner[token := c]));
  }

  lemma SameView(s: State, t: State)
    requires Inv(s) && t.now >= s.now && t.locks == s.locks && t.requests == s.requests && t.key == s.key
    requires t.leases == s.leases && t.replies == s.replies
    requires forall x | x in s.owner :: x in t.owner && t.owner[x] == s.owner[x]
    ensures Inv(t)
  {
    forall i | i in t.requests ensures RequestOk(t, i) { assert RequestOk(s, i); }
    forall d | d in t.locks ensures LockOk(t, d) { assert LockOk(s, d); }
    forall i | i in t.requests && t.requests[i].kind.Release? ensures Spent(t, i) { assert Spent(s, i); }
    forall d | d in t.leases ensures LeaseOk(t, d) { assert LeaseOk(s, d); }
    forall d | d in t.locks && t.locks[d].token.Some? && !Releasing(t, d)
      ensures Leased(t, d, t.locks[d].token.value, t.locks[d].validUntil)
    {
      assert !Releasing(s, d);
    }
  }

  // ----- whole runs

  predicate StepTo(s: State, x: Step, t: State) {
    Enabled(s, x) && Next(s, x) == t
  }

  ghost predicate Runs(s: State, steps: seq<Step>, t: State) {
    Leads(StepTo, s, steps, t)
  }

  lemma RunsKeep(s: State, steps: seq<Step>, t: State)
    requires Inv(s) && Runs(s, steps, t)
    ensures Inv(t) && t.now >= s.now && forall id | id in s.requests :: id in t.requests && t.requests[id] == s.requests[id]
  {
    var inv := (u: State) => Inv(u) && Later(s, u);
    forall u, x, v | inv(u) && StepTo(u, x, v) ensures inv(v) {
      StepKeeps(u, x);
      RequestsStay(u, x);
    }
    Keeps(StepTo, inv, s, steps, t);
  }

  /** Time goes on, and no request is forgotten. */
  ghost predicate Later(s: State, u: State) {
    u.now >= s.now && forall id | id in s.requests :: id in u.requests && u.requests[id] == s.requests[id]
  }

  lemma RequestsStay(s: State, x: Step)
    requires Enabled(s, x)
    ensures forall id | id in s.requests :: id in Next(s, x).requests && Next(s, x).requests[id] == s.requests[id]
  {}

  ghost predicate Reachable(s: State) {
    exists start, steps :: Initial(start) && Runs(start, steps, s)
  }

  lemma ReachableInv(s: State)
    requires Reachable(s)
    ensures Inv(s)
  {
    var start, steps :| Initial(start) && Runs(start, steps, s);
    RunsKeep(start, steps, s);
  }

  lemma ReachedOneMore(s: State, x: Step)
    requires Reachable(s) && Enabled(s, x)
    ensures Reachable(Next(s, x))
  {
    var start, steps :| Initial(start) && Runs(start, steps, s);
    Snoc(StepTo, start, steps, s, x, Next(s, x));
    assert Runs(start, steps + [x], Next(s, x));
  }

  /** A Lock holds while its last confirmation lasts, counted from when the caller
      sent it, and it has not called Unlock. */
  predicate Holds(s: State, c: nat) {
    && c in s.locks && s.locks[c].token.Some? && s.now < s.locks[c].validUntil
    && !(Waiting(s, c) && s.requests[s.locks[c].call.value].kind.Release?)
  }

  /** Mutual exclusion in every run: at most one Lock holds; and while it does, the
      key is its own, every SET NX of anybody fails, and no script run with another
      token changes the key. */
  lemma MutualExclusion(s: State)
    requires Reachable(s)
    ensures forall c, d | Holds(s, c) && Holds(s, d) :: c == d
    ensures forall c | Holds(s, c) ::
      && Live(s) && Some(s.key.value.token) == s.locks[c].token && s.locks[c].validUntil <= s.key.value.expires
      && forall id | Enabled(s, Exec(id)) ::
           s.requests[id].kind.Acquire? || Some(s.requests[id].token) != s.locks[c].token ==>
             Serve(s, id) == s.(replies := s.replies + {(id, false)})
  {
    ReachableInv(s);
    forall c | Holds(s, c)
      ensures Live(s) && Some(s.key.value.token) == s.locks[c].token && s.locks[c].validUntil <= s.key.value.expires
      ensures s.key.value.token in s.owner && s.owner[s.key.value.token] == c
    {
      assert !Releasing(s, c);
      assert Leased(s, c, s.locks[c].token.value, s.locks[c].validUntil);
      assert LeaseOk(s, c);
    }
  }

  // ----- watchdogs

  /** A watchdog that has not been told to stop is the one that its lock can tell to. */
  predicate Named(s: State, w: nat) {
    w in s.watchdogs && !s.watchdogs[w].stopped ==>
      var c := s.watchdogs[w].client; c in s.locks && s.locks[c].watching && s.locks[c].stopCh == w
  }

  ghost predicate WatchdogsOk(s: State) {
    forall w: nat :: Named(s, w)
  }

  lemma NamedStep(s: State, a: Step, w: nat)
    requires Enabled(s, a) && Named(s, w) && (a.Return? ==> LockOk(s, a.c))
    ensures Named(Next(s, a), w)
  {}

  /** A lock has one watchdog running at most, and none once it has called Unlock until it is taken again. */
  lemma OneWatchdog(s: State)
    requires Reachable(s)
    ensures forall v, w | v in s.watchdogs && w in s.watchdogs && !s.watchdogs[v].stopped && !s.watchdogs[w].stopped
                          && s.watchdogs[v].client == s.watchdogs[w].client :: v == w
    ensures forall w | w in s.watchdogs && !s.watchdogs[w].stopped ::
      s.watchdogs[w].client in s.locks && s.locks[s.watchdogs[w].client].watching
  {
    var start, steps :| Initial(start) && Runs(start, steps, s);
    var inv := (u: State) => Inv(u) && WatchdogsOk(u);
    forall u, x, v | inv(u) && StepTo(u, x, v) ensures inv(v) {
      StepKeeps(u, x);
      forall w: nat ensures Named(v, w) {
        assert Named(u, w);
        if x.Return? { assert LockOk(u, x.c); }
        NamedStep(u, x, w);
      }
    }
    Keeps(StepTo, inv, start, steps, s);
    forall w | w in s.watchdogs && !s.watchdogs[w].stopped
      ensures s.watchdogs[w].client in s.locks && s.locks[s.watchdogs[w].client].watching && s.locks[s.watchdogs[w].client].stopCh == w
    {
      assert Named(s, w);
    }
  }

  /** Unlock tells the lock's watchdog to stop. */
  lemma UnlockStops(s: State, c: nat, id: nat)
    requires Reachable(s) && Enabled(s, Unlock(c, id))
    ensures var t := Next(s, Unlock(c, id));
      forall w | w in t.watchdogs && t.watchdogs[w].client == c :: t.watchdogs[w].stopped
  {
    var t := Next(s, Unlock(c, id));
    ReachedOneMore(s, Unlock(c, id));
    OneWatchdog(t);
    forall w | w in t.watchdogs && t.watchdogs[w].client == c ensures t.watchdogs[w].stopped { NotWatching(s, c, id); }
  }

  lemma NotWatching(s: State, c: nat, id: nat)
    requires Enabled(s, Unlock(c, id))
    ensures var t := Next(s, Unlock(c, id)); c in t.locks && !t.locks[c].watching
  {}

  // ----- how long a hold lasts

  /** No confirmation reaches further than one ttl from now, nor further than the pending request would. */
  ghost predicate FreshOk(s: State) {
    forall c | c in s.locks && s.locks[c].token.Some? :: Fresh(s, c)
  }

  ghost predicate Fresh(s: State, c: nat)
    requires c in s.locks
  {
    var l := s.locks[c];
    l.validUntil <= s.now + l.ttl && (Waiting(s, c) ==> l.validUntil <= s.requests[l.call.value].sentAt + l.ttl)
  }

  lemma FreshKeeps(s: State, a: Step)
    requires Inv(s) && FreshOk(s) && Enabled(s, a)
    ensures FreshOk(Next(s, a))
  {
    forall c | c in Next(s, a).locks && Next(s, a).locks[c].token.Some? ensures Fresh(Next(s, a), c) {
      assert LockOk(s, c);
      if s.locks[c].call.Some? { assert RequestOk(s, s.locks[c].call.value); }
      FreshStep(s, a, c);
    }
  }

  lemma FreshStep(s: State, a: Step, c: nat)
    requires Enabled(s, a) && c in s.locks && LockOk(s, c) && (s.locks[c].token.Some? ==> Fresh(s, c))
    requires s.locks[c].call.Some? ==> RequestOk(s, s.locks[c].call.value)
    ensures c in Next(s, a).locks && (Next(s, a).locks[c].token.Some? ==> Fresh(Next(s, a), c))
  {
    if a.Return? || a.Fail? { FreshEnd(s, a, c); } else { FreshOther(s, a, c); }
  }

  lemma FreshEnd(s: State, a: Step, c: nat)
    requires a.Return? || a.Fail?
    requires Enabled(s, a) && c in s.locks && LockOk(s, c) && (s.locks[c].token.Some? ==> Fresh(s, c))
    requires s.locks[c].call.Some? ==> RequestOk(s, s.locks[c].call.value)
    ensures c in Next(s, a).locks && (Next(s, a).locks[c].token.Some? ==> Fresh(Next(s, a), c))
  {}

  lemma FreshOther(s: State, a: Step, c: nat)
    requires !a.Return? && !a.Fail?
    requires Enabled(s, a) && c in s.locks && LockOk(s, c) && (s.locks[c].token.Some? ==> Fresh(s, c))
    requires s.locks[c].call.Some? ==> RequestOk(s, s.locks[c].call.value)
    ensures c in Next(s, a).locks && (Next(s, a).locks[c].token.Some? ==> Fresh(Next(s, a), c))
  {}

  /** A step that is not the holder's Unlock leaves the hold, or makes it last longer. */
  lemma HoldStep(s: State, a: Step, c: nat)
    requires Inv(s) && FreshOk(s) && Enabled(s, a) && Holds(s, c) && !(a.Unlock? && a.c == c)
    requires Next(s, a).now < s.locks[c].validUntil
    ensures Outlasts(s, Next(s, a), c)
  {
    assert LockOk(s, c) && !Releasing(s, c);
    assert Leased(s, c, s.locks[c].token.value, s.locks[c].validUntil);
    if a.Return? && a.c == c && a.ok { ReturnConfirms(s, c); }
    HoldKept(s, a, c);
  }

  ghost predicate Outlasts(s: State, t: State, c: nat) {
    Holds(s, c) && Holds(t, c) && t.locks[c].token == s.locks[c].token && t.locks[c].validUntil >= s.locks[c].validUntil
  }

  /** A call of the holder that succeeds has succeeded under the holder's own token. */
  lemma ReturnConfirms(s: State, c: nat)
    requires Inv(s) && FreshOk(s) && Holds(s, c) && Waiting(s, c) && (s.locks[c].call.value, true) in s.replies
    ensures Some(s.requests[s.locks[c].call.value].token) == s.locks[c].token
  {
    var id := s.locks[c].call.value;
    assert LockOk(s, c) && Fresh(s, c) && !Releasing(s, c);
    assert Leased(s, c, s.locks[c].token.value, s.locks[c].validUntil);
    assert Leased(s, c, s.requests[id].token, s.requests[id].sentAt + s.locks[c].ttl);
  }

  lemma HoldKept(s: State, a: Step, c: nat)
    requires Enabled(s, a) && Holds(s, c) && LockOk(s, c) && Fresh(s, c) && !(a.Unlock? && a.c == c)
    requires Next(s, a).now < s.locks[c].validUntil
    requires a.Return? && a.c == c && a.ok ==> Some(s.requests[s.locks[c].call.value].token) == s.locks[c].token
    ensures Outlasts(s, Next(s, a), c)
  {}

  predicate Keeping(steps: seq<Step>, c: nat) {
    forall i | 0 <= i < |steps| && steps[i].Unlock? :: steps[i].c != c
  }

  lemma {:induction false} HoldRuns(s: State, steps: seq<Step>, t: State, c: nat)
    requires Inv(s) && FreshOk(s) && Runs(s, steps, t) && Holds(s, c) && Keeping(steps, c) && t.now < s.locks[c].validUntil
    ensures Outlasts(s, t, c)
    decreases |steps|
  {
    if steps != [] {
      var m :| StepTo(s, steps[0], m) && Leads(StepTo, m, steps[1..], t);
      StepKeeps(s, steps[0]);
      FreshKeeps(s, steps[0]);
      RunsKeep(m, steps[1..], t);
      HoldStep(s, steps[0], c);
      HoldRuns(m, steps[1..], t, c);
    }
  }

  lemma ReachableFresh(s: State)
    requires Reachable(s)
    ensures Inv(s) && FreshOk(s)
  {
    var start, steps :| Initial(start) && Runs(start, steps, s);
    var inv := (u: State) => Inv(u) && FreshOk(u);
    forall u, x, v | inv(u) && StepTo(u, x, v) ensures inv(v) {
      StepKeeps(u, x);
      FreshKeeps(u, x);
    }
    Keeps(StepTo, inv, start, steps, s);
  }

  /** A lock that holds goes on holding in every run until the time it was confirmed to, unless it calls
      Unlock: whatever the others, its own watchdog and calls, the server and the network do. */
  lemma HoldLasts(s: State, steps: seq<Step>, t: State, c: nat)
    requires Reachable(s) && Runs(s, steps, t) && Holds(s, c) && Keeping(steps, c) && t.now < s.locks[c].validUntil
    ensures Holds(t, c) && t.locks[c].token == s.locks[c].token && t.locks[c].validUntil >= s.locks[c].validUntil
  {
    ReachableFresh(s);
    HoldRuns(s, steps, t, c);
  }

  /** So a TryLock that succeeds gives the lock for ttl from the sending of its request, or until Unlock. */
  lemma ObtainedLasts(s: State, c: nat, w: nat, steps: seq<Step>, t: State)
    requires Reachable(s) && Enabled(s, Return(c, true, w)) && s.requests[s.locks[c].call.value].kind.Acquire?
    requires Runs(Next(s, Return(c, true, w)), steps, t) && Keeping(steps, c)
    ensures t.now < s.requests[s.locks[c].call.value].sentAt + s.locks[c].ttl ==>
      Holds(t, c) && t.locks[c].token == Some(s.requests[s.locks[c].call.value].token) && forall d | Holds(t, d) :: d == c
  {
    var m := Next(s, Return(c, true, w));
    ReachedOneMore(s, Return(c, true, w));
    ReachableFresh(m);
    RunsKeep(m, steps, t);
    if t.now < m.locks[c].validUntil {
      HoldRuns(m, steps, t, c);
      RunReaches(m, steps, t);
      MutualExclusion(t);
    }
  }

  lemma {:induction false} RunReaches(s: State, steps: seq<Step>, t: State)
    requires Reachable(s) && Runs(s, steps, t)
    ensures Reachable(t)
    decreases |steps|
  {
    if steps != [] {
      var m :| StepTo(s, steps[0], m) && Leads(StepTo, m, steps[1..], t);
      ReachedOneMore(s, steps[0]);
      RunReaches(m, steps[1..], t);
    }
  }

  /** On the server's clock: after a granted SET or renewal for `token` lasting to
      `until`, the key stays under that token until then, whatever anybody does short
      of running a release for that very token. */
  lemma {:induction false} GrantLasts(s: State, steps: seq<Step>, t: State, c: nat)
    requires Inv(s) && Runs(s, steps, t) && c in s.leases && t.now < s.leases[c].until
    requires forall i, id | 0 <= i < |steps| && steps[i] == Exec(id) ::
      id in t.requests ==> !(t.requests[id].kind.Release? && t.requests[id].token == s.leases[c].token)
    ensures Live(t) && t.key.value.token == s.leases[c].token && t.key.value.expires >= s.leases[c].until
    decreases |steps|
  {
    if steps == [] {
      assert LeaseOk(s, c);
    } else {
      assert steps[0].Exec? ==> steps[0] == Exec(steps[0].id);
      var m := GrantFirst(s, steps, t, c);
      GrantLasts(m, steps[1..], t, c);
    }
  }

  lemma GrantFirst(s: State, steps: seq<Step>, t: State, c: nat) returns (m: State)
    requires Inv(s) && Runs(s, steps, t) && steps != [] && c in s.leases && t.now < s.leases[c].until
    requires steps[0].Exec? && steps[0].id in t.requests ==>
      !(t.requests[steps[0].id].kind.Release? && t.requests[steps[0].id].token == s.leases[c].token)
    ensures Inv(m) && Runs(m, steps[1..], t) && c in m.leases
    ensures m.leases[c].token == s.leases[c].token && m.leases[c].until >= s.leases[c].until
  {
    RunsKeep(s, steps, t);
    m :| StepTo(s, steps[0], m) && Leads(StepTo, m, steps[1..], t);
    GrantStep(s, steps[0], c);
  }

  lemma GrantStep(s: State, a: Step, c: nat)
    requires Inv(s) && Enabled(s, a) && c in s.leases && s.now < s.leases[c].until
    requires a.Exec? ==> !(s.requests[a.id].kind.Release? && s.requests[a.id].token == s.leases[c].token)
    ensures var m := Next(s, a);
      Inv(m) && c in m.leases && m.leases[c].token == s.leases[c].token && m.leases[c].until >= s.leases[c].until
  {
    StepKeeps(s, a);
    assert LeaseOk(s, c);
    if a.Exec? { GrantSurvives(s, a.id, c, s.leases[c].token, s.leases[c].until); }
  }
}
