/** components/redis/lock.go as objects: one server and the Lock objects on one key. A call that
    nobody interrupts is a run of LeaseLock. */
module RedisLocks {
  import opened LeaseLock
  import opened Wrappers

  /** What becomes of a request: it is answered, or the reply or the request itself is lost. */
  datatype Fate = Answered | ReplyLost | RequestLost

  datatype Error = NotObtained | NotHeld | Network

  /** A Lock that holds owns the key. */
  lemma HolderHasKey(s: State, c: nat)
    requires Reachable(s)
    ensures Holds(s, c) ==> Live(s) && Some(s.key.value.token) == s.locks[c].token
  {
    MutualExclusion(s);
  }

  /** A Lock once its call has ended. */
  function Concluded(l: LeaseLock.Lock, kind: Kind, token: nat, ok: bool, now: int, w: nat): LeaseLock.Lock {
    var done := l.(call := None);
    match kind
    case Acquire =>
      if !ok then done
      else
        var held := done.(token := Some(token), validUntil := now + l.ttl);
        if l.autoRenew && !l.watching then held.(watching := true, stopCh := w) else held
    case Release => done.(token := None)
    case Renew => if ok then done.(validUntil := now + l.ttl) else done
  }

  /** A Lock whose watchdog is stopped if it is about to release. */
  function Stopped(l: LeaseLock.Lock, kind: Kind): LeaseLock.Lock {
    if kind.Release? then l.(watching := false) else l
  }

  lemma StoppedSame(l: LeaseLock.Lock, r: nat, kind: Kind, token: nat, ok: bool, now: int, w: nat)
    ensures var m := Stopped(l, kind).(call := Some(r));
      Concluded(m, kind, token, ok, now, w) == Concluded(Stopped(l, kind), kind, token, ok, now, w) && Started(m, kind, ok, w) == Started(l, kind, ok, w)
  {}

  /** The name of the watchdog that a call starts when it ends with the answer ok. */
  ghost function Started(l: LeaseLock.Lock, kind: Kind, ok: bool, w: nat): set<nat> {
    if kind.Acquire? && ok && l.autoRenew && !l.watching then {w} else {}
  }

  /** The call that waits for r has ended. */
  ghost function Ended(s: State, c: nat, r: nat, ok: bool, w: nat): State
    requires c in s.locks && r in s.requests
  {
    var l, q := s.locks[c], s.requests[r];
    s.(locks := s.locks[c := Concluded(l, q.kind, q.token, ok, s.now, w)],
       watchdogs := if q.kind.Acquire? && ok && l.autoRenew && !l.watching then s.watchdogs[w := Watchdog(c, q.token, false)] else s.watchdogs)
  }

  lemma EndedIs(s: State, c: nat, r: nat, ok: bool, w: nat)
    requires Waiting(s, c) && s.locks[c].call == Some(r) && s.requests[r].sentAt == s.now
    ensures Finish(s, c, ok, w) == Ended(s, c, r, ok, w)
  {}

  /** All that a call of the Lock c changes besides the key and that Lock: it uses the name r for its
      request, and ws for the watchdog it starts, if any. */
  ghost predicate OnlyLock(s: State, t: State, c: nat, r: nat, ws: set<nat>) {
    t.now == s.now && t.requests.Keys <= s.requests.Keys + {r} && c in t.locks && t.locks == s.locks[c := t.locks[c]]
    && t.watchdogs.Keys == s.watchdogs.Keys + ws
    && forall v | v in s.watchdogs :: t.watchdogs[v].client == s.watchdogs[v].client && t.watchdogs[v].token == s.watchdogs[v].token
  }

  lemma OnlyLockTrans(s: State, m: State, t: State, c: nat, r: nat, ws: set<nat>)
    requires OnlyLock(s, m, c, r, {}) && OnlyLock(m, t, c, r, ws)
    ensures OnlyLock(s, t, c, r, ws)
  {
    Overwrite(s.locks, c, m.locks[c], t.locks[c]);
  }

  /** The watchdog w has ended. */
  ghost function Without(s: State, w: nat): State {
    s.(watchdogs := s.watchdogs - {w})
  }

  lemma WithoutOnly(s: State, t: State, c: nat, r: nat, w: nat)
    requires OnlyLock(s, t, c, r, {})
    ensures OnlyLock(Without(s, w), Without(t, w), c, r, {})
  {}

  lemma SendOnly(s: State, c: nat, r: nat, kind: Kind, token: nat, owner: map<nat, nat>)
    requires c in s.locks
    ensures OnlyLock(s, Send(s, c, r, kind, token).(owner := owner), c, r, {})
    ensures OnlyLock(s, Send(StopWatchdog(s, c), c, r, kind, token).(owner := owner), c, r, {})
  {}

  /** The three requests at once: what they change, if they succeed, and the answer. */
  ghost function AfterServing(s: State, r: nat, ok: bool): State
    requires Servable(s, r)
  {
    var q := s.requests[r];
    var until := s.now + s.locks[q.client].ttl;
    s.(key := if !ok then s.key else if q.kind.Release? then None else Some(Key(q.token, until)),
       replies := s.replies + {(r, ok)},
       leases := if !ok then s.leases else if q.kind.Release? then s.leases - {q.client} else s.leases[q.client := Lease(q.token, until)])
  }

  lemma Served(s: State, r: nat)
    requires Servable(s, r)
    ensures var q := s.requests[r];
      Serve(s, r) == AfterServing(s, r, if q.kind.Acquire? then !Live(s) else Live(s) && s.key.value.token == q.token)
  {}

  class Server {
    var key: Option<Key>
    var now: int
    ghost var s: State  // the server, every Lock and the network

    ghost predicate Valid()
      reads this
    {
      Reachable(s) && s.key == key && s.now == now
    }

    /** A server without the key, at the start of a run. */
    constructor (ghost start: State, now: int)
      requires Initial(start) && start.now == now
      ensures Valid() && s == start && key.None? && this.now == now
    {
      key, this.now, s := None, now, start;
      new;
      assert Runs(start, [], start);
    }

    /** Time passes, and a key may expire by it. */
    method Elapse(later: int)
      requires Valid() && now <= later
      modifies this`now, this`s
      ensures Valid() && now == later && s == old(s).(now := later)
      ensures Expired() <==> key.None? || later >= key.value.expires
    {
      now := later;
      Do(Step.Elapse(later), s.(now := later));
    }

    /** The model takes a step. */
    ghost method Do(x: Step, t: State)
      requires Reachable(s) && StepTo(s, x, t)
      modifies this`s
      ensures Reachable(s) && s == t
    {
      ReachedOneMore(s, x);
      s := t;
    }

    predicate Expired()
      reads this
    {
      key.None? || now >= key.value.expires
    }

    /** Whether a request succeeds now. */
    predicate Grants(kind: Kind, token: nat)
      reads this
    {
      if kind.Acquire? then Expired() else !Expired() && key.value.token == token
    }

    /** SET key token NX PX ttl, unlockScript and renewScript; r is the request. */
    method Execute(kind: Kind, token: nat, ttl: int, ghost r: nat) returns (ok: bool)
      requires Valid() && Enabled(s, Exec(r)) && s.requests[r].kind == kind && s.requests[r].token == token
      requires ttl == s.locks[s.requests[r].client].ttl
      modifies this`key, this`s
      ensures Valid() && s == AfterServing(old(s), r, ok) && ok == old(Grants(kind, token))
      ensures key == if !ok then old(key) else if kind.Release? then None else Some(Key(token, now + ttl))
    {
      match kind {
        case Acquire =>
          ok := Expired();
          if ok { key := Some(Key(token, now + ttl)); }
        case Release =>
          ok := !Expired() && key.value.token == token;
          if ok { key := None; }
        case Renew =>
          ok := !Expired() && key.value.token == token;
          if ok { key := Some(Key(token, now + ttl)); }
      }
      Serving(r, ok);
    }

    ghost method Serving(r: nat, ok: bool)
      requires Reachable(s) && Enabled(s, Exec(r))
      requires var q := s.requests[r]; ok == if q.kind.Acquire? then !Live(s) else Live(s) && s.key.value.token == q.token
      modifies this`s
      ensures Reachable(s) && s == AfterServing(old(s), r, ok)
    {
      Served(s, r);
      Do(Exec(r), AfterServing(s, r, ok));
    }
  }

  class Lock {
    const id: nat
    const server: Server
    const ttl: int
    const autoRenew: bool
    var token: Option<nat>
    var watching: bool
    var stopCh: nat

    /** NewLock, for a Lock that the model has from the start. */
    constructor (server: Server, id: nat, ttl: int, autoRenew: bool)
      requires server.Valid() && id in server.s.locks && server.s.locks[id].call.None?
      requires var l := server.s.locks[id]; l.ttl == ttl && l.autoRenew == autoRenew && l.token.None? && !l.watching && l.ttl >= 1
      ensures Valid() && this.server == server && this.id == id && token.None?
    {
      this.server, this.id, this.ttl, this.autoRenew := server, id, ttl, autoRenew;
      token, watching, stopCh := None, false, 0;
    }

    /** The fields agree with the Lock of that id in the model. */
    ghost predicate Same()
      reads this, server
    {
      ttl >= 1 && id in server.s.locks &&
      var l := server.s.locks[id];
      l.ttl == ttl && l.autoRenew == autoRenew && l.token == token && l.watching == watching && (watching ==> l.stopCh == stopCh)
    }

    /** And no call of it is under way. */
    ghost predicate Valid()
      reads this, server
    {
      server.Valid() && Same() && server.s.locks[id].call.None?
    }

    /** The request r is on its way and the call waits for it. */
    ghost predicate Asked(kind: Kind, token: nat, r: nat)
      reads server
    {
      server.Valid() && id in server.s.locks && server.s.locks[id].ttl == ttl && server.s.locks[id].call == Some(r) &&
      r in server.s.requests && server.s.requests[r] == Request(id, kind, token, server.now) && r in server.s.inFlight
    }

    /** The request is sent, after stopWatchdog in the case of a release. */
    ghost method Ask(x: Step, kind: Kind, token: nat, r: nat, owner: map<nat, nat>)
      requires server.Valid() && id in server.s.locks && server.s.locks[id].ttl == ttl
      requires StepTo(server.s, x, Send(Base(kind), id, r, kind, token).(owner := owner))
      modifies server`s
      ensures Asked(kind, token, r) && OnlyLock(old(server.s), server.s, id, r, {}) && server.s.owner == owner
      ensures server.s.locks[id] == Stopped(old(server.s.locks[id]), kind).(call := Some(r))
    {
      SendOnly(server.s, id, r, kind, token, owner);
      server.Do(x, Send(Base(kind), id, r, kind, token).(owner := owner));
    }

    ghost function Base(kind: Kind): State
      reads this, server
      requires id in server.s.locks
    {
      if kind.Release? then StopWatchdog(server.s, id) else server.s
    }

    /** The way of a request to the server and back. */
    method Exchange(kind: Kind, token: nat, fate: Fate, ghost r: nat, ghost w: nat) returns (ok: bool)
      requires Asked(kind, token, r) && w !in server.s.watchdogs
      modifies server`key, server`s
      ensures server.Valid() && id in server.s.locks && ok == (!fate.RequestLost? && old(server.Grants(kind, token)))
      ensures server.key == if !ok then old(server.key) else if kind.Release? then None else Some(Key(token, server.now + ttl))
      ensures server.s.locks[id] == Concluded(old(server.s.locks[id]), kind, token, fate.Answered? && ok, server.now, w)
      ensures OnlyLock(old(server.s), server.s, id, r, Started(old(server.s.locks[id]), kind, fate.Answered? && ok, w)) && server.s.owner == old(server.s).owner
      ensures w in server.s.watchdogs ==> server.s.watchdogs[w] == Watchdog(id, token, false)
    {
      ok := false;
      if !fate.RequestLost? { ok := server.Execute(kind, token, ttl, r); }
      Conclude(kind, token, ok, fate, r, w);
    }

    /** The call ends, with the reply or with an error. */
    ghost method Conclude(kind: Kind, token: nat, ok: bool, fate: Fate, r: nat, w: nat)
      requires Reachable(server.s) && Waiting(server.s, id) && w !in server.s.watchdogs
      requires server.s.locks[id].call == Some(r) && server.s.requests[r] == Request(id, kind, token, server.s.now)
      requires fate.Answered? ==> (r, ok) in server.s.replies
      modifies server`s
      ensures Reachable(server.s) && server.s == Ended(old(server.s), id, r, fate.Answered? && ok, w)
    {
      EndedIs(server.s, id, r, fate.Answered? && ok, if fate.Answered? then w else 0);
      if fate.Answered? {
        server.Do(Return(id, ok, w), Ended(server.s, id, r, ok, w));
      } else {
        server.Do(Fail(id), Ended(server.s, id, r, false, 0));
      }
    }

    /** A call from sending its request to its end. */
    method Call(ghost x: Step, kind: Kind, token: nat, ghost owner: map<nat, nat>, fate: Fate, ghost r: nat, ghost w: nat) returns (ok: bool)
      requires server.Valid() && id in server.s.locks && server.s.locks[id].ttl == ttl && w !in server.s.watchdogs
      requires StepTo(server.s, x, Send(Base(kind), id, r, kind, token).(owner := owner))
      modifies server`key, server`s
      ensures server.Valid() && OnlyLock(old(server.s), server.s, id, r, Started(old(server.s.locks[id]), kind, fate.Answered? && ok, w)) && server.s.owner == owner
      ensures ok == (!fate.RequestLost? && old(server.Grants(kind, token)))
      ensures server.key == if !ok then old(server.key) else if kind.Release? then None else Some(Key(token, server.now + ttl))
      ensures server.s.locks[id] ==
        Concluded(Stopped(old(server.s.locks[id]), kind), kind, token, fate.Answered? && ok, server.now, w)
      ensures w in server.s.watchdogs ==> server.s.watchdogs[w] == Watchdog(id, token, false)
    {
      ghost var l := server.s.locks[id];
      Ask(x, kind, token, r, owner);
      ghost var m := server.s;
      ok := Exchange(kind, token, fate, r, w);
      StoppedSame(l, r, kind, token, fate.Answered? && ok, server.now, w);
      OnlyLockTrans(old(server.s), m, server.s, id, r, Started(old(server.s.locks[id]), kind, fate.Answered? && ok, w));
    }

    /** r and w are unused names, for the request and a watchdog; unique is a fresh token. */
    method TryLock(unique: nat, fate: Fate, ghost r: nat, w: nat) returns (err: Option<Error>)
      requires Valid() && unique !in server.s.owner && r !in server.s.requests && w !in server.s.watchdogs
      modifies this`token, this`watching, this`stopCh, server`key, server`s
      ensures Valid() && OnlyLock(old(server.s), server.s, id, r, if err.None? && autoRenew && !old(watching) then {w} else {}) && server.s.owner == old(server.s).owner[unique := id]
      ensures server.key == if !fate.RequestLost? && old(server.Expired()) then Some(Key(unique, server.now + ttl)) else old(server.key)
      ensures err == if !fate.Answered? then Some(Network) else if old(server.Expired()) then None else Some(NotObtained)
      ensures err.None? ==> Holds(server.s, id) && server.s.locks[id].validUntil == server.now + ttl && token == Some(unique) && (autoRenew ==> watching)
      ensures err.None? && autoRenew && !old(watching) ==>
        stopCh == w && server.s.watchdogs[w] == Watchdog(id, unique, false)
      ensures err.Some? ==> token == old(token) && watching == old(watching)
      ensures err == Some(NotObtained) ==> fate.Answered? && !server.Expired()
    {
      ghost var owner := server.s.owner[unique := id];
      var ok := Call(Step.TryLock(id, r, unique), Acquire, unique, owner, fate, r, w);
      if !fate.Answered? { return Some(Network); }
      if !ok { return Some(NotObtained); }
      token := Some(unique);
      if autoRenew { StartWatchdog(w); }
      err := None;
    }

    method StartWatchdog(w: nat)
      modifies this`watching, this`stopCh
      ensures watching && stopCh == if old(watching) then old(stopCh) else w
    {
      if watching { return; }
      watching, stopCh := true, w;
    }

    lemma HolderGranted()
      requires Valid()
      ensures Holds(server.s, id) ==> token.Some? && server.Grants(Release, token.value)
    {
      HolderHasKey(server.s, id);
    }

    /** Also after an error the token is forgotten: the release is not tried again. */
    method Unlock(fate: Fate, ghost r: nat, ghost w: nat) returns (err: Option<Error>)
      requires Valid() && r !in server.s.requests && w !in server.s.watchdogs
      modifies this`token, this`watching, server`key, server`s
      ensures Valid() && OnlyLock(old(server.s), server.s, id, r, {}) && server.s.owner == old(server.s).owner
      ensures server.key ==
        if old(token).Some? && !fate.RequestLost? && old(server.Grants(Release, token.value)) then None else old(server.key)
      ensures token.None? && !Holds(server.s, id)
      ensures old(token).None? ==> server.s == old(server.s)
      ensures old(token).Some? ==> !watching
      ensures err == if old(token).None? then Some(NotHeld) else if !fate.Answered? then Some(Network)
                     else if old(server.Grants(Release, token.value)) then None else Some(NotHeld)
      ensures old(Holds(server.s, id)) && fate.Answered? ==> err.None?
    {
      if token.None? { return Some(NotHeld); }
      HolderGranted();
      watching := false;
      var ok := Call(Step.Unlock(id, r), Release, token.value, server.s.owner, fate, r, w);
      token := None;
      err := if !fate.Answered? then Some(Network) else if !ok then Some(NotHeld) else None;
    }

    /** Renew, and the watchdog's ticks. */
    method Renew(fate: Fate, ghost r: nat, ghost w: nat) returns (err: Option<Error>)
      requires Valid() && r !in server.s.requests && w !in server.s.watchdogs
      modifies server`key, server`s
      ensures Valid() && OnlyLock(old(server.s), server.s, id, r, {}) && server.s.owner == old(server.s).owner
      ensures server.key == if token.Some? && !fate.RequestLost? && old(server.Grants(Kind.Renew, token.value))
                            then Some(Key(token.value, server.now + ttl)) else old(server.key)
      ensures err == if token.None? then Some(NotHeld) else if !fate.Answered? then Some(Network)
                     else if old(server.Grants(Kind.Renew, token.value)) then None else Some(NotHeld)
      ensures err.None? ==> Holds(server.s, id) && server.s.locks[id].validUntil == server.now + ttl
      ensures old(Holds(server.s, id)) ==> Holds(server.s, id) && (fate.Answered? ==> err.None?)
    {
      if token.None? { return Some(NotHeld); }
      HolderGranted();
      var ok := Call(Extend(id, r), Kind.Renew, token.value, server.s.owner, fate, r, w);
      err := if !fate.Answered? then Some(Network) else if !ok then Some(NotHeld) else None;
    }

    /** The watchdog w ends; before is the state its tick began in. */
    ghost method Leave(x: Step, w: nat, r: nat, before: State)
      requires Valid() && StepTo(server.s, x, Without(server.s, w)) && OnlyLock(before, server.s, id, r, {})
      modifies server`s
      ensures Valid() && OnlyLock(Without(before, w), server.s, id, r, {}) && server.s == Without(old(server.s), w)
    {
      WithoutOnly(before, server.s, id, r, w);
      server.Do(x, Without(server.s, w));
    }

    /** The ticker case of the watchdog w, which keeps the token it was started for in mine: it renews
        that lock only, and ends when the lock has got another token or the renewal fails. */
    method Tick(mine: nat, fate: Fate, ghost w: nat, ghost r: nat, ghost v: nat) returns (more: bool)
      requires Valid() && w in server.s.watchdogs && server.s.watchdogs[w].client == id && server.s.watchdogs[w].token == mine
      requires r !in server.s.requests && v !in server.s.watchdogs
      modifies server`key, server`s
      ensures Valid() && token == old(token) && server.s.owner == old(server.s).owner
      ensures OnlyLock(if more then old(server.s) else Without(old(server.s), w), server.s, id, r, {}) && (more <==> w in server.s.watchdogs)
      ensures more <==> fate.Answered? && token == Some(mine) && old(server.Grants(Kind.Renew, mine))
      ensures more ==> Holds(server.s, id) && server.s.locks[id].validUntil == server.now + ttl
      ensures server.key == if token == Some(mine) && !fate.RequestLost? && old(server.Grants(Kind.Renew, mine))
                            then Some(Key(mine, server.now + ttl)) else old(server.key)
    {
      if token != Some(mine) {
        Leave(Step.Tick(w, r), w, r, server.s);
        return false;
      }
      more := Call(Step.Tick(w, r), Kind.Renew, mine, server.s.owner, fate, r, v);
      more := more && fate.Answered?;
      if !more {
        Leave(Quit(w), w, r, old(server.s));
      }
    }
  }

  // ----- two Locks on one server

  /** Lock 2 gets the key only when that of lock 1 is expired, and the late release of lock 1 does
      nothing to it. */
  method Contend(ghost start: State)
    requires Initial(start) && start.now == 0 && start.locks.Keys == {1, 2}
    requires forall c | c in start.locks :: start.locks[c].ttl == 10 && start.locks[c].autoRenew == (c == 1)
  {
    var server := new Server(start, 0);
    var a := new Lock(server, 1, 10, true);
    var b := new Lock(server, 2, 10, false);
    Refused(a, b);
    Renewed(a, b);
    TakenOver(a, b);
  }

  ghost predicate Two(a: Lock, b: Lock, now: int)
    reads a, b, a.server, b.server
  {
    a.Valid() && b.Valid() && a.server == b.server && a.id == 1 && b.id == 2 && a.ttl == b.ttl == 10 && !b.autoRenew && a.server.now == now
  }

  ghost predicate Watched(s: State) {
    s.watchdogs.Keys == {0} && s.watchdogs[0].client == 1 && s.watchdogs[0].token == 100
  }

  /** While a holds, b is refused. */
  method Refused(a: Lock, b: Lock)
    requires Two(a, b, 0) && a.autoRenew && !a.watching && b.token.None? && a.server.key.None?
    requires a.server.s.requests == map[] && a.server.s.owner == map[] && a.server.s.watchdogs == map[]
    modifies a, a.server, b
    ensures Two(a, b, 0) && a.token == Some(100) && b.token.None? && a.server.key == Some(Key(100, 10))
    ensures Holds(a.server.s, 1) && a.server.s.requests.Keys <= {0, 1} && a.server.s.owner.Keys == {100, 200}
    ensures Watched(a.server.s)
  {
    var err := a.TryLock(100, Answered, 0, 0);
    assert err.None?;
    err := b.TryLock(200, Answered, 1, 1);
    assert err == Some(NotObtained);
  }

  /** The watchdog of a makes the key last. */
  method Renewed(a: Lock, b: Lock)
    requires Two(a, b, 0) && a.token == Some(100) && b.token.None? && a.server.key == Some(Key(100, 10))
    requires a.server.s.requests.Keys <= {0, 1} && Watched(a.server.s)
    modifies a.server
    ensures Two(a, b, 5) && a.token == Some(100) && b.token.None? && a.server.key == Some(Key(100, 15)) && Holds(a.server.s, 1)
    ensures a.server.s.requests.Keys <= {0, 1, 2} && a.server.s.owner == old(a.server.s.owner) && a.server.s.watchdogs.Keys == {0}
  {
    a.server.Elapse(5);
    var more := a.Tick(100, Answered, 0, 2, 1);
    assert more;
  }

  /** The key of a expires and b gets it; a finds out when it unlocks. */
  method TakenOver(a: Lock, b: Lock)
    requires Two(a, b, 5) && a.token == Some(100) && b.token.None? && a.server.key == Some(Key(100, 15))
    requires a.server.s.requests.Keys <= {0, 1, 2} && a.server.s.owner.Keys == {100, 200} && a.server.s.watchdogs.Keys == {0}
    modifies a, a.server, b
    ensures Two(a, b, 15) && a.server.key == Some(Key(201, 25)) && !Holds(a.server.s, 1) && Holds(a.server.s, 2)
  {
    a.server.Elapse(15);
    var err := b.TryLock(201, Answered, 3, 1);
    assert err.None? && Holds(b.server.s, 2);
    err := a.Unlock(Answered, 4, 1);
    assert err == Some(NotHeld);
  }
}
