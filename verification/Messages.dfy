/** The pooled messages of facade/message.go on their way through net/actor/system.go and
    net/actor/actor.go: any number of calls, actors and children, as interleaved steps. A message
    object is used for one call after another. */
module Messages {
  import opened Wrappers
  import opened Transitions

  type Ref = nat      // a message object
  type CallId = nat   // one call of InvokeTarget, NotifyTarget, InvokeChild or NotifyChild
  type Name = nat     // of a top actor, or of a child in the table of its parent
  type Value = nat    // a result

  datatype Path = Path(top: Name, child: Option<Name>)

  /** An actor's own path: two parents may each have a child of the same name. */
  type ActorId = Path

  /** The fields of a message: call stands for MethodID, Context and Payload, which are filled together;
      chan is ChanInvokeResult and cancel is Cancel, each naming the call whose channel or context it
      belongs to; target is Target and path its parsed form, which TargetPath keeps. */
  datatype Content = Content(call: Option<CallId>, chan: Option<CallId>, cancel: Option<CallId>,
                             target: Option<Path>, path: Option<Path>)
  {
    /** TargetPath: parses Target unless that has been done. */
    function Route(): Option<Path> { if path.Some? then path else target }

    function Child(): Option<Name> { if Route().Some? then Route().value.child else None }
  }

  const BLANK := Content(None, None, None, None, None)

  /** direct: InvokeChild and NotifyChild, which find the child themselves. */
  datatype Kind = Kind(notify: bool, direct: bool)

  datatype Outcome = Accepted | NotFound | Got(v: Value) | Expired

  datatype Phase =
    | Filling(m: Ref) | Looking(m: Ref) | Posting(m: Ref, to: ActorId) | Dropping(m: Ref) | Dropped(m: Ref)
    | Waiting | Returned(outcome: Outcome)

  datatype Caller = Caller(kind: Kind, target: Path, phase: Phase)

  datatype Actor = Idle | Holding(m: Ref) | Finishing(m: Ref, v: Value) | Sent(m: Ref) | Cleared(m: Ref)

  datatype Place = Pooled | Gone | WithCaller(c: CallId) | InMail(a: ActorId) | WithActor(a: ActorId)

  /** What became of a message at its actor: the handler ran and returned v, or the actor answered v for it. */
  datatype Verdict = Handled(v: Value) | Refused(v: Value)

  datatype State = State(
    pool: multiset<Ref>, contents: map<Ref, Content>,
    callers: map<CallId, Caller>, mail: map<ActorId, seq<Ref>>, actors: map<ActorId, Actor>,
    chans: map<CallId, seq<Value>>,
    // what happened: where each object is, which object a call was given, the result sent for a call,
    // and how often its handler ran, its message was released and its context was cancelled
    at: map<Ref, Place>, given: map<CallId, Ref>, answers: map<CallId, Value>,
    ran: multiset<CallId>, released: multiset<CallId>, cancelled: multiset<CallId>,
    // and what was decided for a call, and whether it was posted, found no actor or was given up
    decided: map<CallId, Verdict>, posted: set<CallId>, missed: set<CallId>, gaveUp: set<CallId>)

  const INIT := State(multiset{}, map[], map[], map[], map[], map[], map[], map[], map[], multiset{}, multiset{}, multiset{}, map[], {}, {}, {})

  datatype Step =
    | Acquire(c: CallId, m: Ref, kind: Kind, target: Path) | Fit(c: CallId) | Find(c: CallId, a: ActorId) | Miss(c: CallId)
    | Post(c: CallId) | DropClear(c: CallId) | DropPut(c: CallId) | Receive(c: CallId) | Expire(c: CallId)
    | Take(a: ActorId) | Forward(a: ActorId, b: ActorId) | Reject(a: ActorId, v: Value) | Run(a: ActorId, v: Value)
    | Send(a: ActorId) | Clear(a: ActorId) | Put(a: ActorId) | Evict(m: Ref)

  function Mail(s: State, a: ActorId): seq<Ref> { if a in s.mail then s.mail[a] else [] }

  function Doing(s: State, a: ActorId): Actor { if a in s.actors then s.actors[a] else Idle }

  function Chan(s: State, c: CallId): seq<Value> { if c in s.chans then s.chans[c] else [] }

  function PhaseOf(s: State, c: CallId): Phase { if c in s.callers then s.callers[c].phase else Returned(Accepted) }

  function Read(s: State, m: Ref): Content { if m in s.contents then s.contents[m] else BLANK }

  /** The actor may not read the call of a message that has none. */
  function CallOf(s: State, m: Ref): CallId {
    if Read(s, m).call.Some? then Read(s, m).call.value else 0
  }

  predicate Enabled(s: State, x: Step) {
    match x
    case Acquire(c, m, _, _) => c !in s.callers && (m in s.pool || m !in s.contents)
    case Fit(c) => PhaseOf(s, c).Filling?
    case Find(c, a) =>
      PhaseOf(s, c).Looking? && Read(s, s.callers[c].phase.m).Route().Some? &&
      var r := Read(s, s.callers[c].phase.m).Route().value;
      if s.callers[c].kind.direct then r.child.Some? && a == r else a == Path(r.top, None)
    case Miss(c) => PhaseOf(s, c).Looking?
    case Post(c) => PhaseOf(s, c).Posting?
    case DropClear(c) => PhaseOf(s, c).Dropping?
    case DropPut(c) => PhaseOf(s, c).Dropped?
    case Receive(c) => PhaseOf(s, c).Waiting? && Chan(s, c) != []
    case Expire(c) => PhaseOf(s, c).Waiting?
    case Take(a) => Doing(s, a).Idle? && Mail(s, a) != []
    case Forward(a, b) =>
      Doing(s, a).Holding? && a.child.None? && Read(s, Doing(s, a).m).Child().Some? && b == Path(a.top, Read(s, Doing(s, a).m).Child())
    case Reject(a, _) => Doing(s, a).Holding?
    case Run(a, _) => Doing(s, a).Holding? && !(a.child.None? && Read(s, Doing(s, a).m).Child().Some?)
    case Send(a) =>
      Doing(s, a).Finishing? && (Read(s, Doing(s, a).m).chan.Some? ==> |Chan(s, Read(s, Doing(s, a).m).chan.value)| < 1)
    case Clear(a) => Doing(s, a).Sent?
    case Put(a) => Doing(s, a).Cleared?
    case Evict(m) => m in s.pool
  }

  function SetPhase(s: State, c: CallId, p: Phase): (t: State)
    requires c in s.callers
    ensures t == s.(callers := t.callers)
  {
    s.(callers := s.callers[c := s.callers[c].(phase := p)])
  }

  function SetActor(s: State, a: ActorId, d: Actor): (t: State)
    ensures t == s.(actors := t.actors)
  {
    s.(actors := s.actors[a := d])
  }

  function Pushed(s: State, a: ActorId, m: Ref): (t: State)
    ensures t == s.(mail := t.mail, at := t.at)
  {
    s.(mail := s.mail[a := Mail(s, a) + [m]], at := s.at[m := InMail(a)])
  }

  function Written(s: State, m: Ref, x: Content): (t: State)
    ensures t == s.(contents := t.contents)
  {
    s.(contents := s.contents[m := x])
  }

  /** Recycle up to the return to the pool: cancel the context, clear every field. */
  function Wiped(s: State, m: Ref): (t: State)
    ensures t == s.(contents := t.contents, released := t.released, cancelled := t.cancelled)
  {
    s.(contents := s.contents[m := BLANK],
       released := s.released + multiset{CallOf(s, m)},
       cancelled := if Read(s, m).cancel.Some? then s.cancelled + multiset{Read(s, m).cancel.value} else s.cancelled)
  }

  function Pooling(s: State, m: Ref): (t: State)
    ensures t == s.(pool := t.pool, at := t.at)
  {
    s.(pool := s.pool + multiset{m}, at := s.at[m := Pooled])
  }

  function Next(s: State, x: Step): State
    requires Enabled(s, x)
  {
    match x
    case Acquire(c, m, kind, target) =>
      s.(pool := if m in s.pool then s.pool - multiset{m} else s.pool,
         contents := s.contents[m := Read(s, m).(call := Some(c), target := Some(target))],
         callers := s.callers[c := Caller(kind, target, Filling(m))], at := s.at[m := WithCaller(c)], given := s.given[c := m])
    case Fit(c) =>
      var k, m := s.callers[c].kind, s.callers[c].phase.m;
      var x := Read(s, m);
      SetPhase(Written(s, m, if k.notify then x.(cancel := Some(c)) else if k.direct then x else x.(chan := Some(c))), c, Looking(m))
    case Find(c, a) =>
      var k, m := s.callers[c].kind, s.callers[c].phase.m;
      var x := Read(s, m).(path := Read(s, m).Route());
      SetPhase(Written(s, m, if k.direct && !k.notify then x.(chan := Some(c)) else x), c, Posting(m, a))
    case Miss(c) =>
      var m := s.callers[c].phase.m;
      SetPhase(Written(s, m, Read(s, m).(path := Read(s, m).Route())).(missed := s.missed + {c}), c, Dropping(m))
    case Post(c) =>
      SetPhase(Pushed(s, s.callers[c].phase.to, s.callers[c].phase.m).(posted := s.posted + {c}), c,
               if s.callers[c].kind.notify then Returned(Accepted) else Waiting)
    case DropClear(c) => SetPhase(Wiped(s, s.callers[c].phase.m), c, Dropped(s.callers[c].phase.m))
    case DropPut(c) => SetPhase(Pooling(s, s.callers[c].phase.m), c, Returned(NotFound))
    case Receive(c) => SetPhase(s.(chans := s.chans[c := Chan(s, c)[1..]]), c, Returned(Got(Chan(s, c)[0])))
    case Expire(c) => SetPhase(s.(gaveUp := s.gaveUp + {c}), c, Returned(Expired))
    case Take(a) =>
      var m := Mail(s, a)[0];
      SetActor(s.(mail := s.mail[a := Mail(s, a)[1..]], at := s.at[m := WithActor(a)]), a, Holding(m))
    case Forward(a, b) => SetActor(Pushed(s, b, Doing(s, a).m), a, Idle)
    case Reject(a, v) =>
      SetActor(s.(decided := s.decided[CallOf(s, Doing(s, a).m) := Refused(v)]), a, Finishing(Doing(s, a).m, v))
    case Run(a, v) =>
      var m := Doing(s, a).m;
      SetActor(s.(ran := s.ran + multiset{CallOf(s, m)}, decided := s.decided[CallOf(s, m) := Handled(v)]), a, Finishing(m, v))
    case Send(a) =>
      var m, v := Doing(s, a).m, Doing(s, a).v;
      var ch := Read(s, m).chan;
      SetActor(if ch.Some? then s.(chans := s.chans[ch.value := Chan(s, ch.value) + [v]], answers := s.answers[CallOf(s, m) := v])
               else s, a, Sent(m))
    case Clear(a) => SetActor(Wiped(s, Doing(s, a).m), a, Cleared(Doing(s, a).m))
    case Put(a) => SetActor(Pooling(s, Doing(s, a).m), a, Idle)
    case Evict(m) => s.(pool := s.pool - multiset{m}, at := s.at[m := Gone])
  }

  // ----- ownership

  /** The message object whose fields a step reads or writes. */
  function Touched(s: State, x: Step): Option<Ref>
    requires Enabled(s, x)
  {
    match x
    case Acquire(_, m, _, _) => Some(m)
    case Fit(c) => Some(s.callers[c].phase.m)
    case Find(c, _) => Some(s.callers[c].phase.m)
    case Miss(c) => Some(s.callers[c].phase.m)
    case Post(c) => Some(s.callers[c].phase.m)
    case DropClear(c) => Some(s.callers[c].phase.m)
    case DropPut(c) => Some(s.callers[c].phase.m)
    case Receive(_) => None
    case Expire(_) => None
    case Take(a) => Some(Mail(s, a)[0])
    case Evict(m) => Some(m)
    case _ => Some(Doing(s, x.a).m)
  }

  /** The place a message must be at for the step that touches it. */
  function Actee(s: State, x: Step): Place
    requires Enabled(s, x)
  {
    match x
    case Acquire(_, _, _, _) => Pooled
    case Evict(_) => Pooled
    case Take(a) => InMail(a)
    case Fit(c) => WithCaller(c)
    case Find(c, _) => WithCaller(c)
    case Miss(c) => WithCaller(c)
    case Post(c) => WithCaller(c)
    case DropClear(c) => WithCaller(c)
    case DropPut(c) => WithCaller(c)
    case Receive(_) => Gone
    case Expire(_) => Gone
    case _ => WithActor(x.a)
  }

  lemma TouchOwned(s: State, x: Step)
    requires Inv(s) && Enabled(s, x) && Touched(s, x).Some?
    ensures var m := Touched(s, x).value;
      PlaceOk(s, m) && ContentOk(s, m) && (m in s.at ==> s.at[m] == Actee(s, x)) && (x.Acquire? || m in s.at)
  {
    var m := Touched(s, x).value;
    assert PlaceOk(s, m) && ContentOk(s, m);
    assert m in s.at || !x.Acquire? ==> Owns(s, Actee(s, x), m);
  }

  predicate CallerHolds(s: State, c: CallId, m: Ref) {
    var p := PhaseOf(s, c);
    (p.Filling? || p.Looking? || p.Posting? || p.Dropping? || p.Dropped?) && p.m == m
  }

  predicate ActorHolds(s: State, a: ActorId, m: Ref) {
    !Doing(s, a).Idle? && Doing(s, a).m == m
  }

  /** Message m is found at place p. */
  predicate Owns(s: State, p: Place, m: Ref) {
    match p
    case Pooled => m in s.pool
    case Gone => false
    case WithCaller(c) => CallerHolds(s, c, m)
    case InMail(a) => m in Mail(s, a)
    case WithActor(a) => ActorHolds(s, a, m)
  }

  /** at tells the one place where a message is; pooled messages are blank. */
  ghost predicate PlaceOk(s: State, m: Ref) {
    && (m in s.contents <==> m in s.at)
    && (m in s.at && s.at[m] != Gone ==> Owns(s, s.at[m], m))
    && (forall p :: Owns(s, p, m) ==> m in s.at && s.at[m] == p)
    && s.pool[m] <= 1
    && (m in s.at && (s.at[m].Pooled? || s.at[m].Gone?) ==> s.contents[m] == BLANK)
  }

  predicate MailOk(s: State, a: ActorId) {
    forall i, j | 0 <= i < j < |Mail(s, a)| :: Mail(s, a)[i] != Mail(s, a)[j]
  }

  // ----- calls

  /** The message that was given to call c still is that of call c. */
  predicate Live(s: State, c: CallId) {
    c in s.given && Read(s, s.given[c]).call == Some(c)
  }

  predicate ContentOk(s: State, m: Ref) {
    var x := Read(s, m);
    if x.call.None? then x == BLANK else
      var c := x.call.value;
      c in s.callers && c in s.given && s.given[c] == m
      && x.target == Some(s.callers[c].target) && (x.path.Some? ==> x.path == x.target)
      && x.cancel == (if s.callers[c].kind.notify && !s.callers[c].phase.Filling? then Some(c) else None)
      && (x.chan.Some? ==> x.chan == Some(c) && !s.callers[c].kind.notify)
      && (!s.callers[c].kind.notify && (s.callers[c].phase.Posting? || !CallerHolds(s, c, m)) ==> x.chan.Some?)
      && (!s.callers[c].kind.notify && !s.callers[c].kind.direct && !s.callers[c].phase.Filling? ==> x.chan.Some?)
  }

  /** Nothing has been done for the call yet. */
  predicate Untouched(s: State, c: CallId) {
    s.ran[c] == 0 && c !in s.answers && c !in s.decided
  }

  /** Actor a is on the way of a message with that target: the actor named or its parent. */
  predicate Addressed(a: ActorId, target: Option<Path>) {
    target.Some? && (a == target.value || a == Path(target.value.top, None))
  }

  predicate ActorOk(s: State, a: ActorId) {
    var d := Doing(s, a);
    match d
    case Idle => true
    case Holding(m) => Read(s, m).call.Some? && Untouched(s, CallOf(s, m)) && Addressed(a, Read(s, m).target)
    case Finishing(m, _) => Read(s, m).call.Some? && CallOf(s, m) !in s.answers
    case Sent(m) => Read(s, m).call.Some? && (Read(s, m).chan.Some? ==> CallOf(s, m) in s.answers)
    case Cleared(m) => Read(s, m) == BLANK
  }

  predicate InMailOk(s: State, a: ActorId) {
    forall m | m in Mail(s, a) :: MailedOk(s, a, m)
  }

  predicate MailedOk(s: State, a: ActorId, m: Ref) {
    Read(s, m).call.Some? && Untouched(s, CallOf(s, m)) && Addressed(a, Read(s, m).target)
  }

  predicate CallOk(s: State, c: CallId) {
    if c !in s.callers then
      c !in s.given && c !in s.answers && c !in s.decided && Chan(s, c) == [] && s.ran[c] == s.released[c] == s.cancelled[c] == 0
    else
      var p := s.callers[c].phase;
      c in s.given && s.ran[c] <= 1
      && s.released[c] == (if Live(s, c) then 0 else 1)
      && s.cancelled[c] == (if s.callers[c].kind.notify then s.released[c] else 0)
      && (c in s.answers ==> Chan(s, c) == [] || Chan(s, c) == [s.answers[c]])
      && (c !in s.answers ==> Chan(s, c) == [])
      && (p.Waiting? && c in s.answers ==> Chan(s, c) == [s.answers[c]])
      && (p.Waiting? && !Live(s, c) ==> c in s.answers)
      && (p.Returned? && p.outcome.Got? ==> c in s.answers && s.answers[c] == p.outcome.v)
      && (p.Filling? || p.Looking? || p.Posting? || p.Dropping? ==> Live(s, c) && s.given[c] == p.m && Untouched(s, c))
      && (p.Posting? ==> Addressed(p.to, Some(s.callers[c].target)))
      && (p.Dropped? ==> s.given[c] == p.m && Read(s, p.m) == BLANK && Untouched(s, c))
      && (s.callers[c].kind.notify ==> !p.Waiting? && c !in s.answers)
  }

  ghost predicate Inv(s: State) {
    && (forall m: Ref :: PlaceOk(s, m) && ContentOk(s, m))
    && (forall a: ActorId :: MailOk(s, a) && ActorOk(s, a) && InMailOk(s, a))
    && (forall c: CallId :: CallOk(s, c))
  }

  lemma StepKeeps(s: State, x: Step)
    requires Inv(s) && Enabled(s, x)
    ensures Inv(Next(s, x))
  {
    var t := Next(s, x);
    forall m: Ref ensures PlaceOk(t, m) && ContentOk(t, m) {
      PlaceKeeps(s, x, m);
      ContentKeeps(s, x, m);
    }
    forall a: ActorId ensures MailOk(t, a) && ActorOk(t, a) && InMailOk(t, a) {
      MailKeeps(s, x, a);
      ActorKeeps(s, x, a);
      InMailKeeps(s, x, a);
    }
    forall c: CallId ensures CallOk(t, c) { CallKeeps(s, x, c); }
  }

  lemma PlaceKeeps(s: State, x: Step, m: Ref)
    requires Inv(s) && Enabled(s, x)
    ensures PlaceOk(Next(s, x), m)
  {
    assert PlaceOk(s, m);
    if Touched(s, x) == Some(m) { TouchedPlace(s, x); } else { MessageFrame(s, x, m); }
  }

  /** The call a step is about. */
  function Concerned(s: State, x: Step): Option<CallId>
    requires Enabled(s, x)
  {
    match x
    case Take(_) => None
    case Forward(_, _) => None
    case Put(_) => None
    case Evict(_) => None
    case Reject(a, _) => Read(s, Doing(s, a).m).call
    case Run(a, _) => Read(s, Doing(s, a).m).call
    case Send(a) => Read(s, Doing(s, a).m).call
    case Clear(a) => Read(s, Doing(s, a).m).call
    case _ => Some(x.c)
  }

  ghost predicate SameMessage(s: State, t: State, m: Ref) {
    Read(s, m) == Read(t, m) && (m in s.contents <==> m in t.contents)
    && (m in s.at <==> m in t.at) && (m in s.at ==> s.at[m] == t.at[m]) && s.pool[m] == t.pool[m]
    && forall p :: Owns(s, p, m) <==> Owns(t, p, m)
  }

  /** Everything in the message belongs to call c. */
  predicate OfCall(x: Content, c: CallId) {
    x.call == Some(c) && (x.chan.Some? ==> x.chan == Some(c)) && (x.cancel.Some? ==> x.cancel == Some(c))
  }

  predicate SameCall(s: State, t: State, c: CallId) {
    (c in s.callers <==> c in t.callers) && (c in s.callers ==> s.callers[c] == t.callers[c]) && SameHistory(s, t, c)
  }

  predicate SameHistory(s: State, t: State, c: CallId) {
    (c in s.given <==> c in t.given) && (c in s.given ==> s.given[c] == t.given[c])
    && (c in s.answers <==> c in t.answers) && (c in s.answers ==> s.answers[c] == t.answers[c])
    && (c in s.decided <==> c in t.decided) && (c in s.decided ==> s.decided[c] == t.decided[c])
    && Chan(s, c) == Chan(t, c) && s.ran[c] == t.ran[c] && s.released[c] == t.released[c] && s.cancelled[c] == t.cancelled[c]
  }

  lemma MessageFrame(s: State, x: Step, m: Ref)
    requires Enabled(s, x) && Touched(s, x) != Some(m)
    ensures SameMessage(s, Next(s, x), m)
  {
    var t := Next(s, x);
    forall p ensures Owns(s, p, m) <==> Owns(t, p, m) {
      match p
      case WithCaller(c) => CallerFrame(s, x, c, m);
      case InMail(a) => MailFrame(s, x, a, m);
      case WithActor(a) => ActorFrame(s, x, a, m);
      case Pooled => FieldFrame(s, x, m);
      case Gone =>
    }
    FieldFrame(s, x, m);
  }

  lemma FieldFrame(s: State, x: Step, m: Ref)
    requires Enabled(s, x) && Touched(s, x) != Some(m)
    ensures var t := Next(s, x);
      Read(s, m) == Read(t, m) && (m in s.contents <==> m in t.contents) && s.pool[m] == t.pool[m] &&
      (m in s.at <==> m in t.at) && (m in s.at ==> s.at[m] == t.at[m])
  {
    ReadFrame(s, x, m);
  }

  lemma ReadFrame(s: State, x: Step, m: Ref)
    requires Enabled(s, x) && Touched(s, x) != Some(m)
    ensures Read(s, m) == Read(Next(s, x), m) && (m in s.contents <==> m in Next(s, x).contents)
  {}

  lemma CallerFrame(s: State, x: Step, c: CallId, m: Ref)
    requires Enabled(s, x) && Touched(s, x) != Some(m)
    ensures CallerHolds(s, c, m) <==> CallerHolds(Next(s, x), c, m)
  {
    if ByCaller(x) && x.c == c { PhaseStep(s, x, m); } else { PhaseFrame(s, x, c); }
  }

  predicate ByCaller(x: Step) {
    x.Acquire? || x.Fit? || x.Find? || x.Miss? || x.Post? || x.DropClear? || x.DropPut? || x.Receive? || x.Expire?
  }

  /** A caller holds the message it has just touched, or none. */
  lemma PhaseStep(s: State, x: Step, m: Ref)
    requires Enabled(s, x) && ByCaller(x)
    ensures CallerHolds(s, x.c, m) <==> Touched(s, x) == Some(m) && !x.Acquire?
    ensures CallerHolds(Next(s, x), x.c, m) <==> Touched(s, x) == Some(m) && !x.Post? && !x.DropPut?
  {
    PhaseAfter(s, x);
  }

  lemma PhaseAfter(s: State, x: Step)
    requires Enabled(s, x) && ByCaller(x)
    ensures var p := PhaseOf(Next(s, x), x.c);
      if x.Receive? || x.Expire? || x.DropPut? then p.Returned?
      else if x.Post? then p.Waiting? || p.Returned?
      else !p.Waiting? && !p.Returned? && Touched(s, x) == Some(p.m)
  {}

  lemma PhaseFrame(s: State, x: Step, c: CallId)
    requires Enabled(s, x) && (ByCaller(x) ==> x.c != c)
    ensures var t := Next(s, x); (c in s.callers <==> c in t.callers) && (c in s.callers ==> s.callers[c] == t.callers[c])
  {}

  lemma ActorFrame(s: State, x: Step, a: ActorId, m: Ref)
    requires Enabled(s, x) && Touched(s, x) != Some(m)
    ensures ActorHolds(s, a, m) <==> ActorHolds(Next(s, x), a, m)
  {
    if ByActor(x) && x.a == a { DoingStep(s, x, m); } else { DoingSame(s, x, a); }
  }

  predicate ByActor(x: Step) {
    x.Take? || x.Forward? || x.Reject? || x.Run? || x.Send? || x.Clear? || x.Put?
  }

  /** An actor holds the message it has just touched, or none. */
  lemma DoingStep(s: State, x: Step, m: Ref)
    requires Enabled(s, x) && ByActor(x)
    ensures ActorHolds(s, x.a, m) <==> Touched(s, x) == Some(m) && !x.Take?
    ensures ActorHolds(Next(s, x), x.a, m) <==> Touched(s, x) == Some(m) && !x.Forward? && !x.Put?
  {}

  lemma DoingSame(s: State, x: Step, a: ActorId)
    requires Enabled(s, x) && (ByActor(x) ==> x.a != a)
    ensures Doing(Next(s, x), a) == Doing(s, a)
  {}

  lemma MailFrame(s: State, x: Step, a: ActorId, m: Ref)
    requires Enabled(s, x) && Touched(s, x) != Some(m)
    ensures m in Mail(s, a) <==> m in Mail(Next(s, x), a)
  {
    MailStep(s, x, a);
    if x.Take? && x.a == a { assert Mail(s, a) == [Mail(s, a)[0]] + Mail(Next(s, x), a); }
  }

  lemma MailStep(s: State, x: Step, a: ActorId)
    requires Enabled(s, x)
    ensures Mail(Next(s, x), a) ==
      if x.Take? && x.a == a then Mail(s, a)[1..]
      else if (x.Post? && s.callers[x.c].phase.to == a) || (x.Forward? && x.b == a) then Mail(s, a) + [Touched(s, x).value]
      else Mail(s, a)
  {
    if !x.Take? && !x.Post? && !x.Forward? { NoMail(s, x); }
  }

  lemma NoMail(s: State, x: Step)
    requires Enabled(s, x) && !x.Take? && !x.Post? && !x.Forward?
    ensures Next(s, x).mail == s.mail
  {}

  /** Where the step leaves the message it touches. */
  function Target(s: State, x: Step): Place
    requires Enabled(s, x)
  {
    match x
    case Acquire(c, _, _, _) => WithCaller(c)
    case Post(c) => InMail(s.callers[c].phase.to)
    case DropPut(_) => Pooled
    case Take(a) => WithActor(a)
    case Forward(_, b) => InMail(b)
    case Put(_) => Pooled
    case Evict(_) => Gone
    case _ => Actee(s, x)
  }

  lemma TouchedPlace(s: State, x: Step)
    requires Inv(s) && Enabled(s, x) && Touched(s, x).Some?
    ensures PlaceOk(Next(s, x), Touched(s, x).value)
  {
    var t, m := Next(s, x), Touched(s, x).value;
    TouchOwned(s, x);
    TouchedFields(s, x, m);
    assert Owns(s, Pooled, m) ==> s.at[m].Pooled?;
    TouchedPool(s, x, m);
    forall p ensures Owns(t, p, m) <==> Target(s, x) == p && p != Gone {
      assert Owns(s, p, m) ==> s.at[m] == p;
      match p
      case WithCaller(c) => TouchedCaller(s, x, c, m);
      case InMail(a) => assert MailOk(s, a); TouchedMail(s, x, a, m);
      case WithActor(a) => TouchedActor(s, x, a, m);
      case _ =>
    }
  }

  lemma TouchedFields(s: State, x: Step, m: Ref)
    requires Inv(s) && Enabled(s, x) && Touched(s, x) == Some(m)
    ensures var t := Next(s, x);
      m in t.contents && m in t.at && t.at[m] == Target(s, x) &&
      (Target(s, x).Pooled? || Target(s, x).Gone? ==> t.contents[m] == BLANK)
  {
    TouchOwned(s, x);
    if x.DropPut? { assert CallOk(s, x.c); }
    if x.Put? { assert ActorOk(s, x.a); }
    MovedTo(s, x, m);
    PutBlank(s, x, m);
  }

  lemma PutBlank(s: State, x: Step, m: Ref)
    requires Enabled(s, x) && Touched(s, x) == Some(m) && (m in s.contents <==> m in s.at) && (x.Acquire? || m in s.at)
    requires x.DropPut? || x.Put? || x.Evict? ==> Read(s, m) == BLANK
    ensures m in Next(s, x).contents && (Target(s, x).Pooled? || Target(s, x).Gone? ==> Next(s, x).contents[m] == BLANK)
  {}

  lemma MovedTo(s: State, x: Step, m: Ref)
    requires Enabled(s, x) && Touched(s, x) == Some(m) && (m in s.at ==> s.at[m] == Actee(s, x)) && (x.Acquire? || m in s.at)
    ensures m in Next(s, x).at && Next(s, x).at[m] == Target(s, x)
  {}

  lemma TouchedPool(s: State, x: Step, m: Ref)
    requires Enabled(s, x) && Touched(s, x) == Some(m) && s.pool[m] == if Actee(s, x).Pooled? && m in s.pool then 1 else 0
    ensures Next(s, x).pool[m] == if Target(s, x).Pooled? then 1 else 0
  {}

  lemma TouchedCaller(s: State, x: Step, c: CallId, m: Ref)
    requires Enabled(s, x) && Touched(s, x) == Some(m) && (CallerHolds(s, c, m) ==> Actee(s, x) == WithCaller(c))
    ensures CallerHolds(Next(s, x), c, m) <==> Target(s, x) == WithCaller(c)
  {
    if ByCaller(x) && x.c == c { PhaseStep(s, x, m); } else { PhaseFrame(s, x, c); }
  }

  lemma TouchedMail(s: State, x: Step, a: ActorId, m: Ref)
    requires Enabled(s, x) && Touched(s, x) == Some(m) && (m in Mail(s, a) ==> Actee(s, x) == InMail(a)) && MailOk(s, a)
    ensures m in Mail(Next(s, x), a) <==> Target(s, x) == InMail(a)
  {
    MailStep(s, x, a);
  }

  lemma TouchedActor(s: State, x: Step, a: ActorId, m: Ref)
    requires Enabled(s, x) && Touched(s, x) == Some(m) && (ActorHolds(s, a, m) ==> Actee(s, x) == WithActor(a))
    ensures ActorHolds(Next(s, x), a, m) <==> Target(s, x) == WithActor(a)
  {
    if ByActor(x) && x.a == a { DoingStep(s, x, m); } else { DoingSame(s, x, a); }
  }

  lemma CallFrame(s: State, x: Step, c: CallId)
    requires Inv(s) && Enabled(s, x) && Concerned(s, x) != Some(c)
    ensures SameCall(s, Next(s, x), c)
  {
    if ByCaller(x) { CallFrameCaller(s, x, c); } else { CallFrameActor(s, x, c); }
  }

  lemma CallFrameCaller(s: State, x: Step, c: CallId)
    requires Inv(s) && Enabled(s, x) && ByCaller(x) && x.c != c
    ensures SameCall(s, Next(s, x), c)
  {
    assert CallOk(s, x.c);
    if x.DropClear? { TouchOwned(s, x); }
    PhaseFrame(s, x, c);
    HistoryFrame(s, x, c);
  }

  lemma HistoryFrame(s: State, x: Step, c: CallId)
    requires Enabled(s, x) && ByCaller(x) && x.c != c
    requires x.DropClear? ==> OfCall(Read(s, s.callers[x.c].phase.m), x.c)
    ensures SameHistory(s, Next(s, x), c)
  {
    DecidedSame(s, x);
    if x.DropClear? { WipeFrame(s, s.callers[x.c].phase.m, x.c, c); }
  }

  lemma WipeFrame(s: State, m: Ref, d: CallId, c: CallId)
    requires OfCall(Read(s, m), d) && c != d
    ensures SameHistory(s, Wiped(s, m), c)
  {}

  lemma CallFrameActor(s: State, x: Step, c: CallId)
    requires Inv(s) && Enabled(s, x) && !ByCaller(x) && Concerned(s, x) != Some(c)
    ensures SameCall(s, Next(s, x), c)
  {
    if !x.Evict? {
      TouchOwned(s, x);
      assert ActorOk(s, x.a);
    }
    PhaseFrame(s, x, c);
    HistoryFrameActor(s, x, c);
  }

  lemma HistoryFrameActor(s: State, x: Step, c: CallId)
    requires Enabled(s, x) && !ByCaller(x) && Concerned(s, x) != Some(c)
    requires x.Run? || x.Reject? || x.Send? || x.Clear? ==>
      Concerned(s, x).Some? && OfCall(Read(s, Doing(s, x.a).m), Concerned(s, x).value)
    ensures SameHistory(s, Next(s, x), c)
  {
    CountFrame(s, x, c);
    AnswerFrame(s, x, c);
    VerdictFrame(s, x, c);
  }

  lemma VerdictFrame(s: State, x: Step, c: CallId)
    requires Enabled(s, x) && !ByCaller(x) && Concerned(s, x) != Some(c)
    requires x.Run? || x.Reject? ==> Concerned(s, x).Some?
    ensures var t := Next(s, x); (c in s.decided <==> c in t.decided) && (c in s.decided ==> s.decided[c] == t.decided[c])
  {}

  lemma CountFrame(s: State, x: Step, c: CallId)
    requires Enabled(s, x) && !ByCaller(x) && Concerned(s, x) != Some(c)
    requires x.Run? || x.Send? || x.Clear? ==> Concerned(s, x).Some? && OfCall(Read(s, Doing(s, x.a).m), Concerned(s, x).value)
    ensures var t := Next(s, x);
      s.ran[c] == t.ran[c] && s.released[c] == t.released[c] && s.cancelled[c] == t.cancelled[c] && s.given == t.given
  {}

  lemma AnswerFrame(s: State, x: Step, c: CallId)
    requires Enabled(s, x) && !ByCaller(x) && Concerned(s, x) != Some(c)
    requires x.Run? || x.Send? || x.Clear? ==> Concerned(s, x).Some? && OfCall(Read(s, Doing(s, x.a).m), Concerned(s, x).value)
    ensures var t := Next(s, x);
      Chan(s, c) == Chan(t, c) && (c in s.answers <==> c in t.answers) && (c in s.answers ==> s.answers[c] == t.answers[c])
  {}

  lemma ContentKeeps(s: State, x: Step, m: Ref)
    requires Inv(s) && Enabled(s, x)
    ensures ContentOk(Next(s, x), m)
  {
    assert ContentOk(s, m);
    if Touched(s, x) == Some(m) { TouchedContent(s, x); } else { OtherContent(s, x, m); }
  }

  lemma OtherContent(s: State, x: Step, m: Ref)
    requires Inv(s) && Enabled(s, x) && Touched(s, x) != Some(m)
    ensures ContentOk(Next(s, x), m)
  {
    assert ContentOk(s, m);
    FieldFrame(s, x, m);
    if Read(s, m).call.Some? {
      var c := Read(s, m).call.value;
      assert CallOk(s, c);
      CallerFrame(s, x, c, m);
      if Concerned(s, x) != Some(c) {
        CallFrame(s, x, c);
      } else if Touched(s, x).Some? {
        TouchOwned(s, x);
      }
    }
  }

  lemma TouchedContent(s: State, x: Step)
    requires Inv(s) && Enabled(s, x) && Touched(s, x).Some?
    ensures ContentOk(Next(s, x), Touched(s, x).value)
  {
    TouchOwned(s, x);
    var m := Touched(s, x).value;
    if Actee(s, x).WithCaller? { assert CallOk(s, x.c); }
    if ByCaller(x) {
      HeldContent(s, x, m);
    } else if !x.Evict? {
      if x.Take? { assert InMailOk(s, x.a) && MailedOk(s, x.a, m); } else { assert ActorOk(s, x.a); }
      if Read(s, m).call.Some? {
        var c := Read(s, m).call.value;
        assert !Owns(s, WithCaller(c), m);
      }
      PassedContent(s, x, m);
    }
  }

  lemma HeldContent(s: State, x: Step, m: Ref)
    requires Enabled(s, x) && ByCaller(x) && Touched(s, x) == Some(m) && ContentOk(s, m)
    requires x.Acquire? ==> Read(s, m) == BLANK
    requires !x.Acquire? ==> CallOk(s, x.c)
    ensures ContentOk(Next(s, x), m)
  {
    PhaseStep(s, x, m);
  }

  lemma PassedContent(s: State, x: Step, m: Ref)
    requires Enabled(s, x) && ByActor(x) && Touched(s, x) == Some(m) && ContentOk(s, m)
    requires Read(s, m).call.Some? ==> !CallerHolds(s, Read(s, m).call.value, m)
    ensures ContentOk(Next(s, x), m)
  {
    if Read(s, m).call.Some? { PhaseFrame(s, x, Read(s, m).call.value); }
  }

  lemma MailKeeps(s: State, x: Step, a: ActorId)
    requires Inv(s) && Enabled(s, x)
    ensures MailOk(Next(s, x), a)
  {
    assert MailOk(s, a);
    MailStep(s, x, a);
    if Touched(s, x).Some? {
      TouchOwned(s, x);
      assert Owns(s, InMail(a), Touched(s, x).value) ==> s.at[Touched(s, x).value] == InMail(a);
    }
  }

  lemma ActorKeeps(s: State, x: Step, a: ActorId)
    requires Inv(s) && Enabled(s, x)
    ensures ActorOk(Next(s, x), a)
  {
    if ByActor(x) && x.a == a {
      OwnActor(s, x);
    } else if Doing(s, a).Idle? {
      DoingSame(s, x, a);
    } else {
      NotTouched(s, x, a);
      OtherActor(s, x, a);
    }
  }

  /** Nobody else touches the message an actor holds. */
  lemma NotTouched(s: State, x: Step, a: ActorId)
    requires Inv(s) && Enabled(s, x) && !Doing(s, a).Idle? && !(ByActor(x) && x.a == a)
    ensures Touched(s, x) != Some(Doing(s, a).m)
  {
    var m := Doing(s, a).m;
    assert PlaceOk(s, m) && Owns(s, WithActor(a), m);
    if Touched(s, x).Some? { TouchOwned(s, x); }
  }

  lemma OtherActor(s: State, x: Step, a: ActorId)
    requires Inv(s) && Enabled(s, x) && !Doing(s, a).Idle? && Touched(s, x) != Some(Doing(s, a).m)
    ensures ActorOk(Next(s, x), a)
  {
    var m := Doing(s, a).m;
    assert ActorOk(s, a);
    ReadFrame(s, x, m);
    CallOfFrame(s, x, m);
    DoingFrame(s, x, a);
    if x.Receive? || x.Expire? { TakesFrame(s, x); }
    SameActor(s, Next(s, x), a);
  }

  lemma SameActor(s: State, t: State, a: ActorId)
    requires ActorOk(s, a) && Doing(s, a) == Doing(t, a)
    requires !Doing(s, a).Idle? ==> Read(s, Doing(s, a).m) == Read(t, Doing(s, a).m)
    requires !Doing(s, a).Idle? && Read(s, Doing(s, a).m).call.Some? ==>
      SameProgress(s, t, Read(s, Doing(s, a).m).call.value)
    ensures ActorOk(t, a)
  {}

  predicate SameProgress(s: State, t: State, c: CallId) {
    s.ran[c] == t.ran[c] && (c in s.answers <==> c in t.answers) && (c in s.decided <==> c in t.decided)
  }

  lemma TakesFrame(s: State, x: Step)
    requires Enabled(s, x) && (x.Receive? || x.Expire?)
    ensures Next(s, x).ran == s.ran && Next(s, x).answers == s.answers && Next(s, x).decided == s.decided
  {}

  lemma DoingFrame(s: State, x: Step, a: ActorId)
    requires Enabled(s, x) && !Doing(s, a).Idle? && Touched(s, x) != Some(Doing(s, a).m)
    ensures Doing(Next(s, x), a) == Doing(s, a)
  {
    if ByActor(x) && x.a == a { DoingStep(s, x, Doing(s, a).m); } else { DoingSame(s, x, a); }
  }

  /** A step that does not touch the message of a call is about another call, or takes its result. */
  lemma CallOfFrame(s: State, x: Step, m: Ref)
    requires Inv(s) && Enabled(s, x) && Touched(s, x) != Some(m)
    ensures Read(s, m).call.Some? ==> var c := Read(s, m).call.value;
      SameCall(s, Next(s, x), c) || x.Receive? || x.Expire?
  {
    if Read(s, m).call.Some? {
      var c := Read(s, m).call.value;
      assert ContentOk(s, m);
      if Concerned(s, x) != Some(c) {
        CallFrame(s, x, c);
      } else if Touched(s, x).Some? {
        TouchOwned(s, x);
        assert CallOk(s, c);
      }
    }
  }

  lemma OwnActor(s: State, x: Step)
    requires Inv(s) && Enabled(s, x) && ByActor(x)
    ensures ActorOk(Next(s, x), x.a)
  {
    TouchOwned(s, x);
    if x.Take? { TakeActor(s, x); } else { assert ActorOk(s, x.a); }
  }

  lemma TakeActor(s: State, x: Step)
    requires x.Take? && Enabled(s, x) && InMailOk(s, x.a)
    ensures ActorOk(Next(s, x), x.a)
  {
    assert Mail(s, x.a)[0] in Mail(s, x.a) && MailedOk(s, x.a, Mail(s, x.a)[0]);
  }

  lemma InMailKeeps(s: State, x: Step, a: ActorId)
    requires Inv(s) && Enabled(s, x)
    ensures InMailOk(Next(s, x), a)
  {
    var t := Next(s, x);
    forall m | m in Mail(t, a) ensures MailedOk(t, a, m) {
      if Touched(s, x) == Some(m) {
        TouchOwned(s, x);
        assert MailOk(s, a);
        assert Owns(s, InMail(a), m) ==> Actee(s, x) == InMail(a);
        TouchedMail(s, x, a, m);
        PushedContent(s, x, a, m);
      } else {
        MailFrame(s, x, a, m);
        assert InMailOk(s, a) && MailedOk(s, a, m);
        OtherMailed(s, x, a, m);
      }
    }
  }

  lemma OtherMailed(s: State, x: Step, a: ActorId, m: Ref)
    requires Inv(s) && Enabled(s, x) && Touched(s, x) != Some(m) && MailedOk(s, a, m)
    ensures MailedOk(Next(s, x), a, m)
  {
    ReadFrame(s, x, m);
    CallOfFrame(s, x, m);
    if x.Receive? || x.Expire? { TakesFrame(s, x); }
  }

  lemma PushedContent(s: State, x: Step, a: ActorId, m: Ref)
    requires Inv(s) && Enabled(s, x) && Touched(s, x) == Some(m) && Target(s, x) == InMail(a)
    ensures MailedOk(Next(s, x), a, m)
  {
    TouchOwned(s, x);
    if x.Post? { assert CallOk(s, x.c); } else { assert ActorOk(s, x.a); }
  }

  lemma CallKeeps(s: State, x: Step, c: CallId)
    requires Inv(s) && Enabled(s, x)
    ensures CallOk(Next(s, x), c)
  {
    if Concerned(s, x) == Some(c) {
      if Touched(s, x).None? { TakesResult(s, x); }
      else if Actee(s, x).WithActor? { ActorStep(s, x); }
      else { CallerStep(s, x); }
    } else {
      OtherCall(s, x, c);
    }
  }

  lemma OtherCall(s: State, x: Step, c: CallId)
    requires Inv(s) && Enabled(s, x) && Concerned(s, x) != Some(c)
    ensures CallOk(Next(s, x), c)
  {
    CallFrame(s, x, c);
    LiveFrame(s, x, c);
    assert CallOk(s, c);
    SameCallOk(s, Next(s, x), c);
  }

  lemma LiveFrame(s: State, x: Step, c: CallId)
    requires Inv(s) && Enabled(s, x) && Concerned(s, x) != Some(c) && SameCall(s, Next(s, x), c)
    ensures Live(s, c) <==> Live(Next(s, x), c)
    ensures c in s.given && CallerHolds(s, c, s.given[c]) ==> Read(s, s.given[c]) == Read(Next(s, x), s.given[c])
  {
    if c in s.given {
      if Touched(s, x) != Some(s.given[c]) { ReadFrame(s, x, s.given[c]); } else { OtherLive(s, x, c); }
    }
  }

  lemma SameCallOk(s: State, t: State, c: CallId)
    requires CallOk(s, c) && SameCall(s, t, c) && (Live(s, c) <==> Live(t, c))
    requires c in s.given && CallerHolds(s, c, s.given[c]) ==> Read(s, s.given[c]) == Read(t, s.given[c])
    ensures CallOk(t, c)
  {}

  lemma OtherLive(s: State, x: Step, c: CallId)
    requires Inv(s) && Enabled(s, x) && Concerned(s, x) != Some(c) && c in s.given && Touched(s, x) == Some(s.given[c])
    ensures (Live(s, c) <==> Live(Next(s, x), c)) && !CallerHolds(s, c, s.given[c])
  {
    var m := s.given[c];
    TouchOwned(s, x);
    assert Actee(s, x) != WithCaller(c);
    assert !Owns(s, WithCaller(c), m);
    if Actee(s, x).WithCaller? { assert CallOk(s, x.c); }
    if Actee(s, x).WithActor? { assert ActorOk(s, x.a); }
    CallWritten(s, x, m);
  }

  /** A step writes its own call into the message it touches, or clears the field, or leaves it. */
  lemma CallWritten(s: State, x: Step, m: Ref)
    requires Enabled(s, x) && Touched(s, x) == Some(m)
    ensures Read(Next(s, x), m).call ==
      if x.Acquire? then Some(x.c) else if x.DropClear? || x.Clear? then None else Read(s, m).call
    ensures !x.Acquire? ==> Next(s, x).given == s.given
  {}

  lemma TakesResult(s: State, x: Step)
    requires Inv(s) && Enabled(s, x) && Touched(s, x).None?
    ensures CallOk(Next(s, x), x.c)
  {
    assert CallOk(s, x.c);
  }

  lemma ActorStep(s: State, x: Step)
    requires Inv(s) && Enabled(s, x) && Concerned(s, x).Some? && Touched(s, x).Some? && Actee(s, x).WithActor?
    ensures CallOk(Next(s, x), Concerned(s, x).value)
  {
    var c := Concerned(s, x).value;
    TouchOwned(s, x);
    assert CallOk(s, c) && ActorOk(s, x.a);
    assert !Owns(s, WithCaller(c), s.given[c]);
    FinishStep(s, x, c);
  }

  lemma FinishStep(s: State, x: Step, c: CallId)
    requires x.Reject? || x.Run? || x.Send? || x.Clear?
    requires Enabled(s, x) && CallOk(s, c) && ActorOk(s, x.a) && ContentOk(s, Doing(s, x.a).m)
    requires Read(s, Doing(s, x.a).m).call == Some(c) && !CallerHolds(s, c, Doing(s, x.a).m)
    ensures CallOk(Next(s, x), c)
  {
    if x.Send? { SendStep(s, x, c); } else if x.Clear? { ClearStep(s, x, c); }
  }

  lemma SendStep(s: State, x: Step, c: CallId)
    requires x.Send?
    requires Enabled(s, x) && CallOk(s, c) && ActorOk(s, x.a) && ContentOk(s, Doing(s, x.a).m)
    requires Read(s, Doing(s, x.a).m).call == Some(c) && !CallerHolds(s, c, Doing(s, x.a).m)
    ensures CallOk(Next(s, x), c)
  {}

  lemma ClearStep(s: State, x: Step, c: CallId)
    requires x.Clear?
    requires Enabled(s, x) && CallOk(s, c) && ActorOk(s, x.a) && ContentOk(s, Doing(s, x.a).m)
    requires Read(s, Doing(s, x.a).m).call == Some(c) && !CallerHolds(s, c, Doing(s, x.a).m)
    ensures CallOk(Next(s, x), c)
  {}

  lemma CallerStep(s: State, x: Step)
    requires Inv(s) && Enabled(s, x) && Concerned(s, x).Some? && Touched(s, x).Some? && !Actee(s, x).WithActor?
    ensures CallOk(Next(s, x), Concerned(s, x).value)
  {
    TouchOwned(s, x);
    assert CallOk(s, x.c);
    match x {
      case DropClear(_) => DropStep(s, x);
      case Acquire(_, _, _, _) => AcquireStep(s, x);
      case _ => HoldStep(s, x);
    }
  }

  lemma HoldStep(s: State, x: Step)
    requires x.Fit? || x.Find? || x.Miss? || x.Post? || x.DropPut?
    requires Enabled(s, x) && CallOk(s, x.c) && ContentOk(s, s.callers[x.c].phase.m)
    ensures CallOk(Next(s, x), x.c)
  {}

  lemma AcquireStep(s: State, x: Step)
    requires x.Acquire? && Enabled(s, x) && CallOk(s, x.c)
    ensures CallOk(Next(s, x), x.c)
  {}

  lemma DropStep(s: State, x: Step)
    requires x.DropClear? && Enabled(s, x) && CallOk(s, x.c) && ContentOk(s, s.callers[x.c].phase.m)
    ensures CallOk(Next(s, x), x.c)
  {}

  // ----- what became of a call

  /** The result an actor is about to send is the one decided for the message. */
  predicate ActorEvents(s: State, a: ActorId) {
    var d := Doing(s, a);
    d.Finishing? ==> CallOf(s, d.m) in s.decided && s.decided[CallOf(s, d.m)].v == d.v
  }

  predicate CallEvents(s: State, c: CallId) {
    && (c in s.answers ==> c in s.decided && s.answers[c] == s.decided[c].v)
    && s.ran[c] == (if c in s.decided && s.decided[c].Handled? then 1 else 0)
    && (c in s.decided ==> c in s.posted)
    && (if c !in s.callers then c !in s.decided && c !in s.posted && c !in s.missed && c !in s.gaveUp
        else PhaseEvents(s, c, s.callers[c].phase))
  }

  predicate PhaseEvents(s: State, c: CallId, p: Phase)
    requires c in s.callers
  {
    match p
    case Waiting => c in s.posted && c !in s.missed && c !in s.gaveUp
    case Returned(Accepted) => s.callers[c].kind.notify && c in s.posted && c !in s.missed && c !in s.gaveUp
    case Returned(NotFound) => c in s.missed && c !in s.posted && c !in s.gaveUp && !Live(s, c)
    case Returned(Got(_)) => c in s.posted && c !in s.missed && c !in s.gaveUp
    case Returned(Expired) => c in s.gaveUp && c in s.posted && c !in s.missed && !s.callers[c].kind.notify
    case Dropping(_) => c in s.missed && c !in s.posted && c !in s.gaveUp
    case Dropped(_) => c in s.missed && c !in s.posted && c !in s.gaveUp
    case _ => c !in s.posted && c !in s.missed && c !in s.gaveUp
  }

  ghost predicate EventsOk(s: State) {
    (forall a: ActorId :: ActorEvents(s, a)) && forall c: CallId :: CallEvents(s, c)
  }

  predicate SameEvents(s: State, t: State, c: CallId) {
    (c in s.posted <==> c in t.posted) && (c in s.missed <==> c in t.missed) && (c in s.gaveUp <==> c in t.gaveUp)
  }

  lemma EventsFrame(s: State, x: Step, c: CallId)
    requires Enabled(s, x) && Concerned(s, x) != Some(c)
    ensures SameEvents(s, Next(s, x), c)
  {
    if ByCaller(x) { CallerMarks(s, x, c); } else { ActorMarks(s, x); }
  }

  lemma CallerMarks(s: State, x: Step, c: CallId)
    requires Enabled(s, x) && ByCaller(x) && x.c != c
    ensures SameEvents(s, Next(s, x), c)
  {}

  lemma ActorMarks(s: State, x: Step)
    requires Enabled(s, x) && !ByCaller(x)
    ensures var t := Next(s, x); t.posted == s.posted && t.missed == s.missed && t.gaveUp == s.gaveUp
  {}

  lemma DecidedSame(s: State, x: Step)
    requires Enabled(s, x) && !x.Run? && !x.Reject?
    ensures Next(s, x).decided == s.decided
  {}

  lemma EventsKeep(s: State, x: Step)
    requires Inv(s) && EventsOk(s) && Enabled(s, x)
    ensures EventsOk(Next(s, x))
  {
    forall a: ActorId ensures ActorEvents(Next(s, x), a) { ActorEventsKeep(s, x, a); }
    forall c: CallId ensures CallEvents(Next(s, x), c) { CallEventsKeep(s, x, c); }
  }

  lemma ActorEventsKeep(s: State, x: Step, a: ActorId)
    requires Inv(s) && EventsOk(s) && Enabled(s, x)
    ensures ActorEvents(Next(s, x), a)
  {
    assert ActorEvents(s, a) && ActorOk(s, a);
    if ByActor(x) && x.a == a {
      OwnEvents(s, x);
    } else if Doing(s, a).Idle? {
      DoingSame(s, x, a);
    } else {
      var m := Doing(s, a).m;
      NotTouched(s, x, a);
      ReadFrame(s, x, m);
      DoingFrame(s, x, a);
      if Doing(s, a).Finishing? { OtherVerdict(s, x, m); }
    }
  }

  /** A step that does not touch a message leaves what was decided for its call. */
  lemma OtherVerdict(s: State, x: Step, m: Ref)
    requires Inv(s) && Enabled(s, x) && Touched(s, x) != Some(m) && Read(s, m).call.Some?
    ensures var t, c := Next(s, x), CallOf(s, m); (c in s.decided <==> c in t.decided) && (c in s.decided ==> s.decided[c] == t.decided[c])
  {
    if x.Run? || x.Reject? {
      assert ActorOk(s, x.a) && ContentOk(s, m) && ContentOk(s, Doing(s, x.a).m);
      VerdictFrame(s, x, CallOf(s, m));
    } else {
      DecidedSame(s, x);
    }
  }

  lemma OwnEvents(s: State, x: Step)
    requires ByActor(x) && Enabled(s, x)
    ensures ActorEvents(Next(s, x), x.a)
  {}

  lemma CallEventsKeep(s: State, x: Step, c: CallId)
    requires Inv(s) && EventsOk(s) && Enabled(s, x)
    ensures CallEvents(Next(s, x), c)
  {
    assert CallEvents(s, c) && CallOk(s, c);
    if Concerned(s, x) != Some(c) {
      CallFrame(s, x, c);
      LiveFrame(s, x, c);
      EventsFrame(s, x, c);
      SameCallEvents(s, Next(s, x), c);
    } else if ByActor(x) {
      ActorDecides(s, x, c);
    } else {
      CallerEvents(s, x, c);
    }
  }

  lemma SameCallEvents(s: State, t: State, c: CallId)
    requires CallEvents(s, c) && SameCall(s, t, c) && SameEvents(s, t, c) && (Live(s, c) <==> Live(t, c))
    ensures CallEvents(t, c)
  {}

  lemma CallerEvents(s: State, x: Step, c: CallId)
    requires Enabled(s, x) && ByCaller(x) && x.c == c && CallEvents(s, c) && CallOk(s, c)
    ensures CallEvents(Next(s, x), c)
  {
    DecidedSame(s, x);
    if x.Receive? || x.Expire? || x.DropPut? || x.Post? { EndingEvents(s, x); } else { FillingEvents(s, x); }
  }

  lemma EndingEvents(s: State, x: Step)
    requires Enabled(s, x) && (x.Receive? || x.Expire? || x.DropPut? || x.Post?) && CallEvents(s, x.c) && CallOk(s, x.c)
    ensures CallEvents(Next(s, x), x.c)
  {}

  lemma FillingEvents(s: State, x: Step)
    requires Enabled(s, x) && ByCaller(x) && !x.Receive? && !x.Expire? && !x.DropPut? && !x.Post? && CallEvents(s, x.c) && CallOk(s, x.c)
    ensures CallEvents(Next(s, x), x.c)
  {}

  /** The call of the message that an actor holds was posted, and its caller waits or has gone on. */
  lemma ActorDecides(s: State, x: Step, c: CallId)
    requires Inv(s) && EventsOk(s) && Enabled(s, x) && ByActor(x) && Concerned(s, x) == Some(c)
    ensures CallEvents(Next(s, x), c)
  {
    var m := Doing(s, x.a).m;
    TouchOwned(s, x);
    assert CallEvents(s, c) && CallOk(s, c) && ActorOk(s, x.a) && ActorEvents(s, x.a);
    assert !Owns(s, WithCaller(c), m);
    DecidedEvents(s, x, c);
  }

  lemma DecidedEvents(s: State, x: Step, c: CallId)
    requires x.Run? || x.Reject? || x.Send? || x.Clear?
    requires Enabled(s, x) && CallEvents(s, c) && CallOk(s, c) && ActorOk(s, x.a) && ActorEvents(s, x.a)
    requires ContentOk(s, Doing(s, x.a).m) && Read(s, Doing(s, x.a).m).call == Some(c) && !CallerHolds(s, c, Doing(s, x.a).m)
    ensures CallEvents(Next(s, x), c)
  {
    if x.Send? { SentEvents(s, x, c); } else if x.Clear? { ClearedEvents(s, x, c); } else { VerdictEvents(s, x, c); }
  }

  lemma VerdictEvents(s: State, x: Step, c: CallId)
    requires x.Run? || x.Reject?
    requires Enabled(s, x) && CallEvents(s, c) && CallOk(s, c) && ActorOk(s, x.a) && ActorEvents(s, x.a)
    requires ContentOk(s, Doing(s, x.a).m) && Read(s, Doing(s, x.a).m).call == Some(c) && !CallerHolds(s, c, Doing(s, x.a).m)
    ensures CallEvents(Next(s, x), c)
  {}

  lemma SentEvents(s: State, x: Step, c: CallId)
    requires x.Send?
    requires Enabled(s, x) && CallEvents(s, c) && CallOk(s, c) && ActorOk(s, x.a) && ActorEvents(s, x.a)
    requires ContentOk(s, Doing(s, x.a).m) && Read(s, Doing(s, x.a).m).call == Some(c) && !CallerHolds(s, c, Doing(s, x.a).m)
    ensures CallEvents(Next(s, x), c)
  {}

  lemma ClearedEvents(s: State, x: Step, c: CallId)
    requires x.Clear?
    requires Enabled(s, x) && CallEvents(s, c) && CallOk(s, c) && ActorOk(s, x.a) && ActorEvents(s, x.a)
    requires ContentOk(s, Doing(s, x.a).m) && Read(s, Doing(s, x.a).m).call == Some(c) && !CallerHolds(s, c, Doing(s, x.a).m)
    ensures CallEvents(Next(s, x), c)
  {}

  // ----- whole runs

  predicate StepTo(s: State, x: Step, t: State) {
    Enabled(s, x) && Next(s, x) == t
  }

  ghost predicate Runs(s: State, steps: seq<Step>, t: State) {
    Leads(StepTo, s, steps, t)
  }

  lemma RunsKeep(s: State, steps: seq<Step>, t: State)
    requires Inv(s) && Runs(s, steps, t)
    ensures Inv(t)
  {
    forall u, x, v | Inv(u) && StepTo(u, x, v) ensures Inv(v) { StepKeeps(u, x); }
    Keeps(StepTo, Inv, s, steps, t);
  }

  ghost predicate Reachable(s: State) {
    exists steps :: Runs(INIT, steps, s)
  }

  lemma InitialInv()
    ensures Inv(INIT)
  {}

  lemma ReachableInv(s: State)
    requires Reachable(s)
    ensures Inv(s)
  {
    var steps :| Runs(INIT, steps, s);
    InitialInv();
    RunsKeep(INIT, steps, s);
  }

  lemma ReachedOneMore(s: State, x: Step)
    requires Reachable(s) && Enabled(s, x)
    ensures Reachable(Next(s, x))
  {
    var steps :| Runs(INIT, steps, s);
    Snoc(StepTo, INIT, steps, s, x, Next(s, x));
    assert Runs(INIT, steps + [x], Next(s, x));
  }

  /** A message object is with one party at a time: a caller, one slot of one mailbox, an actor, or
      the pool, where it is blank and occurs once. */
  lemma OneOwner(s: State, m: Ref)
    requires Reachable(s)
    ensures forall p, q | Owns(s, p, m) && Owns(s, q, m) :: p == q
    ensures m in s.pool ==> s.pool[m] == 1 && Read(s, m) == BLANK
  {
    ReachableInv(s);
    assert PlaceOk(s, m);
    assert m in s.pool ==> Owns(s, Pooled, m);
  }

  lemma OneSlot(s: State, a: ActorId)
    requires Reachable(s)
    ensures forall i, j | 0 <= i < j < |Mail(s, a)| :: Mail(s, a)[i] != Mail(s, a)[j]
  {
    ReachableInv(s);
    assert MailOk(s, a);
  }

  /** Only its owner touches a message: never the pool's, never one that somebody else holds. */
  lemma TouchedByOwner(s: State, x: Step)
    requires Reachable(s)
    ensures Enabled(s, x) && Touched(s, x).Some? ==> forall p | Owns(s, p, Touched(s, x).value) ::
      p == Actee(s, x) && (p.Pooled? ==> x.Acquire? || x.Evict?)
  {
    ReachableInv(s);
    if Enabled(s, x) && Touched(s, x).Some? { TouchOwned(s, x); }
  }

  /** An actor that finishes a message finds room in the result channel, also when the caller has
      given up: it never blocks there. The channel is the one that the object points to. */
  lemma SendNeverBlocks(s: State, a: ActorId)
    requires Reachable(s) && Doing(s, a).Finishing?
    ensures Enabled(s, Send(a))
  {
    ReachableInv(s);
    var m := Doing(s, a).m;
    assert ActorOk(s, a) && ContentOk(s, m) && CallOk(s, CallOf(s, m));
  }

  /** For every call: its handler runs at most once, its message is released at most once, and the
      context of a notification is cancelled exactly when its message is released. */
  lemma AtMostOnce(s: State, c: CallId)
    requires Reachable(s)
    ensures s.ran[c] <= 1 && s.released[c] <= 1 && |Chan(s, c)| <= 1
    ensures c in s.callers ==> s.cancelled[c] == if s.callers[c].kind.notify then s.released[c] else 0
  {
    ReachableInv(s);
    assert CallOk(s, c);
  }

  /** The result a caller gets is the one that was sent for its own call. */
  lemma OwnAnswer(s: State, c: CallId, v: Value)
    requires Reachable(s) && PhaseOf(s, c) == Returned(Got(v))
    ensures c in s.answers && s.answers[c] == v
  {
    ReachableInv(s);
    assert CallOk(s, c);
  }

  lemma ReachableEvents(s: State)
    requires Reachable(s)
    ensures Inv(s) && EventsOk(s)
  {
    var steps :| Runs(INIT, steps, s);
    InitialInv();
    var inv := (u: State) => Inv(u) && EventsOk(u);
    forall u, x, v | inv(u) && StepTo(u, x, v) ensures inv(v) {
      StepKeeps(u, x);
      EventsKeep(u, x);
    }
    Keeps(StepTo, inv, INIT, steps, s);
  }

  /** What a call returns and why: the value decided for its message, which the handler returned if it ran;
      NotFound exactly if no actor was found, and then nothing was posted or decided; Expired exactly if the
      caller gave up on a posted request; Accepted for a posted notification. */
  lemma OutcomeOfCall(s: State, c: CallId)
    requires Reachable(s) && c in s.callers && s.callers[c].phase.Returned?
    ensures var notify := s.callers[c].kind.notify;
      match s.callers[c].phase.outcome
      case Got(v) => !notify && c in s.posted && c in s.decided && s.decided[c] == if s.ran[c] == 1 then Handled(v) else Refused(v)
      case NotFound => c in s.missed && c !in s.posted && c !in s.decided && s.ran[c] == 0
      case Expired => !notify && c in s.gaveUp && c in s.posted
      case Accepted => notify && c in s.posted
    ensures var o := s.callers[c].phase.outcome;
      (o.NotFound? <==> c in s.missed) && (o.Expired? <==> c in s.gaveUp) && (o.Accepted? <==> s.callers[c].kind.notify && c in s.posted)
  {
    ReachableEvents(s);
    assert CallOk(s, c) && CallEvents(s, c);
  }

  /** What is decided for a call stays so. */
  lemma DecidedStays(s: State, x: Step, c: CallId)
    requires Inv(s) && Enabled(s, x) && c in s.decided
    ensures c in Next(s, x).decided && Next(s, x).decided[c] == s.decided[c]
  {
    if x.Run? || x.Reject? {
      assert ActorOk(s, x.a);
      VerdictFrame(s, x, c);
    } else {
      DecidedSame(s, x);
    }
  }

  /** The value that a handler returns, or that an actor answers in its stead, is the one that the caller gets,
      if it gets any. */
  lemma CallerGets(s: State, x: Step, steps: seq<Step>, t: State)
    requires Reachable(s) && Enabled(s, x) && (x.Run? || x.Reject?) && Runs(Next(s, x), steps, t)
    ensures var c := CallOf(s, Doing(s, x.a).m);
      && c in t.decided && t.decided[c] == (if x.Run? then Handled(x.v) else Refused(x.v))
      && (PhaseOf(t, c).Returned? && PhaseOf(t, c).outcome.Got? ==> PhaseOf(t, c).outcome.v == x.v)
  {
    var c, verdict := CallOf(s, Doing(s, x.a).m), if x.Run? then Handled(x.v) else Refused(x.v);
    ReachedOneMore(s, x);
    ReachableInv(Next(s, x));
    var inv := (u: State) => Inv(u) && Reachable(u) && c in u.decided && u.decided[c] == verdict;
    forall u, y, v | inv(u) && StepTo(u, y, v) ensures inv(v) {
      StepKeeps(u, y);
      ReachedOneMore(u, y);
      DecidedStays(u, y, c);
    }
    Keeps(StepTo, inv, Next(s, x), steps, t);
    if PhaseOf(t, c).Returned? && PhaseOf(t, c).outcome.Got? { OutcomeOfCall(t, c); }
  }

  // ----- a call that nobody interrupts

  /** The steps lead from start to s, and on to the state after x. */
  ghost predicate Comes(start: State, steps: seq<Step>, s: State) {
    Reachable(s) && Runs(start, steps, s)
  }

  lemma More(start: State, steps: seq<Step>, s: State, x: Step)
    requires Comes(start, steps, s) && Enabled(s, x)
    ensures Comes(start, steps + [x], Next(s, x))
  {
    ReachedOneMore(s, x);
    Snoc(StepTo, start, steps, s, x, Next(s, x));
  }

  lemma FourSteps(start: State, x: Step, y: Step, z: Step, u: Step, t: State)
    ensures Comes(start, [] + [x] + [y] + [z] + [u], t) ==> Comes(start, [x, y, z, u], t)
  {
    assert [] + [x] + [y] + [z] + [u] == [x, y, z, u];
  }

  lemma FiveSteps(start: State, x: Step, y: Step, z: Step, u: Step, v: Step, t: State)
    ensures Comes(start, [] + [x] + [y] + [z] + [u] + [v], t) ==> Comes(start, [x, y, z, u, v], t)
  {
    assert [] + [x] + [y] + [z] + [u] + [v] == [x, y, z, u, v];
  }

  /** What a call needs on its way to an actor's mailbox. */
  predicate OnItsWay(s: State, t: State, c: CallId, kind: Kind, m: Ref, a: ActorId, phase: Phase) {
    && t.mail == s.mail && t.actors == s.actors && c in t.callers && t.callers[c] == Caller(kind, a, phase)
    && Read(t, m).call == Some(c) && Read(t, m).Route() == Some(a)
  }

  lemma Acquiring(s: State, c: CallId, m: Ref, kind: Kind, a: ActorId) returns (t: State)
    requires Reachable(s) && Enabled(s, Acquire(c, m, kind, a))
    ensures Comes(s, [] + [Acquire(c, m, kind, a)], t) && OnItsWay(s, t, c, kind, m, a, Filling(m))
  {
    ReachableInv(s);
    assert PlaceOk(s, m) && ContentOk(s, m);
    assert m in s.pool ==> Owns(s, Pooled, m);
    assert Runs(s, [], s);
    More(s, [], s, Acquire(c, m, kind, a));
    t := Next(s, Acquire(c, m, kind, a));
  }

  lemma Fitting(s: State, steps: seq<Step>, u: State, c: CallId, m: Ref, kind: Kind, a: ActorId) returns (t: State)
    requires Comes(s, steps, u) && OnItsWay(s, u, c, kind, m, a, Filling(m))
    ensures Comes(s, steps + [Fit(c)], t) && OnItsWay(s, t, c, kind, m, a, Looking(m))
  {
    More(s, steps, u, Fit(c));
    t := Next(u, Fit(c));
  }

  lemma Finding(s: State, steps: seq<Step>, u: State, c: CallId, m: Ref, kind: Kind, a: ActorId) returns (t: State)
    requires Comes(s, steps, u) && OnItsWay(s, u, c, kind, m, a, Looking(m)) && (kind.direct <==> a.child.Some?)
    ensures Comes(s, steps + [Find(c, a)], t) && OnItsWay(s, t, c, kind, m, a, Posting(m, a))
  {
    More(s, steps, u, Find(c, a));
    t := Next(u, Find(c, a));
  }

  /** The call's message is the last one in the mailbox. */
  predicate Mailed(s: State, t: State, c: CallId, kind: Kind, m: Ref, a: ActorId) {
    && Mail(t, a) == Mail(s, a) + [m] && Doing(t, a) == Doing(s, a)
    && Read(t, m).call == Some(c) && Read(t, m).Route() == Some(a)
    && PhaseOf(t, c) == if kind.notify then Returned(Accepted) else Waiting
  }

  lemma PostingTo(s: State, steps: seq<Step>, u: State, c: CallId, m: Ref, kind: Kind, a: ActorId) returns (t: State)
    requires Comes(s, steps, u) && OnItsWay(s, u, c, kind, m, a, Posting(m, a))
    ensures Comes(s, steps + [Post(c)], t) && Mailed(s, t, c, kind, m, a)
  {
    More(s, steps, u, Post(c));
    t := Next(u, Post(c));
  }

  /** A call to an actor, a top actor by the system or a child by its parent, can be posted: its message is then
      the last in the mailbox of that very actor. */
  lemma Asks(s: State, c: CallId, m: Ref, kind: Kind, a: ActorId) returns (t: State)
    requires Reachable(s) && Enabled(s, Acquire(c, m, kind, a)) && (kind.direct <==> a.child.Some?)
    ensures Comes(s, [Acquire(c, m, kind, a), Fit(c), Find(c, a), Post(c)], t) && Mailed(s, t, c, kind, m, a)
  {
    t := Acquiring(s, c, m, kind, a);
    t := Fitting(s, [] + [Acquire(c, m, kind, a)], t, c, m, kind, a);
    t := Finding(s, [] + [Acquire(c, m, kind, a)] + [Fit(c)], t, c, m, kind, a);
    t := PostingTo(s, [] + [Acquire(c, m, kind, a)] + [Fit(c)] + [Find(c, a)], t, c, m, kind, a);
    FourSteps(s, Acquire(c, m, kind, a), Fit(c), Find(c, a), Post(c), t);
  }

  /** The actor has taken its oldest message, which is for itself, and is about to do d with it. */
  predicate AtWork(s: State, t: State, a: ActorId, d: Actor) {
    && Mail(s, a) != [] && Mail(t, a) == Mail(s, a)[1..] && Doing(t, a) == d
    && t.callers == s.callers && Read(t, Mail(s, a)[0]) == Read(s, Mail(s, a)[0])
  }

  lemma Taking(s: State, a: ActorId) returns (t: State)
    requires Reachable(s) && Enabled(s, Take(a))
    ensures Comes(s, [] + [Take(a)], t) && AtWork(s, t, a, Holding(Mail(s, a)[0]))
  {
    assert Runs(s, [], s);
    More(s, [], s, Take(a));
    t := Next(s, Take(a));
  }

  lemma Handling(s: State, steps: seq<Step>, u: State, a: ActorId, v: Value) returns (t: State)
    requires Comes(s, steps, u) && Enabled(s, Take(a)) && AtWork(s, u, a, Holding(Mail(s, a)[0]))
    requires Read(s, Mail(s, a)[0]).Route() == Some(a)
    ensures Comes(s, steps + [Run(a, v)], t) && AtWork(s, t, a, Finishing(Mail(s, a)[0], v)) && t.ran[CallOf(s, Mail(s, a)[0])] == 1
  {
    ReachableInv(u);
    assert ActorOk(u, a);
    More(s, steps, u, Run(a, v));
    t := Next(u, Run(a, v));
  }

  /** A caller that waits for the result then has it. */
  lemma Sending(s: State, steps: seq<Step>, u: State, a: ActorId, v: Value) returns (t: State)
    requires Comes(s, steps, u) && Mail(s, a) != [] && AtWork(s, u, a, Finishing(Mail(s, a)[0], v)) && Read(s, Mail(s, a)[0]).call.Some?
    ensures Comes(s, steps + [Send(a)], t) && AtWork(s, t, a, Sent(Mail(s, a)[0])) && t.ran == u.ran
    ensures var c := CallOf(s, Mail(s, a)[0]); PhaseOf(s, c).Waiting? ==> Chan(t, c) == [v]
  {
    var c := CallOf(s, Mail(s, a)[0]);
    ReachableInv(u);
    assert CallOk(u, c);
    SendNeverBlocks(u, a);
    OwnChannel(u, a, c);
    More(s, steps, u, Send(a));
    t := Next(u, Send(a));
  }

  lemma Releasing(s: State, steps: seq<Step>, u: State, a: ActorId) returns (t: State)
    requires Comes(s, steps, u) && Mail(s, a) != [] && AtWork(s, u, a, Sent(Mail(s, a)[0]))
    ensures Comes(s, steps + [Clear(a)] + [Put(a)], t) && Doing(t, a).Idle? && Mail(t, a) == Mail(s, a)[1..] && Mail(s, a)[0] in t.pool
    ensures t.callers == s.callers && t.chans == u.chans && t.ran == u.ran
  {
    More(s, steps, u, Clear(a));
    var w := Next(u, Clear(a));
    More(s, steps + [Clear(a)], w, Put(a));
    t := Next(w, Put(a));
  }

  /** An idle actor whose oldest message is for itself handles it, answers and releases it; a caller that waits
      then receives what the handler returned. */
  lemma Answers(s: State, a: ActorId, v: Value) returns (t: State)
    requires Reachable(s) && Enabled(s, Take(a)) && Read(s, Mail(s, a)[0]).Route() == Some(a)
    ensures Comes(s, [Take(a), Run(a, v), Send(a), Clear(a), Put(a)], t)
    ensures Mail(t, a) == Mail(s, a)[1..] && Doing(t, a).Idle? && Mail(s, a)[0] in t.pool
    ensures var c := CallOf(s, Mail(s, a)[0]);
      t.ran[c] == 1 && (PhaseOf(s, c).Waiting? ==> Enabled(t, Receive(c)) && PhaseOf(Next(t, Receive(c)), c) == Returned(Got(v)))
  {
    MailHasCall(s, a);
    t := Taking(s, a);
    t := Handling(s, [] + [Take(a)], t, a, v);
    t := Sending(s, [] + [Take(a)] + [Run(a, v)], t, a, v);
    t := Releasing(s, [] + [Take(a)] + [Run(a, v)] + [Send(a)], t, a);
    FiveSteps(s, Take(a), Run(a, v), Send(a), Clear(a), Put(a), t);
    Received(t, CallOf(s, Mail(s, a)[0]), v);
  }

  lemma MailHasCall(s: State, a: ActorId)
    requires Reachable(s) && Mail(s, a) != []
    ensures Read(s, Mail(s, a)[0]).call.Some?
  {
    ReachableInv(s);
    assert InMailOk(s, a) && MailedOk(s, a, Mail(s, a)[0]);
  }

  lemma Received(s: State, c: CallId, v: Value)
    ensures PhaseOf(s, c).Waiting? && Chan(s, c) == [v] ==>
      Enabled(s, Receive(c)) && PhaseOf(Next(s, Receive(c)), c) == Returned(Got(v))
  {}

  /** A top actor passes a message for one of its children on to it. */
  lemma PassesOn(s: State, a: ActorId)
    requires Enabled(s, Take(a)) && a.child.None? && Read(s, Mail(s, a)[0]).Child().Some?
    ensures var m := Mail(s, a)[0];
      var b, s1 := Path(a.top, Read(s, m).Child()), Next(s, Take(a));
      Enabled(s1, Forward(a, b)) && var t := Next(s1, Forward(a, b));
      Mail(t, b) == Mail(s, b) + [m] && Mail(t, a) == Mail(s, a)[1..] && Doing(t, a).Idle? && t.contents == s.contents
  {}

  /** A result is sent by the actor that holds the message given to that call, and only once. */
  lemma AnswersFromHolder(s: State, x: Step)
    requires Reachable(s)
    ensures Enabled(s, x) ==> var t := Next(s, x);
      t.answers == s.answers ||
      (x.Send? && exists c :: c !in s.answers && c in s.given && c in t.answers && t.answers == s.answers[c := t.answers[c]]
                              && Doing(s, x.a) == Finishing(s.given[c], t.answers[c]))
  {
    ReachableInv(s);
    if Enabled(s, x) {
      if x.Send? { AnswerSent(s, x); } else { NoAnswer(s, x); }
    }
  }

  lemma AnswerSent(s: State, x: Step)
    requires Inv(s) && x.Send? && Enabled(s, x)
    ensures var t, c := Next(s, x), CallOf(s, Doing(s, x.a).m);
      t.answers == s.answers ||
      (c !in s.answers && c in s.given && c in t.answers && t.answers == s.answers[c := t.answers[c]]
       && Doing(s, x.a) == Finishing(s.given[c], t.answers[c]))
  {
    assert ActorOk(s, x.a) && ContentOk(s, Doing(s, x.a).m);
  }

  lemma NoAnswer(s: State, x: Step)
    requires !x.Send? && Enabled(s, x)
    ensures Next(s, x).answers == s.answers
  {}

  /** Finishing a message writes to the result channel of the call it was filled for and to no other,
      whatever calls the same object has served before; for a notification it writes to none. */
  lemma OwnChannel(s: State, a: ActorId, c: CallId)
    requires Reachable(s) && Enabled(s, Send(a))
    ensures c in s.callers && !s.callers[c].kind.notify && Read(s, Doing(s, a).m).call == Some(c) ==>
      Chan(s, c) == [] && Chan(Next(s, Send(a)), c) == [Doing(s, a).v]
    ensures (c in s.callers ==> s.callers[c].kind.notify) || Read(s, Doing(s, a).m).call != Some(c) ==>
      Chan(Next(s, Send(a)), c) == Chan(s, c)
  {
    ReachableInv(s);
    var m := Doing(s, a).m;
    assert ActorOk(s, a) && ContentOk(s, m) && CallOk(s, c);
    assert Owns(s, WithActor(a), m) && PlaceOk(s, m);
    assert !Owns(s, WithCaller(c), m);
    SentTo(s, a, c);
  }

  lemma SentTo(s: State, a: ActorId, c: CallId)
    requires Enabled(s, Send(a))
    ensures Chan(Next(s, Send(a)), c) == Chan(s, c) + if Read(s, Doing(s, a).m).chan == Some(c) then [Doing(s, a).v] else []
  {}

  /** A handler runs on the actor that its call named, and a message goes on from an actor only to the
      child of that actor which its call named, although the parsed path is kept in the object, objects
      are reused, and children of different actors may have the same name. */
  lemma RunsWhereAddressed(s: State, a: ActorId, v: Value)
    requires Reachable(s)
    ensures Enabled(s, Run(a, v)) ==> var c := CallOf(s, Doing(s, a).m);
      c in s.callers && a == s.callers[c].target
    ensures forall b | Enabled(s, Forward(a, b)) :: var c := CallOf(s, Doing(s, a).m);
      c in s.callers && b == s.callers[c].target && b.top == a.top && b.child.Some?
  {
    ReachableInv(s);
    assert ActorOk(s, a);
    if Doing(s, a).Holding? { assert ContentOk(s, Doing(s, a).m); }
  }

  /** No call has steps left: the mailboxes are empty, the actors idle, the callers have returned. */
  ghost predicate Quiet(s: State) {
    (forall a: ActorId :: Mail(s, a) == [] && Doing(s, a).Idle?) &&
    forall c | c in s.callers :: s.callers[c].phase.Returned? || (s.callers[c].phase.Waiting? && Chan(s, c) == [])
  }

  /** Once nothing is left to do, every message has been released exactly once and none is lost, and
      every caller has returned: no call waits for a result that will not come. */
  lemma NothingLeaks(s: State)
    requires Reachable(s) && Quiet(s)
    ensures forall c | c in s.callers :: s.released[c] == 1 && s.callers[c].phase.Returned?
    ensures forall m | m in s.contents :: m in s.pool || (m in s.at && s.at[m].Gone?)
  {
    ReachableInv(s);
    forall m | m in s.contents ensures m in s.pool || (m in s.at && s.at[m].Gone?) {
      assert PlaceOk(s, m);
    }
    forall c | c in s.callers ensures s.released[c] == 1 && s.callers[c].phase.Returned? {
      assert CallOk(s, c) && ContentOk(s, s.given[c]);
    }
  }
}
