/** Handing one attempt to a fleet of executors over a network that loses requests and replies, while the
  executors finish, forget and take other work.

  What is at stake: two handlers running for one attempt, or a handler running where recovery does not
  look. The scheduler only ever learns what an executor's answer says. */
module Dispatch {
  import opened Rows

  type Handler = int
  type Key = int
  type Time = int

  datatype Request = Request(handler: Handler, key: Key, token: Token)

  /** What an executor sends back: an OK response, whose echoes may be missing, or a status. */
  datatype Reply =
    | Response(key: Option<Key>, token: Option<Token>, refused: bool)
    | AlreadyExists(held: Option<Token>)
    | OtherStatus

  datatype Answer = Accepted | Refused | Unknown

  // ----- the executor --------------------------------------------------------------------

  /** Seconds a finished attempt is remembered. */
  const KEEP: Time := 600

  /** An executor's memory: the attempts it runs, and when those it remembers ended. `started` is the history
      of handlers it started, in order. */
  datatype Memory = Memory(
    handlers: set<Handler>, capacity: int, running: map<Key, Token>, done: map<(Key, Token), Time>,
    started: seq<(Key, Token)>)

  predicate Holds(m: Memory, req: Request) {
    (req.key in m.running && m.running[req.key] == req.token) || (req.key, req.token) in m.done
  }

  predicate Started(m: Memory, req: Request) {
    (req.key, req.token) in m.started
  }

  function RunOn(m: Memory, req: Request): (Memory, Reply) {
    if req.handler !in m.handlers then (m, Response(Some(req.key), None, true))
    else if (req.key, req.token) in m.done then (m, AlreadyExists(Some(req.token)))
    else if req.key in m.running then (m, AlreadyExists(Some(m.running[req.key])))
    else if m.capacity <= |m.running| then (m, Response(Some(req.key), None, true))
    else (m.(running := m.running[req.key := req.token], started := m.started + [(req.key, req.token)]),
          Response(Some(req.key), Some(req.token), false))
  }

  /** It would take the request: it has the handler and room, and knows nothing of the execution running or of the
      attempt having ended. */
  predicate Willing(m: Memory, req: Request) {
    && req.handler in m.handlers && |m.running| < m.capacity
    && req.key !in m.running && (req.key, req.token) !in m.done
  }

  /** It would decline: it lacks the handler, or it is full and knows nothing of the execution. */
  predicate Unable(m: Memory, req: Request) {
    || req.handler !in m.handlers
    || (m.capacity <= |m.running| && req.key !in m.running && (req.key, req.token) !in m.done)
  }

  function Remembered(done: map<(Key, Token), Time>, t: Time): map<(Key, Token), Time> {
    map p | p in done && t - KEEP <= done[p] :: done[p]
  }

  function FinishOn(m: Memory, key: Key, t: Time): Memory {
    if key in m.running
    then m.(running := m.running - {key}, done := Remembered(m.done[(key, m.running[key]) := t], t)) else m
  }

  class Executor {
    const handlers: set<Handler>
    const capacity: int
    var running: map<Key, Token>
    var done: map<(Key, Token), Time>
    var started: seq<(Key, Token)>

    function State(): Memory
      reads this
    {
      Memory(handlers, capacity, running, done, started)
    }

    constructor (handlers: set<Handler>, capacity: int)
      ensures State() == Memory(handlers, capacity, map[], map[], [])
    {
      this.handlers, this.capacity := handlers, capacity;
      running, done, started := map[], map[], [];
    }

    /** Takes an execution, or says which attempt it already has, or declines: it starts a handler exactly when
        it says so, and never for an attempt it holds. */
    method Run(req: Request) returns (reply: Reply)
      modifies this
      ensures (State(), reply) == RunOn(old(State()), req)
      ensures reply == Response(Some(req.key), Some(req.token), false) <==>
              started == old(started) + [(req.key, req.token)]
      ensures started == old(started) + [(req.key, req.token)] <==> old(Willing(State(), req))
      ensures reply == Response(Some(req.key), None, true) <==> old(Unable(State(), req))
      ensures old(Holds(State(), req)) ==> State() == old(State())
      ensures forall other: Request :: old(Holds(State(), other)) ==> Holds(State(), other)
    {
      if req.handler !in handlers { return Response(Some(req.key), None, true); }
      if (req.key, req.token) in done { return AlreadyExists(Some(req.token)); }
      if req.key in running { return AlreadyExists(Some(running[req.key])); }
      if |running| >= capacity { return Response(Some(req.key), None, true); }
      running := running[req.key := req.token];
      started := started + [(req.key, req.token)];
      return Response(Some(req.key), Some(req.token), false);
    }

    /** A handler ends: its attempt moves from running to remembered, and what ended too long ago is
        forgotten. Nothing younger is. */
    method Finish(key: Key, t: Time)
      modifies this
      ensures State() == FinishOn(old(State()), key, t)
      ensures key in old(running) ==>
                key !in running && (key, old(running)[key]) in done && done[(key, old(running)[key])] == t
      ensures forall p :: p in old(done) && t - KEEP <= old(done)[p] ==> p in done
    {
      if key in running {
        done := done[(key, running[key]) := t];
        running := running - {key};
        done := Remembered(done, t);
      }
    }
  }

  // ----- one attempt on one executor -----------------------------------------------------

  /** Whatever the executor holds it started, it started the attempt at most once, and with its handler. */
  predicate Honest(m: Memory, req: Request) {
    && (Holds(m, req) ==> Started(m, req))
    && (Started(m, req) ==> req.handler in m.handlers)
    && (forall i, j :: 0 <= i < j < |m.started| && m.started[i] == (req.key, req.token) ==>
          m.started[j] != (req.key, req.token))
  }

  /** What it started since then it still knows. */
  predicate Intact(m: Memory, req: Request, since: Time) {
    && (Started(m, req) ==> Holds(m, req))
    && ((req.key, req.token) in m.done ==> since <= m.done[(req.key, req.token)])
  }

  /** An executor that still knows starts the attempt at most once, however often it is sent. */
  lemma RunKeeps(m: Memory, req: Request, since: Time)
    requires Honest(m, req) && Intact(m, req, since)
    ensures Honest(RunOn(m, req).0, req) && Intact(RunOn(m, req).0, req, since)
  {
    var m' := RunOn(m, req).0;
    if m' != m {
      assert (req.key, req.token) !in m.started;
    }
  }

  /** Other attempts neither start it nor make it forgotten. */
  lemma OtherRunKeeps(m: Memory, req: Request, other: Request, since: Time)
    requires Honest(m, req) && other.token != req.token
    ensures Honest(RunOn(m, other).0, req) && (Started(RunOn(m, other).0, req) <==> Started(m, req))
    ensures Intact(m, req, since) ==> Intact(RunOn(m, other).0, req, since)
  {
    var m' := RunOn(m, other).0;
    assert forall p :: p in m'.started <==> p in m.started || (m' != m && p == (other.key, other.token));
  }

  /** An ending handler changes what is known only by forgetting what ended more than `KEEP` ago. */
  lemma FinishKeeps(m: Memory, req: Request, key: Key, t: Time, since: Time)
    requires Honest(m, req) && since <= t
    ensures Honest(FinishOn(m, key, t), req) && (Started(FinishOn(m, key, t), req) <==> Started(m, req))
    ensures Intact(m, req, since) && t <= since + KEEP ==> Intact(FinishOn(m, key, t), req, since)
  {
  }

  // ----- reading the answer --------------------------------------------------------------

  /** Only an OK response about this very attempt can be a refusal. */
  function Classify(reply: Option<Reply>, sent: Request): (Answer, Option<Token>) {
    match reply
    case None => (Unknown, None)
    case Some(Response(key, token, refused)) =>
      if key.Some? && key.value != sent.key then (Unknown, None)
      else if token.Some? && token.value != sent.token then (Unknown, token)
      else if refused then (Refused, None)
      else (Accepted, None)
    case Some(AlreadyExists(held)) => if held.None? then (Unknown, None) else (Accepted, held)
    case Some(OtherStatus) => (Unknown, None)
  }

  /** What a classified answer proves about the executor that gave it. */
  lemma AnswerProves(m: Memory, req: Request, since: Time)
    requires Honest(m, req) && Intact(m, req, since)
    ensures var (m', reply) := RunOn(m, req);
            var (answer, held) := Classify(Some(reply), req);
            && (answer.Refused? ==> !Started(m', req))
            && (answer.Accepted? && (held.None? || held.value == req.token) ==> Started(m', req))
  {
    RunKeeps(m, req, since);
  }

  // ----- the network and the neighbours --------------------------------------------------

  /** A request is lost on the way, or delivered with its reply lost or not; a reply that arrives is the
      executor's own. */
  datatype Delivery = RequestLost | ReplyLost | Through

  type Id = Rows.Executor

  /** Meanwhile, on any executor: a handler ends, or another attempt is handed to it. */
  datatype Meanwhile = Ends(at: Id, key: Key, t: Time) | Other(at: Id, req: Request)

  type Fleet = map<Id, Memory>

  function Happens(f: Fleet, ev: Meanwhile): Fleet {
    if ev.at !in f then f
    else match ev
         case Ends(at, key, t) => f[at := FinishOn(f[at], key, t)]
         case Other(at, req) => f[at := RunOn(f[at], req).0]
  }

  function Passes(f: Fleet, evs: seq<Meanwhile>): Fleet {
    if evs == [] then f else Passes(Happens(f, evs[0]), evs[1..])
  }

  /** Events between `since` and `now` that are not about the attempt. */
  predicate Between(evs: seq<Meanwhile>, token: Token, since: Time, now: Time) {
    forall i :: 0 <= i < |evs| ==>
      (evs[i].Other? ==> evs[i].req.token != token) && (evs[i].Ends? ==> since <= evs[i].t <= now)
  }

  predicate AllHonest(f: Fleet, req: Request) {
    forall x :: x in f ==> Honest(f[x], req)
  }

  predicate AllIntact(f: Fleet, req: Request, since: Time) {
    forall x :: x in f ==> Intact(f[x], req, since)
  }

  /** Exactly the executors that started the attempt have started it. */
  ghost predicate SameStarts(f: Fleet, f': Fleet, req: Request) {
    f'.Keys == f.Keys && forall x :: x in f ==> (Started(f'[x], req) <==> Started(f[x], req))
  }

  lemma HappensKeeps(f: Fleet, ev: Meanwhile, req: Request, since: Time, now: Time)
    requires AllHonest(f, req) && Between([ev], req.token, since, now)
    ensures AllHonest(Happens(f, ev), req) && SameStarts(f, Happens(f, ev), req)
    ensures AllIntact(f, req, since) && now <= since + KEEP ==> AllIntact(Happens(f, ev), req, since)
  {
    assert ([ev])[0] == ev;
    if ev.at in f {
      if ev.Ends? { FinishKeeps(f[ev.at], req, ev.key, ev.t, since); }
      else { OtherRunKeeps(f[ev.at], req, ev.req, since); }
    }
  }

  /** Whatever happens meanwhile, nobody else starts the attempt; and within `KEEP` of its first send nobody
      forgets it. */
  lemma {:induction false} PassingKeeps(f: Fleet, evs: seq<Meanwhile>, req: Request, since: Time, now: Time)
    requires AllHonest(f, req) && Between(evs, req.token, since, now)
    ensures AllHonest(Passes(f, evs), req) && SameStarts(f, Passes(f, evs), req)
    ensures AllIntact(f, req, since) && now <= since + KEEP ==> AllIntact(Passes(f, evs), req, since)
    decreases |evs|
  {
    if evs != [] {
      HappensKeeps(f, evs[0], req, since, now);
      PassingKeeps(Happens(f, evs[0]), evs[1..], req, since, now);
    }
  }

  // ----- the dispatcher ------------------------------------------------------------------

  /** Only the executor at `at` may have started the attempt. */
  ghost predicate Safe(f: Fleet, req: Request, at: Id) {
    AllHonest(f, req) && at in f && forall x :: x in f && Started(f[x], req) ==> x == at
  }

  ghost predicate Nobody(f: Fleet, req: Request) {
    forall x :: x in f ==> !Started(f[x], req)
  }

  /** Safe means: of all the handlers ever started anywhere, at most one is this attempt's. */
  lemma AtMostOneStart(f: Fleet, req: Request, at: Id, x: Id, i: int, y: Id, j: int)
    requires Safe(f, req, at) && x in f && y in f
    requires 0 <= i < |f[x].started| && f[x].started[i] == (req.key, req.token)
    requires 0 <= j < |f[y].started| && f[y].started[j] == (req.key, req.token)
    ensures x == y == at && i == j
  {
    assert Started(f[x], req) && Started(f[y], req);
  }

  /** What the world does around one send: the time it is reached, the checks made before it, and what the
      network makes of it. */
  datatype Moment = Moment(
    before: seq<Meanwhile>, now: Time, stopping: bool, owned: bool, readOk: bool, capLeft: bool,
    dials: bool, delivery: Delivery, acceptRecorded: bool, interrupted: bool)

  datatype Retargeting = Moved | LostClaim | Failed

  /** What the world does around one target. */
  datatype Leg = Leg(before: seq<Meanwhile>, now: Time, readOk: bool, capLeft: bool, retarget: Retargeting,
                     moments: nat -> Moment)

  ghost predicate Fair(moments: nat -> Moment, token: Token, since: Time) {
    forall k :: Between(moments(k).before, token, since, moments(k).now)
  }

  ghost predicate FairLeg(leg: Leg, token: Token, since: Time) {
    Between(leg.before, token, since, leg.now) && Fair(leg.moments, token, since)
  }

  function Later(a: Time, b: Time): Time {
    if a < b then b else a
  }

  /** The fleet after what happens before each of the first `n` sends. */
  function Around(f: Fleet, moments: nat -> Moment, n: nat): Fleet {
    if n == 0 then f else Passes(Around(f, moments, n - 1), moments(n - 1).before)
  }

  /** Nothing keeps the scheduler from this send: it is not stopping, owns the attempt, has checked it again if this
      is a re-send, is in time, and can reach the executor. */
  predicate Clear(m: Moment, k: nat, deadline: Time) {
    !m.stopping && m.owned && m.now < deadline && m.dials && (0 < k ==> m.readOk && m.capLeft)
  }

  /** Send number `j` is the first to get through, and the executor is willing. */
  predicate GetsThrough(f: Fleet, at: Id, req: Request, moments: nat -> Moment, j: nat, deadline: Time) {
    && (forall k: nat :: k < j ==>
          Clear(moments(k), k, deadline) && moments(k).delivery.RequestLost? && !moments(k).interrupted)
    && Clear(moments(j), j, deadline) && moments(j).delivery.Through? && moments(j).acceptRecorded
    && at in Around(f, moments, j + 1) && Willing(Around(f, moments, j + 1)[at], req)
  }

  /** The first send gets through, and the executor is unable. */
  predicate Declines(f: Fleet, at: Id, req: Request, moments: nat -> Moment, deadline: Time) {
    var f' := Passes(f, moments(0).before);
    Clear(moments(0), 0, deadline) && moments(0).delivery.Through? && at in f' && Unable(f'[at], req)
  }

  /** The fleet as leg `n` finds it, if every leg before it was declined at its first send. */
  function Declined(f: Fleet, legs: nat -> Leg, n: nat): Fleet {
    if n == 0 then f else Passes(Passes(Declined(f, legs, n - 1), legs(n - 1).before), legs(n - 1).moments(0).before)
  }

  /** The leg is reached in time, and its target recorded if it is not the first. */
  predicate Entered(leg: Leg, i: nat, deadline: Time) {
    leg.now < deadline && (0 < i ==> leg.readOk && leg.capLeft && leg.retarget.Moved?)
  }

  /** Every target before number `i` declines, and number `i` takes the attempt at send `j`. */
  predicate TakenBy(f: Fleet, targets: seq<Id>, req: Request, legs: nat -> Leg, i: nat, j: nat, deadline: Time)
    requires i < |targets|
  {
    && (forall k: nat :: k < i ==>
          && Entered(legs(k), k, deadline)
          && Declines(Passes(Declined(f, legs, k), legs(k).before), targets[k], req, legs(k).moments, deadline))
    && Entered(legs(i), i, deadline)
    && GetsThrough(Passes(Declined(f, legs, i), legs(i).before), targets[i], req, legs(i).moments, j, deadline)
  }

  class Dispatcher {
    var fleet: Fleet
    var connected: set<Id>
    var dispatchedTo: Id
    var clock: Time
    var accepted: bool
    var released: bool
    const since: Time
    const deadline: Time

    /** Every state the fleet and the recorded target have been in. */
    ghost var trace: seq<(Fleet, Id)>

    constructor (fleet: Fleet, connected: set<Id>, target: Id, now: Time, window: Time)
      ensures this.fleet == fleet && this.connected == connected && dispatchedTo == target
      ensures since == clock == now && deadline == now + window
      ensures !accepted && !released && trace == [(fleet, target)]
    {
      this.fleet, this.connected, dispatchedTo := fleet, connected, target;
      since, clock, deadline := now, now, now + window;
      accepted, released, trace := false, false, [(fleet, target)];
    }

    /** In every state so far only the recorded target may have started the attempt; and while the memory of
        executors reaches back to the first send, whatever was started is known. */
    ghost predicate SafeTrace(req: Request)
      reads this
    {
      && Safe(fleet, req, dispatchedTo)
      && (clock <= since + KEEP ==> AllIntact(fleet, req, since))
      && (forall i :: 0 <= i < |trace| ==> Safe(trace[i].0, req, trace[i].1))
    }

    method Elapse(events: seq<Meanwhile>, now: Time, ghost req: Request)
      requires SafeTrace(req) && Between(events, req.token, since, now)
      modifies `fleet, `clock, `trace
      ensures SafeTrace(req) && SameStarts(old(fleet), fleet, req) && clock == Later(old(clock), now)
      ensures fleet == Passes(old(fleet), events)
    {
      PassingKeeps(fleet, events, req, since, now);
      fleet := Passes(fleet, events);
      clock := Later(clock, now);
      trace := trace + [(fleet, dispatchedTo)];
    }

    /** One Run call. Failing to connect is a refusal, because nothing was sent; a connection once made is
        kept. */
    method Send(req: Request, m: Moment) returns (answer: Answer, held: Option<Token>)
      requires SafeTrace(req) && clock <= since + KEEP
      modifies `fleet, `connected, `trace
      ensures SafeTrace(req) && fleet.Keys == old(fleet.Keys)
      ensures answer.Refused? ==>
                !Started(fleet[dispatchedTo], req) || (dispatchedTo !in old(connected) && fleet == old(fleet))
      ensures answer.Accepted? && (held.None? || held.value == req.token) ==> Started(fleet[dispatchedTo], req)
      ensures !answer.Refused? ==> dispatchedTo in connected
      ensures var reached, memory := dispatchedTo in old(connected) || m.dials, old(fleet)[dispatchedTo];
              && (!reached ==> answer.Refused? && fleet == old(fleet))
              && (reached && m.delivery.RequestLost? ==> answer.Unknown? && fleet == old(fleet))
              && (reached && m.delivery.ReplyLost? ==> answer.Unknown?)
              && (reached && m.delivery.Through? && Willing(memory, req) ==> answer.Accepted? && held.None?)
              && (reached && m.delivery.Through? && Unable(memory, req) ==> answer.Refused? && fleet == old(fleet))
    {
      if dispatchedTo !in connected {
        if !m.dials {
          return Refused, None;
        }
        connected := connected + {dispatchedTo};
      }
      var reply := None;
      if !m.delivery.RequestLost? {
        RunKeeps(fleet[dispatchedTo], req, since);
        AnswerProves(fleet[dispatchedTo], req, since);
        var (memory, r) := RunOn(fleet[dispatchedTo], req);
        assert memory == fleet[dispatchedTo] ==> fleet[dispatchedTo := memory] == fleet;
        fleet := fleet[dispatchedTo := memory];
        trace := trace + [(fleet, dispatchedTo)];
        if m.delivery.Through? {
          reply := Some(r);
        }
      }
      var (a, h) := Classify(reply, req);
      return a, h;
    }

    /** One send to the recorded target and what is made of its answer; `over` says there is nothing more to try. */
    method SendOnce(req: Request, m: Moment, k: nat) returns (answer: Answer, over: bool)
      requires SafeTrace(req) && !accepted && deadline <= since + KEEP && Between(m.before, req.token, since, m.now)
      requires if k == 0 then Nobody(fleet, req) else dispatchedTo in connected
      modifies `fleet, `connected, `clock, `trace, `accepted
      ensures SafeTrace(req) && fleet.Keys == old(fleet.Keys)
      ensures answer.Refused? ==> Nobody(fleet, req)
      ensures accepted == answer.Accepted? && (accepted ==> Started(fleet[dispatchedTo], req))
      ensures answer.Unknown? && !over ==> dispatchedTo in connected
      ensures old(clock) < deadline && Clear(m, k, deadline) ==>
                var f := Passes(old(fleet), m.before);
                && clock < deadline && dispatchedTo in f
                && (m.delivery.RequestLost? && !m.interrupted ==> answer.Unknown? && !over && fleet == f)
                && (m.delivery.Through? && m.acceptRecorded && Willing(f[dispatchedTo], req) ==> answer.Accepted?)
                && (m.delivery.Through? && Unable(f[dispatchedTo], req) ==> answer.Refused? && fleet == f)
    {
      Elapse(m.before, m.now, req);
      if m.stopping || !m.owned {
        return Unknown, true;
      }
      if k > 0 && (clock > deadline || !m.readOk || !m.capLeft) {
        return Unknown, true;
      }
      if clock >= deadline {
        return Unknown, true;
      }
      var a, held := Send(req, m);
      match a {
        case Accepted =>
          if held.Some? && held.value != req.token {
            return Unknown, true;
          }
          if !m.acceptRecorded {
            return Unknown, true;
          }
          accepted := true;
          return Accepted, true;
        case Refused =>
          return Refused, true;
        case Unknown =>
          return Unknown, m.interrupted;
      }
    }

    /** Sends to one executor, and re-sends to the same one while the outcome is unknown, never past the
        deadline. Send `j`, if it is the first to get through and the executor is willing, is accepted. */
    method AttemptDispatch(req: Request, limit: int, moments: nat -> Moment, ghost j: nat) returns (answer: Answer)
      requires SafeTrace(req) && Nobody(fleet, req) && !accepted && deadline <= since + KEEP
      requires Fair(moments, req.token, since)
      modifies `fleet, `connected, `clock, `trace, `accepted
      ensures SafeTrace(req) && fleet.Keys == old(fleet.Keys)
      ensures answer.Refused? ==> Nobody(fleet, req)
      ensures accepted == answer.Accepted? && (accepted ==> Started(fleet[dispatchedTo], req))
      ensures old(clock) < deadline && j < limit && GetsThrough(old(fleet), dispatchedTo, req, moments, j, deadline) ==>
                answer.Accepted?
      ensures old(clock) < deadline && Declines(old(fleet), dispatchedTo, req, moments, deadline) ==>
                answer.Refused? && fleet == Passes(old(fleet), moments(0).before) && clock < deadline
    {
      ghost var taken := old(clock) < deadline && j < limit
                         && GetsThrough(fleet, dispatchedTo, req, moments, j, deadline);
      ghost var declined := old(clock) < deadline && Declines(fleet, dispatchedTo, req, moments, deadline);
      var attempt := 0;
      while true
        invariant SafeTrace(req) && fleet.Keys == old(fleet.Keys) && !accepted
        invariant attempt == 0 ==> Nobody(fleet, req)
        invariant 0 < attempt ==> dispatchedTo in connected && attempt < limit
        invariant taken ==> attempt <= j && clock < deadline && fleet == Around(old(fleet), moments, attempt)
        invariant declined ==> attempt == 0 && clock == old(clock) && fleet == old(fleet)
        decreases limit - attempt
      {
        var over;
        assert Between(moments(attempt).before, req.token, since, moments(attempt).now);
        answer, over := SendOnce(req, moments(attempt), attempt);
        if !answer.Unknown? || over || attempt + 1 >= limit {
          return;
        }
        attempt := attempt + 1;
      }
    }

    /** Turns to target number `i`: after the first, the attempt is checked again and the new target recorded before
        anything is sent to it. */
    method Enter(req: Request, leg: Leg, i: nat, target: Id) returns (go: bool)
      requires SafeTrace(req) && Nobody(fleet, req) && !accepted && !released && target in fleet
      requires FairLeg(leg, req.token, since) && (i == 0 ==> dispatchedTo == target)
      modifies `fleet, `clock, `trace, `dispatchedTo, `released
      ensures SafeTrace(req) && Nobody(fleet, req) && fleet.Keys == old(fleet.Keys)
      ensures go ==> dispatchedTo == target && !released
      ensures fleet == Passes(old(fleet), leg.before) && clock == Later(old(clock), leg.now)
      ensures old(clock) < deadline && Entered(leg, i, deadline) ==> go && clock < deadline
    {
      Elapse(leg.before, leg.now, req);
      if i > 0 {
        if !leg.readOk || !leg.capLeft {
          released := true;
          return false;
        }
        if leg.retarget.LostClaim? {
          return false;
        }
        if leg.retarget.Failed? {
          released := true;
          return false;
        }
        dispatchedTo := target;
        trace := trace + [(fleet, dispatchedTo)];
      }
      return true;
    }

    /** Tries each target in turn; moves on only after a refusal, and records the new target before
        sending to it. If every target before number `n` declines and `n` takes the attempt at send `j`, then it
        is accepted there. */
    method Dispatch(req: Request, targets: seq<Id>, capLeft: bool, limit: int, legs: nat -> Leg,
                    ghost n: nat, ghost j: nat)
      requires 0 < |targets| && dispatchedTo == targets[0] && (forall i :: 0 <= i < |targets| ==> targets[i] in fleet)
      requires SafeTrace(req) && Nobody(fleet, req) && !accepted && !released && deadline <= since + KEEP
      requires forall i :: FairLeg(legs(i), req.token, since)
      modifies this
      ensures SafeTrace(req)
      ensures accepted ==> Started(fleet[dispatchedTo], req)
      ensures released ==> Nobody(fleet, req) && !accepted
      ensures !capLeft ==> released
      ensures var taken := n < |targets| && j < limit && TakenBy(old(fleet), targets, req, legs, n, j, deadline);
              capLeft && old(clock) < deadline && taken ==> accepted && dispatchedTo == targets[n]
    {
      if !capLeft {
        released := true;
        return;
      }
      ghost var taken := clock < deadline && n < |targets| && j < limit
                         && TakenBy(fleet, targets, req, legs, n, j, deadline);
      for i := 0 to |targets|
        invariant SafeTrace(req) && Nobody(fleet, req) && !accepted && !released
        invariant fleet.Keys == old(fleet.Keys) && (i == 0 ==> dispatchedTo == targets[0])
        invariant taken ==> i <= n && clock < deadline && fleet == Declined(old(fleet), legs, i)
      {
        var go := Enter(req, legs(i), i, targets[i]);
        if !go {
          return;
        }
        var answer := AttemptDispatch(req, limit, legs(i).moments, j);
        if !answer.Refused? {
          return;
        }
      }
      released := true;
    }
  }

  /** The deployed re-send window is a tenth of what executors remember. */
  const RESEND_WINDOW: Time := 60

  /** A dispatch of a token nobody has seen, with the deployed window, starts from a safe state; so everything
      `Dispatch` promises holds of it. */
  lemma FreshTokenIsSafe(f: Fleet, req: Request, at: Id, since: Time)
    requires at in f && forall x :: x in f ==> !Started(f[x], req) && !Holds(f[x], req)
    ensures Safe(f, req, at) && Nobody(f, req) && AllIntact(f, req, since) && since + RESEND_WINDOW <= since + KEEP
  {
  }
}
