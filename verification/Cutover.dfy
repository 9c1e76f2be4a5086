/** Re-pointing a tenant at another schema while any number of instances poll the registry.

  One tenant, one time axis. An instance's registry pass is cut into the moments at which time can pass:
  it starts, reads the row, retires what it supersedes, reports what it still runs, refreshes its fence,
  announces an admission. Admissions and retirements run beside the passes. */
module Cutover {
  import opened Rows

  type Time = int
  type Member = int

  datatype Registry = Registry(generation: int, enabled: bool, dsn: int)

  datatype Observation = Observation(generation: int, quiesced: bool, at: Time)

  datatype Row = Row(generation: int, enabled: bool)

  /** Where an instance's current pass is. `runs` says whether it keeps the engine it found running. */
  datatype Pass =
    | Idle
    | Started(readAt: Time)
    | HasRead(readAt: Time, row: Row)
    | Sorted(readAt: Time, row: Row, runs: bool)
    | Reported(readAt: Time, row: Row, runs: bool, landed: bool)
    | Refreshed(readAt: Time, row: Row, runs: bool)
  {
    predicate Read() {
      !Idle? && !Started?
    }

    predicate Keeps() {
      (Sorted? || Reported? || Refreshed?) && runs
    }
  }

  datatype Engine = Engine(generation: int, claiming: bool)

  /** An admission in flight: announced to the registry, confirmed against it, engine published. */
  datatype Admission =
    | NoAdmission
    | Announced(generation: int)
    | Confirmed(generation: int, provedAt: Time)
    | Published(generation: int)

  /** One scheduler instance. `lastRead` is its fence; `refreshedWith` says whether the pass that last
      refreshed it kept the engine now running; `newest` is the newest generation it has ever read. */
  datatype Instance = Instance(
    lastRead: Option<Time>, refreshedWith: bool, pass: Pass, engine: Option<Engine>, draining: bool, ackFor: int,
    acks: set<int>, admission: Admission, seen: int, newest: int, stopped: bool)

  const FRESH := Instance(None, false, Idle, None, false, 0, {}, NoAdmission, 0, 0, false)

  /** What an instance does on its own. `ok` is whether its write to the control database landed. */
  datatype Move =
    | BeginPass
    | ReadRegistry(ok: bool)
    | RetireSuperseded(deferred: bool)
    | Report(ok: bool, quiesced: bool)
    | RefreshFence
    | Announce(ok: bool)
    | AdmissionFails
    | Confirm
    | Publish
    | Finish(ok: bool, quiesced: bool)
    | RetirementEnds
    | Acknowledge(generation: int, ok: bool, quiesced: bool)
    | Stop
    | StopEnds

  function Max(a: int, b: int): int {
    if a < b then b else a
  }

  type Held = (Option<Observation>, Instance)

  function Begun(t: Time, o: Option<Observation>, x: Instance): Held {
    if x.pass.Idle? && !x.stopped then (o, x.(pass := Started(t))) else (o, x)
  }

  /** Reads the row, and remembers the newest enabled generation; a disabled tenant that is not being
      drained here is forgotten. */
  function AfterRead(reg: Registry, o: Option<Observation>, x: Instance, ok: bool): Held {
    if !x.pass.Started? then (o, x)
    else if !ok then (o, x.(pass := Idle))
    else
      var seen := if reg.enabled then Max(x.seen, reg.generation) else if x.engine.None? then 0 else x.seen;
      (o, x.(pass := HasRead(x.pass.readAt, Row(reg.generation, reg.enabled)), seen := seen,
             newest := Max(x.newest, reg.generation)))
  }

  /** Stops the engine claiming, before anything else, if the row no longer wants it. A retirement under way
      acknowledges what it was started for, unless it was deferred and starts over. */
  function AfterSort(o: Option<Observation>, x: Instance, deferred: bool): Held {
    if !x.pass.HasRead? then (o, x)
    else
      var row := x.pass.row;
      if x.engine.Some? && (!row.enabled || row.generation != x.engine.value.generation) then
        (o, x.(pass := Sorted(x.pass.readAt, row, false), engine := Some(x.engine.value.(claiming := false)),
               draining := true, ackFor := if x.draining && !deferred then x.ackFor else row.generation))
      else (o, x.(pass := Sorted(x.pass.readAt, row, x.engine.Some?)))
  }

  /** Says what the instance holds, for the engine it keeps. */
  function AfterReport(t: Time, o: Option<Observation>, x: Instance, ok: bool, quiesced: bool): Held {
    if !x.pass.Sorted? then (o, x)
    else
      var p := x.pass;
      if !p.runs then (o, x.(pass := Reported(p.readAt, p.row, p.runs, true)))
      else
        var o' := if ok then Some(Observation(p.row.generation, quiesced, t)) else o;
        (o', x.(pass := Reported(p.readAt, p.row, p.runs, ok)))
  }

  /** Refreshes the fence, if the read is still fresh and the report landed. */
  function AfterRefresh(limit: Time, t: Time, o: Option<Observation>, x: Instance): Held {
    if !x.pass.Reported? then (o, x)
    else
      var p := x.pass;
      if t - p.readAt > limit || !p.landed then (o, x.(pass := Idle))
      else (o, x.(pass := Refreshed(p.readAt, p.row, p.runs), lastRead := Some(t), refreshedWith := p.runs))
  }

  /** Announces an admission before starting it; the pass ends here. */
  function AfterAnnounce(t: Time, o: Option<Observation>, x: Instance, ok: bool): Held {
    if !x.pass.Refreshed? then (o, x)
    else
      var p := x.pass;
      if !p.row.enabled || p.runs || x.engine.Some? || !x.admission.NoAdmission? || !ok then (o, x.(pass := Idle))
      else (Some(Observation(p.row.generation, false, t)), x.(pass := Idle, admission := Announced(p.row.generation)))
  }

  /** The schema could not be opened, verified or migrated, or the registry not asked; nothing is taken back,
      and a later pass may announce again. */
  function AfterFailure(o: Option<Observation>, x: Instance): Held {
    if x.admission.Announced? || x.admission.Confirmed? then (o, x.(admission := NoAdmission)) else (o, x)
  }

  /** Asks the registry once more, after the schema was opened and checked. */
  function AfterConfirm(reg: Registry, t: Time, o: Option<Observation>, x: Instance): Held {
    if !x.admission.Announced? then (o, x)
    else if reg.generation == x.admission.generation && reg.enabled
      then (o, x.(admission := Confirmed(reg.generation, t)))
    else (o, x.(admission := NoAdmission))
  }

  /** Installs the engine, unless the proof is stale, a newer row was read, or the instance is stopping. */
  function AfterPublish(limit: Time, t: Time, o: Option<Observation>, x: Instance): Held {
    if !x.admission.Confirmed? then (o, x)
    else
      var g := x.admission.generation;
      if t - x.admission.provedAt > limit || x.seen != g || x.stopped then (o, x.(admission := NoAdmission))
      else (o, x.(admission := Published(g), engine := Some(Engine(g, true)), draining := false,
                  refreshedWith := false))
  }

  function AfterFinish(t: Time, o: Option<Observation>, x: Instance, ok: bool, quiesced: bool): Held {
    if !x.admission.Published? then (o, x)
    else (if ok then Some(Observation(x.admission.generation, quiesced, t)) else o, x.(admission := NoAdmission))
  }

  /** A drained engine is removed and its tenant forgotten; the acknowledgement comes later. */
  function AfterRetirement(o: Option<Observation>, x: Instance): Held {
    if x.engine.None? || !x.draining then (o, x)
    else (o, x.(engine := None, draining := false, seen := 0, acks := x.acks + {x.ackFor}))
  }

  function AfterAck(t: Time, o: Option<Observation>, x: Instance, g: int, ok: bool, quiesced: bool): Held {
    if g !in x.acks then (o, x) else (if ok then Some(Observation(g, quiesced, t)) else o, x.(acks := x.acks - {g}))
  }

  function AfterStop(o: Option<Observation>, x: Instance): Held {
    if !x.stopped || !x.pass.Idle? || !x.admission.NoAdmission? then (o, x)
    else (o, x.(engine := None, draining := false))
  }

  /** The instance, and its observation row, after a move at time `t` under staleness limit `limit`. A move
      that does not apply changes nothing. */
  function Moved(reg: Registry, limit: Time, t: Time, o: Option<Observation>, x: Instance, m: Move): Held {
    match m
    case BeginPass => Begun(t, o, x)
    case ReadRegistry(ok) => AfterRead(reg, o, x, ok)
    case RetireSuperseded(deferred) => AfterSort(o, x, deferred)
    case Report(ok, quiesced) => AfterReport(t, o, x, ok, quiesced)
    case RefreshFence => AfterRefresh(limit, t, o, x)
    case Announce(ok) => AfterAnnounce(t, o, x, ok)
    case AdmissionFails => AfterFailure(o, x)
    case Confirm => AfterConfirm(reg, t, o, x)
    case Publish => AfterPublish(limit, t, o, x)
    case Finish(ok, quiesced) => AfterFinish(t, o, x, ok, quiesced)
    case RetirementEnds => AfterRetirement(o, x)
    case Acknowledge(g, ok, quiesced) => AfterAck(t, o, x, g, ok, quiesced)
    case Stop => (o, x.(stopped := true))
    case StopEnds => AfterStop(o, x)
  }

  /** The engine may act: it is claiming, and the fence was refreshed within the limit. */
  predicate Acting(x: Instance, limit: Time, t: Time) {
    x.engine.Some? && x.engine.value.claiming && x.lastRead.Some? && t - x.lastRead.value <= limit
  }

  // ----- the control database ------------------------------------------------------------

  predicate Blocks(o: Observation, generation: int, liveness: Time, t: Time) {
    t - o.at <= liveness && !(generation <= o.generation && o.quiesced)
  }

  function Toggled(reg: Registry, enabled: bool): Registry {
    if reg.enabled == enabled then reg else reg.(enabled := enabled, generation := reg.generation + 1)
  }

  predicate Movable(reg: Registry, obs: map<Member, Observation>, liveness: Time, t: Time) {
    !reg.enabled && forall i :: i in obs ==> !Blocks(obs[i], reg.generation, liveness, t)
  }

  lemma SomeMember(s: set<Member>)
    requires s != {}
    ensures exists i :: i in s
  {
    assert (forall i :: i !in s) ==> s == {};
  }

  // ----- the system ----------------------------------------------------------------------

  datatype World = World(reg: Registry, obs: map<Member, Observation>, members: map<Member, Instance>, now: Time)

  datatype Act = SetEnabled(enabled: bool) | SetDSN(dsn: int, quiescedElsewhere: bool) | MemberMove(i: Member, m: Move)

  datatype Step = Step(act: Act, t: Time)

  function Seen(w: World, i: Member): Option<Observation> {
    if i in w.obs then Some(w.obs[i]) else None
  }

  /** Observations count as live for three staleness limits. */
  function Next(limit: Time, w: World, s: Step): World {
    match s.act
    case SetEnabled(e) => w.(reg := Toggled(w.reg, e), now := s.t)
    case SetDSN(dsn, quiescedElsewhere) =>
      if quiescedElsewhere && Movable(w.reg, w.obs, 3 * limit, s.t)
      then w.(reg := w.reg.(dsn := dsn, generation := w.reg.generation + 1), now := s.t)
      else w.(now := s.t)
    case MemberMove(i, m) =>
      if i !in w.members then w.(now := s.t)
      else
        var (o, x) := Moved(w.reg, limit, s.t, Seen(w, i), w.members[i], m);
        World(w.reg, if o.Some? then w.obs[i := o.value] else w.obs, w.members[i := x], s.t)
  }

  // ----- the objects behind the steps ----------------------------------------------------

  class ControlStore {
    var registry: Registry
    var observations: map<Member, Observation>

    /** The control database of a world. */
    ghost predicate Shows(w: World)
      reads this
    {
      w.reg == registry && w.obs == observations
    }

    constructor (dsn: int)
      ensures registry == Registry(1, true, dsn) && observations == map[]
    {
      registry, observations := Registry(1, true, dsn), map[];
    }

    /** Turns the tenant on or off, as the step of that name does. */
    method SetTenantEnabled(enabled: bool) returns (ok: bool)
      modifies `registry
      ensures registry == Toggled(old(registry), enabled) && ok == (old(registry.enabled) != enabled)
      ensures forall limit, w, t :: old(Shows(w)) ==> Shows(Next(limit, w, Step(SetEnabled(enabled), t)))
    {
      ok := registry.enabled != enabled;
      if ok {
        registry := registry.(enabled := enabled, generation := registry.generation + 1);
      }
    }

    /** Writes what an instance reports: all that its moves do to the control database. */
    method Observe(i: Member, generation: int, quiesced: bool, t: Time)
      modifies `observations
      ensures observations == old(observations)[i := Observation(generation, quiesced, t)]
      ensures forall limit, w, m ::
                && old(Shows(w)) && i in w.members
                && Moved(w.reg, limit, t, Seen(w, i), w.members[i], m).0 == Some(Observation(generation, quiesced, t))
                ==> Shows(Next(limit, w, Step(MemberMove(i, m), t)))
    {
      observations := observations[i := Observation(generation, quiesced, t)];
    }

    /** The instances whose observations forbid the change. */
    method Blockers(generation: int, liveness: Time, t: Time) returns (out: set<Member>)
      ensures out == set i | i in observations && Blocks(observations[i], generation, liveness, t)
    {
      out := {};
      var rows := observations;
      var rest := rows.Keys;
      while rest != {}
        invariant rest <= rows.Keys
        invariant out == set i | i in rows && i !in rest && Blocks(rows[i], generation, liveness, t)
        decreases |rest|
      {
        SomeMember(rest);
        var i :| i in rest;
        var o := rows[i];
        if t - o.at <= liveness && !(o.generation >= generation && o.quiesced) {
          out := out + {i};
        }
        rest := rest - {i};
      }
    }

    /** Re-points the tenant, exactly when the caller has found the old schema quiet, the tenant is disabled
        and no live instance is behind or still busy. */
    method SetTenantDSN(dsn: int, quiescedElsewhere: bool, liveness: Time, t: Time) returns (ok: bool)
      modifies `registry
      ensures ok == (quiescedElsewhere && Movable(old(registry), observations, liveness, t))
      ensures registry == if ok then old(registry).(dsn := dsn, generation := old(registry.generation) + 1)
              else old(registry)
      ensures forall limit, w :: old(Shows(w)) && liveness == 3 * limit ==>
                Shows(Next(limit, w, Step(SetDSN(dsn, quiescedElsewhere), t)))
    {
      if !quiescedElsewhere {
        return false;
      }
      var blockers := Blockers(registry.generation, liveness, t);
      assert forall i :: i in blockers <==>
               i in observations && Blocks(observations[i], registry.generation, liveness, t);
      if blockers != {} || registry.enabled {
        if blockers != {} { SomeMember(blockers); }
        return false;
      }
      registry := registry.(dsn := dsn, generation := registry.generation + 1);
      return true;
    }
  }

  /** The right to operate, kept alive by reading the registry. */
  class Fence {
    const limit: Time
    var lastRead: Option<Time>

    constructor (limit: Time)
      ensures this.limit == limit && lastRead.None?
    {
      this.limit, lastRead := limit, None;
    }

    /** Dates the fence, as a pass that refreshes it does. */
    method Refresh(t: Time)
      modifies `lastRead
      ensures lastRead == Some(t)
      ensures forall o, x :: AfterRefresh(limit, t, o, x).1.pass.Refreshed? && x.pass.Reported? ==>
                AfterRefresh(limit, t, o, x).1.lastRead == lastRead
    {
      lastRead := Some(t);
    }

    /** Whether a claiming engine under this fence may act. */
    method Check(t: Time) returns (ok: bool)
      ensures forall x: Instance :: x.lastRead == lastRead && x.engine.Some? && x.engine.value.claiming ==>
                (Acting(x, limit, t) <==> ok)
    {
      if lastRead.None? {
        return false;
      }
      return t - lastRead.value <= limit;
    }
  }

  predicate Init(w: World) {
    w.reg.generation == 1 && w.obs == map[] && forall i :: i in w.members ==> w.members[i] == FRESH
  }

  predicate Run(limit: Time, ws: seq<World>, ss: seq<Step>) {
    && 0 <= limit && |ws| == |ss| + 1 && Init(ws[0])
    && (forall k :: 0 <= k < |ss| ==> ws[k].now <= ss[k].t && ws[k + 1] == Next(limit, ws[k], ss[k]))
  }

  // ----- the invariant -------------------------------------------------------------------

  /** A generation at which the tenant was enabled: still current and enabled, or past. */
  predicate WasEnabled(reg: Registry, g: int) {
    g < reg.generation || (g == reg.generation && reg.enabled)
  }

  predicate PassOk(reg: Registry, now: Time, o: Option<Observation>, x: Instance) {
    var p := x.pass;
    && (!p.Idle? ==> p.readAt <= now)
    && (p.Read() ==> 1 <= p.row.generation == x.newest && (p.row.enabled ==> WasEnabled(reg, p.row.generation)))
    && (p.HasRead? && !p.row.enabled && x.engine.Some? ==> x.engine.value.generation < p.row.generation)
    && (p.Keeps() ==> p.row.enabled && x.engine.Some? && x.engine.value.generation == p.row.generation)
    && (p.Reported? && p.runs && p.landed ==> o.Some? && p.readAt <= o.value.at)
  }

  predicate AdmissionOk(reg: Registry, x: Instance) {
    var a := x.admission;
    && (!a.NoAdmission? ==> 1 <= a.generation <= x.newest)
    && (a.Announced? || a.Confirmed? ==> x.engine.None?)
    && ((a.Announced? || a.Confirmed?) && x.seen == a.generation ==> x.newest == a.generation)
    && ((a.Announced? || a.Confirmed?) && x.pass.Read() && !x.pass.row.enabled ==> x.seen != a.generation)
    && (a.Confirmed? ==> WasEnabled(reg, a.generation))
    && (a.Published? && x.engine.Some? ==> x.engine.value.generation == a.generation)
  }

  predicate EngineOk(reg: Registry, limit: Time, o: Option<Observation>, x: Instance) {
    x.engine.Some? ==>
      && WasEnabled(reg, x.engine.value.generation)
      && x.engine.value.generation <= x.newest
      && (x.draining ==> x.engine.value.generation < x.newest)
      && (o.Some? ==> o.value.generation <= x.engine.value.generation)
      && (forall a :: a in x.acks ==> a <= x.engine.value.generation)
      && (x.refreshedWith && x.lastRead.Some? ==> o.Some? && x.lastRead.value - limit <= o.value.at)
  }

  /** Nothing an instance says or remembers is newer than what it has read, nor that than the registry. */
  predicate Informed(reg: Registry, now: Time, o: Option<Observation>, x: Instance) {
    && 0 <= x.newest <= reg.generation && 1 <= reg.generation
    && x.seen <= x.newest && x.ackFor <= x.newest
    && (forall a :: a in x.acks ==> a <= x.newest)
    && (o.Some? ==> o.value.generation <= x.newest && o.value.at <= now)
  }

  predicate MemberOk(reg: Registry, limit: Time, now: Time, o: Option<Observation>, x: Instance) {
    Informed(reg, now, o, x) && PassOk(reg, now, o, x) && AdmissionOk(reg, x) && EngineOk(reg, limit, o, x)
  }

  predicate Inv(limit: Time, w: World) {
    && 1 <= w.reg.generation
    && (forall i :: i in w.members ==> MemberOk(w.reg, limit, w.now, Seen(w, i), w.members[i]))
  }

  /** What a move owes the invariant. */
  predicate Kept(reg: Registry, limit: Time, t: Time, o: Option<Observation>, h: Held) {
    MemberOk(reg, limit, t, h.0, h.1) && (o.Some? ==> h.0.Some?)
  }

  /** Time alone changes nothing. */
  lemma Waits(reg: Registry, limit: Time, now: Time, t: Time, o: Option<Observation>, x: Instance)
    requires now <= t && MemberOk(reg, limit, now, o, x)
    ensures MemberOk(reg, limit, t, o, x)
  {
  }

  lemma BeginKeeps(reg: Registry, limit: Time, t: Time, o: Option<Observation>, x: Instance)
    requires 0 <= limit && MemberOk(reg, limit, t, o, x)
    ensures Kept(reg, limit, t, o, Begun(t, o, x))
  {
  }

  lemma ReadKeeps(reg: Registry, limit: Time, t: Time, o: Option<Observation>, x: Instance, ok: bool)
    requires 0 <= limit && MemberOk(reg, limit, t, o, x)
    ensures Kept(reg, limit, t, o, AfterRead(reg, o, x, ok))
  {
  }

  lemma SortKeeps(reg: Registry, limit: Time, t: Time, o: Option<Observation>, x: Instance, deferred: bool)
    requires 0 <= limit && MemberOk(reg, limit, t, o, x)
    ensures Kept(reg, limit, t, o, AfterSort(o, x, deferred))
  {
  }

  lemma ReportKeeps(reg: Registry, limit: Time, t: Time, o: Option<Observation>, x: Instance, ok: bool, quiesced: bool)
    requires 0 <= limit && MemberOk(reg, limit, t, o, x)
    ensures Kept(reg, limit, t, o, AfterReport(t, o, x, ok, quiesced))
  {
  }

  lemma FreshReadKeeps(reg: Registry, limit: Time, t: Time, o: Option<Observation>, x: Instance)
    requires 0 <= limit && MemberOk(reg, limit, t, o, x) && x.pass.Reported? && t - x.pass.readAt <= limit
    requires x.pass.landed
    ensures MemberOk(reg, limit, t, o,
                     x.(pass := Refreshed(x.pass.readAt, x.pass.row, x.pass.runs), lastRead := Some(t),
                        refreshedWith := x.pass.runs))
  {
  }

  lemma RefreshKeeps(reg: Registry, limit: Time, t: Time, o: Option<Observation>, x: Instance)
    requires 0 <= limit && MemberOk(reg, limit, t, o, x)
    ensures Kept(reg, limit, t, o, AfterRefresh(limit, t, o, x))
  {
    if x.pass.Reported? && t - x.pass.readAt <= limit && x.pass.landed {
      FreshReadKeeps(reg, limit, t, o, x);
    }
  }

  lemma AnnounceKeeps(reg: Registry, limit: Time, t: Time, o: Option<Observation>, x: Instance, ok: bool)
    requires 0 <= limit && MemberOk(reg, limit, t, o, x)
    ensures Kept(reg, limit, t, o, AfterAnnounce(t, o, x, ok))
  {
  }

  lemma FailureKeeps(reg: Registry, limit: Time, t: Time, o: Option<Observation>, x: Instance)
    requires 0 <= limit && MemberOk(reg, limit, t, o, x)
    ensures Kept(reg, limit, t, o, AfterFailure(o, x))
  {
  }

  lemma ConfirmKeeps(reg: Registry, limit: Time, t: Time, o: Option<Observation>, x: Instance)
    requires 0 <= limit && MemberOk(reg, limit, t, o, x)
    ensures Kept(reg, limit, t, o, AfterConfirm(reg, t, o, x))
  {
  }

  lemma PublishKeeps(reg: Registry, limit: Time, t: Time, o: Option<Observation>, x: Instance)
    requires 0 <= limit && MemberOk(reg, limit, t, o, x)
    ensures Kept(reg, limit, t, o, AfterPublish(limit, t, o, x))
  {
  }

  lemma FinishKeeps(reg: Registry, limit: Time, t: Time, o: Option<Observation>, x: Instance, ok: bool, quiesced: bool)
    requires 0 <= limit && MemberOk(reg, limit, t, o, x)
    ensures Kept(reg, limit, t, o, AfterFinish(t, o, x, ok, quiesced))
  {
  }

  lemma RetirementKeeps(reg: Registry, limit: Time, t: Time, o: Option<Observation>, x: Instance)
    requires 0 <= limit && MemberOk(reg, limit, t, o, x)
    ensures Kept(reg, limit, t, o, AfterRetirement(o, x))
  {
  }

  lemma AckKeeps(reg: Registry, limit: Time, t: Time, o: Option<Observation>, x: Instance, g: int, ok: bool,
                 quiesced: bool)
    requires 0 <= limit && MemberOk(reg, limit, t, o, x)
    ensures Kept(reg, limit, t, o, AfterAck(t, o, x, g, ok, quiesced))
  {
  }

  lemma StopKeeps(reg: Registry, limit: Time, t: Time, o: Option<Observation>, x: Instance)
    requires 0 <= limit && MemberOk(reg, limit, t, o, x)
    ensures Kept(reg, limit, t, o, AfterStop(o, x))
  {
  }

  lemma MoveKeeps(reg: Registry, limit: Time, now: Time, t: Time, o: Option<Observation>, x: Instance, m: Move)
    requires 0 <= limit && now <= t && MemberOk(reg, limit, now, o, x)
    ensures Kept(reg, limit, t, o, Moved(reg, limit, t, o, x, m))
  {
    Waits(reg, limit, now, t, o, x);
    match m
    case BeginPass => BeginKeeps(reg, limit, t, o, x);
    case ReadRegistry(ok) => ReadKeeps(reg, limit, t, o, x, ok);
    case RetireSuperseded(deferred) => SortKeeps(reg, limit, t, o, x, deferred);
    case Report(ok, quiesced) => ReportKeeps(reg, limit, t, o, x, ok, quiesced);
    case RefreshFence => RefreshKeeps(reg, limit, t, o, x);
    case Announce(ok) => AnnounceKeeps(reg, limit, t, o, x, ok);
    case AdmissionFails => FailureKeeps(reg, limit, t, o, x);
    case Confirm => ConfirmKeeps(reg, limit, t, o, x);
    case Publish => PublishKeeps(reg, limit, t, o, x);
    case Finish(ok, quiesced) => FinishKeeps(reg, limit, t, o, x, ok, quiesced);
    case RetirementEnds => RetirementKeeps(reg, limit, t, o, x);
    case Acknowledge(g, ok, quiesced) => AckKeeps(reg, limit, t, o, x, g, ok, quiesced);
    case StopEnds => StopKeeps(reg, limit, t, o, x);
    case Stop =>
  }

  /** Generations move on; what was enabled stays enabled or past. */
  lemma RegistryKeeps(reg: Registry, reg': Registry, limit: Time, now: Time, t: Time, o: Option<Observation>,
                      x: Instance)
    requires now <= t && MemberOk(reg, limit, now, o, x)
    requires reg' == reg || reg.generation < reg'.generation
    ensures MemberOk(reg', limit, t, o, x)
  {
  }

  lemma StepKeeps(limit: Time, w: World, s: Step)
    requires 0 <= limit && w.now <= s.t && Inv(limit, w)
    ensures Inv(limit, Next(limit, w, s))
  {
    var w' := Next(limit, w, s);
    forall i | i in w'.members
      ensures MemberOk(w'.reg, limit, w'.now, Seen(w', i), w'.members[i])
    {
      if s.act.MemberMove? && s.act.i == i {
        MoveKeeps(w.reg, limit, w.now, s.t, Seen(w, i), w.members[i], s.act.m);
      } else {
        RegistryKeeps(w.reg, w'.reg, limit, w.now, s.t, Seen(w, i), w.members[i]);
      }
    }
  }

  lemma {:induction false} Reachable(limit: Time, ws: seq<World>, ss: seq<Step>, k: nat)
    requires Run(limit, ws, ss) && k < |ws|
    ensures Inv(limit, ws[k])
  {
    if k > 0 {
      Reachable(limit, ws, ss, k - 1);
      StepKeeps(limit, ws[k - 1], ss[k - 1]);
    }
  }

  // ----- the gate ------------------------------------------------------------------------

  /** Any engine that may still act was reported, if at all, at a generation the tenant has left by the time
      it is disabled; if a pass kept it and refreshed the fence, that report is at most two limits old. */
  lemma ActingBlocks(reg: Registry, limit: Time, now: Time, t: Time, o: Option<Observation>, x: Instance)
    requires 0 <= limit && now <= t && MemberOk(reg, limit, now, o, x) && !reg.enabled && Acting(x, limit, t)
    ensures o.Some? && t - o.value.at <= 3 * limit ==> Blocks(o.value, reg.generation, 3 * limit, t)
    ensures x.refreshedWith ==> o.Some? && t - o.value.at <= 2 * limit
  {
  }

  /** An engine no pass has kept yet was observed, when it was published, at most one limit before; so any
      refresh it acts under lies within two limits of its observation. */
  predicate Recent(limit: Time, o: Option<Observation>, x: Instance) {
    x.engine.Some? && x.engine.value.claiming ==>
      && (!x.refreshedWith && x.lastRead.Some? ==> o.Some? && x.lastRead.value - 2 * limit <= o.value.at)
      && ((x.pass.Sorted? || x.pass.Reported?) && !x.pass.runs ==> o.Some? && x.pass.readAt - limit <= o.value.at)
  }

  /** The step does not publish an engine of the instance whose observation is more than one limit old. */
  predicate Prompt(limit: Time, w: World, s: Step, i: Member) {
    (&& s.act == MemberMove(i, Publish) && i in w.members && w.members[i].engine.None?
     && AfterPublish(limit, s.t, Seen(w, i), w.members[i]).1.engine.Some?)
    ==> i in w.obs && s.t - w.obs[i].at <= limit
  }

  /** What a move owes: the same, and a fence not dated in the future. */
  predicate RecentKept(limit: Time, t: Time, h: Held) {
    Recent(limit, h.0, h.1) && (h.1.lastRead.Some? ==> h.1.lastRead.value <= t)
  }

  lemma BeginRecent(reg: Registry, limit: Time, t: Time, o: Option<Observation>, x: Instance)
    requires 0 <= limit && MemberOk(reg, limit, t, o, x) && RecentKept(limit, t, (o, x))
    ensures RecentKept(limit, t, Begun(t, o, x))
  {
  }

  lemma ReadRecent(reg: Registry, limit: Time, t: Time, o: Option<Observation>, x: Instance, ok: bool)
    requires 0 <= limit && MemberOk(reg, limit, t, o, x) && RecentKept(limit, t, (o, x))
    ensures RecentKept(limit, t, AfterRead(reg, o, x, ok))
  {
  }

  lemma SortRecent(reg: Registry, limit: Time, t: Time, o: Option<Observation>, x: Instance, deferred: bool)
    requires 0 <= limit && MemberOk(reg, limit, t, o, x) && RecentKept(limit, t, (o, x))
    ensures RecentKept(limit, t, AfterSort(o, x, deferred))
  {
  }

  lemma ReportRecent(reg: Registry, limit: Time, t: Time, o: Option<Observation>, x: Instance, ok: bool, quiesced: bool)
    requires 0 <= limit && MemberOk(reg, limit, t, o, x) && RecentKept(limit, t, (o, x))
    ensures RecentKept(limit, t, AfterReport(t, o, x, ok, quiesced))
  {
  }

  lemma RefreshRecent(reg: Registry, limit: Time, t: Time, o: Option<Observation>, x: Instance)
    requires 0 <= limit && MemberOk(reg, limit, t, o, x) && RecentKept(limit, t, (o, x))
    ensures RecentKept(limit, t, AfterRefresh(limit, t, o, x))
  {
  }

  lemma AnnounceRecent(reg: Registry, limit: Time, t: Time, o: Option<Observation>, x: Instance, ok: bool)
    requires 0 <= limit && MemberOk(reg, limit, t, o, x) && RecentKept(limit, t, (o, x))
    ensures RecentKept(limit, t, AfterAnnounce(t, o, x, ok))
  {
  }

  lemma FinishRecent(reg: Registry, limit: Time, t: Time, o: Option<Observation>, x: Instance, ok: bool, quiesced: bool)
    requires 0 <= limit && MemberOk(reg, limit, t, o, x) && RecentKept(limit, t, (o, x))
    ensures RecentKept(limit, t, AfterFinish(t, o, x, ok, quiesced))
  {
  }

  lemma AckRecent(reg: Registry, limit: Time, t: Time, o: Option<Observation>, x: Instance, g: int, ok: bool,
                  quiesced: bool)
    requires 0 <= limit && MemberOk(reg, limit, t, o, x) && RecentKept(limit, t, (o, x))
    ensures RecentKept(limit, t, AfterAck(t, o, x, g, ok, quiesced))
  {
  }

  lemma PublishRecent(reg: Registry, limit: Time, t: Time, o: Option<Observation>, x: Instance)
    requires 0 <= limit && MemberOk(reg, limit, t, o, x) && RecentKept(limit, t, (o, x))
    requires x.engine.None? && AfterPublish(limit, t, o, x).1.engine.Some? ==> o.Some? && t - o.value.at <= limit
    ensures RecentKept(limit, t, AfterPublish(limit, t, o, x))
  {
  }

  lemma MoveKeepsRecent(reg: Registry, limit: Time, t: Time, o: Option<Observation>, x: Instance, m: Move)
    requires 0 <= limit && MemberOk(reg, limit, t, o, x) && RecentKept(limit, t, (o, x))
    requires m.Publish? && x.engine.None? && AfterPublish(limit, t, o, x).1.engine.Some? ==>
               o.Some? && t - o.value.at <= limit
    ensures RecentKept(limit, t, Moved(reg, limit, t, o, x, m))
  {
    match m
    case BeginPass => BeginRecent(reg, limit, t, o, x);
    case ReadRegistry(ok) => ReadRecent(reg, limit, t, o, x, ok);
    case RetireSuperseded(deferred) => SortRecent(reg, limit, t, o, x, deferred);
    case Report(ok, quiesced) => ReportRecent(reg, limit, t, o, x, ok, quiesced);
    case RefreshFence => RefreshRecent(reg, limit, t, o, x);
    case Announce(ok) => AnnounceRecent(reg, limit, t, o, x, ok);
    case Finish(ok, quiesced) => FinishRecent(reg, limit, t, o, x, ok, quiesced);
    case Acknowledge(g, ok, quiesced) => AckRecent(reg, limit, t, o, x, g, ok, quiesced);
    case Publish => PublishRecent(reg, limit, t, o, x);
    case _ =>
  }

  /** Fences are not refreshed in the future. */
  predicate Dated(w: World, i: Member) {
    i in w.members && w.members[i].lastRead.Some? ==> w.members[i].lastRead.value <= w.now
  }

  lemma {:induction false} RecentAt(limit: Time, ws: seq<World>, ss: seq<Step>, k: nat, i: Member)
    requires Run(limit, ws, ss) && k < |ws|
    requires forall j :: 0 <= j < k ==> Prompt(limit, ws[j], ss[j], i)
    ensures Dated(ws[k], i) && (i in ws[k].members ==> Recent(limit, Seen(ws[k], i), ws[k].members[i]))
  {
    if k > 0 {
      RecentAt(limit, ws, ss, k - 1, i);
      Reachable(limit, ws, ss, k - 1);
      var w, s := ws[k - 1], ss[k - 1];
      assert ws[k] == Next(limit, w, s) && Prompt(limit, w, s, i);
      if s.act.MemberMove? && s.act.i == i && i in w.members {
        Waits(w.reg, limit, w.now, s.t, Seen(w, i), w.members[i]);
        MoveKeepsRecent(w.reg, limit, s.t, Seen(w, i), w.members[i], s.act.m);
        MoveKeeps(w.reg, limit, w.now, s.t, Seen(w, i), w.members[i], s.act.m);
      }
    }
  }

  /** The cutover gate: if an instance publishes its engines while its observation is at most one staleness
      limit old, then no step that re-points the tenant finds it with an engine that may act. */
  lemma NoEngineAtCutover(limit: Time, ws: seq<World>, ss: seq<Step>, k: nat, i: Member)
    requires Run(limit, ws, ss) && k < |ss| && i in ws[k].members
    requires ss[k].act.SetDSN? && ws[k + 1].reg != ws[k].reg
    requires forall j :: 0 <= j < k ==> Prompt(limit, ws[j], ss[j], i)
    ensures !Acting(ws[k].members[i], limit, ss[k].t)
  {
    Reachable(limit, ws, ss, k);
    RecentAt(limit, ws, ss, k, i);
    var x := ws[k].members[i];
    if Acting(x, limit, ss[k].t) {
      ActingBlocks(ws[k].reg, limit, ws[k].now, ss[k].t, Seen(ws[k], i), x);
    }
  }

  /** A world with one instance. */
  function Solo(reg: Registry, o: Option<Observation>, x: Instance, now: Time): World {
    World(reg, if o.Some? then map[0 := o.value] else map[], map[0 := x], now)
  }

  /** A run of the lone instance, extended by one of its moves. */
  lemma SoloMoves(limit: Time, ws: seq<World>, ss: seq<Step>, reg: Registry, o: Option<Observation>, x: Instance,
                  now: Time, m: Move, t: Time, h: Held)
      returns (ws': seq<World>, ss': seq<Step>)
    requires Run(limit, ws, ss) && ws[|ss|] == Solo(reg, o, x, now) && now <= t
    requires h == Moved(reg, limit, t, o, x, m) && (o.Some? ==> h.0.Some?)
    ensures Run(limit, ws', ss') && ws' == ws + [Solo(reg, h.0, h.1, t)] && ss' == ss + [Step(MemberMove(0, m), t)]
  {
    var s := Step(MemberMove(0, m), t);
    ws', ss' := ws + [Next(limit, ws[|ss|], s)], ss + [s];
    assert Next(limit, ws[|ss|], s) == Solo(reg, h.0, h.1, t);
  }

  /** A pass over an enabled row by an instance with no engine, up to its refreshed fence. */
  lemma EmptyPass(limit: Time, ws: seq<World>, ss: seq<Step>, reg: Registry, o: Option<Observation>, x: Instance,
                  now: Time, t: Time)
      returns (ws': seq<World>, ss': seq<Step>)
    requires Run(limit, ws, ss) && ws[|ss|] == Solo(reg, o, x, now) && now <= t
    requires x.pass.Idle? && !x.stopped && x.engine.None? && reg.enabled && x.seen <= reg.generation
    requires x.newest <= reg.generation
    ensures Run(limit, ws', ss')
    ensures var row := Row(reg.generation, true);
            ws'[|ss'|] == Solo(reg, o, x.(pass := Refreshed(t, row, false), lastRead := Some(t), refreshedWith := false,
                                          seen := reg.generation, newest := reg.generation), t)
  {
    var row := Row(reg.generation, true);
    var y := x.(seen := reg.generation, newest := reg.generation);
    ws', ss' := SoloMoves(limit, ws, ss, reg, o, x, now, BeginPass, t, (o, x.(pass := Started(t))));
    ws', ss' := SoloMoves(limit, ws', ss', reg, o, x.(pass := Started(t)), t, ReadRegistry(true), t,
                          (o, y.(pass := HasRead(t, row))));
    ws', ss' := SoloMoves(limit, ws', ss', reg, o, y.(pass := HasRead(t, row)), t, RetireSuperseded(false), t,
                          (o, y.(pass := Sorted(t, row, false))));
    ws', ss' := SoloMoves(limit, ws', ss', reg, o, y.(pass := Sorted(t, row, false)), t, Report(true, true), t,
                          (o, y.(pass := Reported(t, row, false, true))));
    ws', ss' := SoloMoves(limit, ws', ss', reg, o, y.(pass := Reported(t, row, false, true)), t, RefreshFence, t,
                          (o, y.(pass := Refreshed(t, row, false), lastRead := Some(t), refreshedWith := false)));
  }

  /** An instance with an admission announced at time 0, in a pass at time `age` that has found no engine. */
  lemma AnnouncedThenSorted(limit: Time, age: Time) returns (ws: seq<World>, ss: seq<Step>, x: Instance)
    requires 0 <= limit < age
    ensures Run(limit, ws, ss) && ws[|ss|] == Solo(Registry(1, true, 1), Some(Observation(1, false, 0)), x, age)
    ensures x == FRESH.(lastRead := Some(0), seen := 1, newest := 1, admission := Announced(1),
                        pass := Sorted(age, Row(1, true), false))
  {
    var reg, o, row := Registry(1, true, 1), Some(Observation(1, false, 0)), Row(1, true);
    ws, ss := [Solo(reg, None, FRESH, 0)], [];
    ws, ss := EmptyPass(limit, ws, ss, reg, None, FRESH, 0, 0);
    var y := FRESH.(lastRead := Some(0), seen := 1, newest := 1);
    ws, ss := SoloMoves(limit, ws, ss, reg, None, y.(pass := Refreshed(0, row, false)), 0, Announce(true), 0,
                        (o, y.(admission := Announced(1))));
    y := y.(admission := Announced(1));
    ws, ss := SoloMoves(limit, ws, ss, reg, o, y, 0, BeginPass, age, (o, y.(pass := Started(age))));
    ws, ss := SoloMoves(limit, ws, ss, reg, o, y.(pass := Started(age)), age, ReadRegistry(true), age,
                        (o, y.(pass := HasRead(age, row))));
    x := y.(pass := Sorted(age, row, false));
    ws, ss := SoloMoves(limit, ws, ss, reg, o, y.(pass := HasRead(age, row)), age, RetireSuperseded(false), age,
                        (o, x));
  }

  /** It confirms and publishes, and only then refreshes its fence, one limit after the read. */
  lemma PublishedThenRefreshed(limit: Time, age: Time) returns (ws: seq<World>, ss: seq<Step>, x: Instance, p: nat)
    requires 0 <= limit < age
    ensures p < |ss| < |ws| && ss[p] == Step(MemberMove(0, Publish), age)
    ensures Seen(ws[p], 0) == Some(Observation(1, false, 0))
    ensures Run(limit, ws, ss) && ws[|ss|] == Solo(Registry(1, true, 1), Some(Observation(1, false, 0)), x, age + limit)
    ensures x.engine == Some(Engine(1, true)) && x.lastRead == Some(age + limit)
  {
    var reg, o, row := Registry(1, true, 1), Some(Observation(1, false, 0)), Row(1, true);
    ws, ss, x := AnnouncedThenSorted(limit, age);
    var y := x.(admission := Confirmed(1, age));
    ws, ss := SoloMoves(limit, ws, ss, reg, o, x, age, Confirm, age, (o, y));
    x := y.(admission := Published(1), engine := Some(Engine(1, true)));
    p := |ss|;
    ws, ss := SoloMoves(limit, ws, ss, reg, o, y, age, Publish, age, (o, x));
    y := x.(pass := Reported(age, row, false, true));
    ws, ss := SoloMoves(limit, ws, ss, reg, o, x, age, Report(true, true), age, (o, y));
    x := y.(pass := Refreshed(age, row, false), lastRead := Some(age + limit), refreshedWith := false);
    ws, ss := SoloMoves(limit, ws, ss, reg, o, y, age, RefreshFence, age + limit, (o, x));
  }

  /** The bound is sharp: for every limit and every longer age of the observation at publication there is a
      run in which the tenant is re-pointed while the published engine may act. */
  lemma LatePublicationSlipsThrough(limit: Time, age: Time) returns (ws: seq<World>, ss: seq<Step>, p: nat)
    requires 0 <= limit < age
    ensures Run(limit, ws, ss) && p < |ss|
    ensures ss[p] == Step(MemberMove(0, Publish), age) && Seen(ws[p], 0) == Some(Observation(1, false, 0))
    ensures var k := |ss| - 1;
            && ss[k].act.SetDSN? && ws[k + 1].reg != ws[k].reg
            && 0 in ws[k].members && Acting(ws[k].members[0], limit, ss[k].t)
  {
    var x;
    ws, ss, x, p := PublishedThenRefreshed(limit, age);
    var off, move := Step(SetEnabled(false), age + limit), Step(SetDSN(2, true), age + 2 * limit);
    var w := ws[|ss|];
    var w' := Next(limit, w, off);
    ws, ss := ws + [w', Next(limit, w', move)], ss + [off, move];
  }

  // ----- and it can be done --------------------------------------------------------------

  /** Nobody heard of within three limits is behind the tenant's generation or still holds work. */
  predicate AllQuiet(w: World, limit: Time, t: Time) {
    forall i :: i in w.obs && w.obs[i].at >= t - 3 * limit ==>
      w.obs[i].quiesced == true && w.obs[i].generation >= w.reg.generation
  }

  /** A tenant is re-pointed, at a new generation, if and only if its old schema was found quiet, it is disabled, and
      everybody heard of lately is quiet at its generation. */
  lemma RepointsIff(limit: Time, w: World, dsn: int, quiet: bool, t: Time)
    ensures var w' := Next(limit, w, Step(SetDSN(dsn, quiet), t));
            && w'.obs == w.obs && w'.members == w.members
            && w'.reg == if quiet && w.reg.enabled == false && AllQuiet(w, limit, t)
                         then Registry(w.reg.generation + 1, false, dsn) else w.reg
  {
  }

  /** An instance that serves the tenant at time 0. */
  lemma Serving(limit: Time) returns (ws: seq<World>, ss: seq<Step>, x: Instance)
    requires 0 <= limit
    ensures Run(limit, ws, ss) && ws[|ss|] == Solo(Registry(1, true, 1), Some(Observation(1, false, 0)), x, 0)
    ensures x == FRESH.(lastRead := Some(0), seen := 1, newest := 1, engine := Some(Engine(1, true)))
    ensures Acting(x, limit, 0)
  {
    var reg, o, row := Registry(1, true, 1), Some(Observation(1, false, 0)), Row(1, true);
    ws, ss := [Solo(reg, None, FRESH, 0)], [];
    ws, ss := EmptyPass(limit, ws, ss, reg, None, FRESH, 0, 0);
    var y := FRESH.(lastRead := Some(0), seen := 1, newest := 1);
    ws, ss := SoloMoves(limit, ws, ss, reg, None, y.(pass := Refreshed(0, row, false)), 0, Announce(true), 0,
                        (o, y.(admission := Announced(1))));
    ws, ss := SoloMoves(limit, ws, ss, reg, o, y.(admission := Announced(1)), 0, Confirm, 0,
                        (o, y.(admission := Confirmed(1, 0))));
    x := y.(engine := Some(Engine(1, true)));
    ws, ss := SoloMoves(limit, ws, ss, reg, o, y.(admission := Confirmed(1, 0)), 0, Publish, 0,
                        (o, x.(admission := Published(1))));
    ws, ss := SoloMoves(limit, ws, ss, reg, o, x.(admission := Published(1)), 0, Finish(true, false), 0, (o, x));
  }

  /** It reads that the tenant is disabled, stops its engine, and acknowledges. */
  lemma Drained(limit: Time, ws: seq<World>, ss: seq<Step>, x: Instance)
      returns (ws': seq<World>, ss': seq<Step>, y: Instance)
    requires Run(limit, ws, ss) && ws[|ss|] == Solo(Registry(2, false, 1), Some(Observation(1, false, 0)), x, 0)
    requires x == FRESH.(lastRead := Some(0), seen := 1, newest := 1, engine := Some(Engine(1, true)))
    ensures Run(limit, ws', ss') && ws'[|ss'|] == Solo(Registry(2, false, 1), Some(Observation(2, true, 0)), y, 0)
    ensures y.engine.None? && ws <= ws' && ss < ss'
  {
    var reg, o, row := Registry(2, false, 1), Some(Observation(1, false, 0)), Row(2, false);
    var z := x.(newest := 2);
    ws', ss' := SoloMoves(limit, ws, ss, reg, o, x, 0, BeginPass, 0, (o, x.(pass := Started(0))));
    ws', ss' := SoloMoves(limit, ws', ss', reg, o, x.(pass := Started(0)), 0, ReadRegistry(true), 0,
                          (o, z.(pass := HasRead(0, row))));
    y := z.(pass := Sorted(0, row, false), engine := Some(Engine(1, false)), draining := true, ackFor := 2);
    ws', ss' := SoloMoves(limit, ws', ss', reg, o, z.(pass := HasRead(0, row)), 0, RetireSuperseded(false), 0, (o, y));
    z := y.(engine := None, draining := false, seen := 0, acks := y.acks + {2});
    ws', ss' := SoloMoves(limit, ws', ss', reg, o, y, 0, RetirementEnds, 0, (o, z));
    y := z.(acks := z.acks - {2});
    ws', ss' := SoloMoves(limit, ws', ss', reg, o, z, 0, Acknowledge(2, true, true), 0,
                          (Some(Observation(2, true, 0)), y));
  }

  /** The procedure works: an instance serves the tenant, the tenant is disabled, the instance drains and says so,
      and the tenant is re-pointed, without anybody waiting for an observation to grow old. */
  lemma CutoverSucceeds(limit: Time) returns (ws: seq<World>, ss: seq<Step>, i: nat)
    requires 0 <= limit
    ensures Run(limit, ws, ss) && i < |ss| && 0 in ws[i].members && Acting(ws[i].members[0], limit, ss[i].t)
    ensures ss[|ss| - 1] == Step(SetDSN(2, true), 0) && ws[|ss|].reg == Registry(3, false, 2)
  {
    var x, y;
    ws, ss, x := Serving(limit);
    i := |ss|;
    var off := Step(SetEnabled(false), 0);
    ws, ss := ws + [Next(limit, ws[|ss|], off)], ss + [off];
    ws, ss, y := Drained(limit, ws, ss, x);
    var move := Step(SetDSN(2, true), 0);
    ws, ss := ws + [Next(limit, ws[|ss|], move)], ss + [move];
  }

  /** An instance never publishes an engine older than what it has read: once it has read a disable or a
      newer generation, the admission it started for an older one comes to nothing. */
  lemma PublishesNewestOnly(limit: Time, ws: seq<World>, ss: seq<Step>, k: nat, i: Member)
    requires Run(limit, ws, ss) && k < |ss| && i in ws[k].members
    requires ss[k].act == MemberMove(i, Publish)
    requires ws[k].members[i].engine.None? && i in ws[k + 1].members && ws[k + 1].members[i].engine.Some?
    ensures ws[k + 1].members[i].engine.value.generation == ws[k].members[i].newest
  {
    Reachable(limit, ws, ss, k);
  }
}
