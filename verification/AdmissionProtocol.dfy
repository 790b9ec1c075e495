/** The host-wide admission protocol as a transition system. Any number of
    processes run at once; a check holds the admission lock but is not one
    step: it measures the host, lists the reservations, reads each one with its
    owner's footprint, (for background work) lists and probes the live servers'
    notices, decides, settles its own notice, and unlocks. Loads, unloads,
    releases, deaths, new processes and watchdog ticks interleave anywhere. */
module AdmissionProtocol {
  import opened Common
  import opened MemoryAdmission

  // ----------------------------------------------- one live server's notice

  datatype Cause = Waiting | PastBackground | ReloadPending

  /** `LiveServerAdmission`'s own state and its notice; the notice is up
      exactly while `postedAt` is set. Times are milliseconds. */
  datatype Server = Server(cause: Option<Cause>, lastRefusalAt: Option<int>, postedAt: Option<int>)

  const IDLE_SERVER := Server(None, None, None)

  function PostedFor(s: Server, now: int): Option<int> {
    if s.postedAt == None then None else Some(Max(0, now - s.postedAt.value))
  }

  /** Background promises count from the start of a wait until it is `yield` old. */
  predicate PromisesCount(s: Server, now: int, yield': int) {
    yield' > 0 && (PostedFor(s, now) == None || PostedFor(s, now).value < yield')
  }

  /** Posting keeps a notice that is already up; `ok` is whether the
      filesystem lets a new one be written. The cause is set either way. */
  function Post(s: Server, cause: Cause, now: int, ok: bool): Server {
    s.(cause := Some(cause), postedAt := if s.postedAt == None && ok then Some(now) else s.postedAt)
  }

  function Withdraw(s: Server): Server {
    IDLE_SERVER
  }

  function Settle(s: Server, d: Decision, now: int, ok: bool): Server {
    if d.admitted && d.setAside != [] then Post(s, PastBackground, now, ok)
    else if d.admitted then Withdraw(s)
    else Post(s.(lastRefusalAt := Some(now)), Waiting, now, ok)
  }

  predicate TickWithdraws(s: Server, now: int, lapse: int, backgroundRunning: bool) {
    match s.cause
    case Some(Waiting) => s.lastRefusalAt.Some? && now - s.lastRefusalAt.value >= lapse
    case Some(PastBackground) => !backgroundRunning
    case _ => false
  }

  function Tick(s: Server, now: int, lapse: int, backgroundRunning: bool): Server {
    if TickWithdraws(s, now, lapse, backgroundRunning) then Withdraw(s) else s
  }

  // ---------------------------------------------------------------- the host

  datatype Config = Config(reserve: nat, maxPressure: Pressure, yield': int, lapse: int)

  datatype Phase =
    | Locked
    | Measured(memory: HostMemory)
    | Reading(memory: HostMemory, todo: set<Pid>, others: seq<OtherReservation>)
    | Probing(memory: HostMemory, others: seq<OtherReservation>, names: set<Pid>, waiting: seq<Pid>)
    | Decided(decision: Decision)
    | Settled

  /** The check in flight. `drift` is a history count, read by no step: what
      other processes took since this check measured the host and which it
      cannot see (it has not been measured, and lowers no promise still to be
      read that this check would count in full). */
  datatype Check = Check(pid: Pid, role: Role, live: bool, required: nat, countBackground: bool, phase: Phase,
                         drift: nat)

  /** `footprint` has exactly the running processes. `files` is the
      reservations directory. `servers` has the running live servers, and
      `asking` those that have begun a check, with whether background promises
      count in it. Two history values, read by no step: `entitled`, the
      processes whose own reservation is in force (a file that outlived its
      process entitles nobody), and `debt`, what has been taken from the host,
      set aside or missed since the last admission measured it. */
  datatype Host = Host(
    now: int,
    available: int,
    pressure: Pressure,
    footprint: map<Pid, nat>,
    files: map<Pid, Reservation>,
    servers: map<Pid, Server>,
    asking: map<Pid, bool>,
    check: Option<Check>,
    entitled: set<Pid>,
    debt: nat)

  datatype Event =
    | Clock(to: int)
    | KernelPressure(level: Pressure)
    | HostTakes(bytes: nat)
    | HostFrees(bytes: nat)
    | Spawn(pid: Pid, server: bool)
    | Die(pid: Pid)
    | Load(pid: Pid, bytes: nat)
    | Unload(pid: Pid, bytes: nat)
    | Grow(pid: Pid, bytes: nat)
    | BeginLiveCheck(pid: Pid)
    | Lock(pid: Pid, role: Role, required: nat)
    | Measure(memory: HostMemory)
    | ListReservations
    | ReadReservation(pid: Pid, readable: bool)
    | ListNotices
    | ProbeNotice(pid: Pid)
    | DecideNow
    | SettleNow(ok: bool)
    | Unlock
    | FailCheck
    | ReleaseReservation(pid: Pid)
    | WithdrawOnRelease(pid: Pid)
    | PostReload(pid: Pid, ok: bool)
    | TickNow(pid: Pid, readable: bool)

  predicate Posted(h: Host, p: Pid) {
    p in h.servers && h.servers[p].postedAt.Some?
  }

  predicate AtLocked(h: Host) {
    h.check.Some? && h.check.value.phase.Locked?
  }

  predicate AtMeasured(h: Host) {
    h.check.Some? && h.check.value.phase.Measured?
  }

  predicate AtReading(h: Host) {
    h.check.Some? && h.check.value.phase.Reading?
  }

  predicate AtProbing(h: Host) {
    h.check.Some? && h.check.value.phase.Probing?
  }

  predicate AtDecided(h: Host) {
    h.check.Some? && h.check.value.phase.Decided?
  }

  predicate AtSettled(h: Host) {
    h.check.Some? && h.check.value.phase.Settled?
  }

  /** A running process other than `own` holds a background reservation. */
  predicate BackgroundRunning(h: Host, own: Pid) {
    exists p :: p in h.files && p != own && p in h.footprint && !h.files[p].IsLive()
  }

  predicate Enabled(h: Host, e: Event) {
    match e
    case Clock(to) => h.now <= to
    case KernelPressure(_) => true
    case HostTakes(_) => true
    case HostFrees(_) => true
    case Spawn(p, _) => p !in h.footprint
    case Die(p) => p in h.footprint
    case Load(p, n) => p in h.entitled && p in h.files && p in h.footprint && h.footprint[p] + n <= h.files[p].reserved
    case Unload(p, n) => p in h.footprint && n <= h.footprint[p]
    case Grow(p, _) => p in h.footprint
    case BeginLiveCheck(p) => p in h.servers && p !in h.asking
    case Lock(p, _, _) => h.check == None && p in h.footprint && (p in h.servers ==> p in h.asking)
    case Measure(m) => AtLocked(h) && m.Available() == h.available && m.pressure == h.pressure
    case ListReservations => AtMeasured(h)
    case ReadReservation(q, _) => AtReading(h) && q in h.check.value.phase.todo
    case ListNotices => AtReading(h) && h.check.value.phase.todo == {} && !h.check.value.live
    case ProbeNotice(q) => AtProbing(h) && q in h.check.value.phase.names
    case DecideNow =>
      || (AtReading(h) && h.check.value.live && h.check.value.phase.todo == {})
      || (AtProbing(h) && h.check.value.phase.names == {})
    case SettleNow(_) => AtDecided(h) && h.check.value.live && h.check.value.pid in h.servers
    case Unlock => AtSettled(h) || (AtDecided(h) && !h.check.value.live)
    case FailCheck => AtLocked(h) || InWindow(h)
    case ReleaseReservation(p) => p in h.footprint
    case WithdrawOnRelease(p) => p in h.servers
    case PostReload(p, _) => p in h.servers
    case TickNow(p, _) => p in h.servers
  }

  // ------------------------------------------------------------- its steps

  function WithPhase(h: Host, phase: Phase): Host
    requires h.check.Some?
  {
    h.(check := Some(h.check.value.(phase := phase)))
  }

  /** The check in flight has measured the host and not yet decided. */
  predicate InWindow(h: Host) {
    AtMeasured(h) || AtReading(h) || AtProbing(h)
  }

  /** ... and has still to read `p`'s reservation and footprint. */
  predicate Unread(h: Host, p: Pid) {
    AtMeasured(h) || (AtReading(h) && p in h.check.value.phase.todo)
  }

  function AddDrift(h: Host, n: nat): Host {
    if InWindow(h) then h.(check := Some(h.check.value.(drift := h.check.value.drift + n))) else h
  }

  function LoadStep(h: Host, p: Pid, n: nat): Host
    requires p in h.footprint
  {
    var h' := h.(available := h.available - n, footprint := h.footprint[p := h.footprint[p] + n]);
    if Unread(h, p) || (InWindow(h) && h.check.value.pid == p) then AddDrift(h', n) else h'
  }

  function UnloadStep(h: Host, p: Pid, n: nat): Host
    requires Enabled(h, Unload(p, n))
  {
    h.(available := h.available + n, footprint := h.footprint[p := h.footprint[p] - n])
  }

  /** What a process takes beyond its reservation, or without one. */
  function GrowStep(h: Host, p: Pid, n: nat): Host
    requires p in h.footprint
  {
    AddDrift(h.(available := h.available - n, footprint := h.footprint[p := h.footprint[p] + n], debt := h.debt + n), n)
  }

  function DieStep(h: Host, p: Pid): Host
    requires p in h.footprint
  {
    h.(available := h.available + h.footprint[p], footprint := h.footprint - {p}, servers := h.servers - {p},
       asking := h.asking - {p}, entitled := h.entitled - {p},
       check := if h.check.Some? && h.check.value.pid == p then None else h.check)
  }

  function ReadStep(h: Host, q: Pid, readable: bool): Host
    requires Enabled(h, ReadReservation(q, readable))
  {
    var c := h.check.value;
    var rest := c.phase.todo - {q};
    if q !in h.files || q == c.pid then WithPhase(h, Reading(c.phase.memory, rest, c.phase.others))
    else if q !in h.footprint then WithPhase(h, Reading(c.phase.memory, rest, c.phase.others)).(files := h.files - {q})
    else
      var seen := OtherReservation(h.files[q], if readable then Some(h.footprint[q]) else None);
      WithPhase(h, Reading(c.phase.memory, rest, c.phase.others + [seen]))
  }

  function DecisionOf(cfg: Config, h: Host): Decision
    requires Enabled(h, DecideNow)
  {
    var c := h.check.value;
    CheckDecision(c.live, c.countBackground, c.phase.memory, c.required, cfg.reserve, cfg.maxPressure, c.phase.others,
                  if c.phase.Probing? then c.phase.waiting else [])
  }

  function DecideStep(cfg: Config, h: Host): Host
    requires Enabled(h, DecideNow)
  {
    var c := h.check.value;
    var d := DecisionOf(cfg, h);
    var h' := WithPhase(h, Decided(d));
    if !d.admitted then h'
    else h'.(files := h.files[c.pid := Reservation(c.pid, c.role, c.required, Some(c.live))],
             entitled := h.entitled + {c.pid},
             debt := c.drift + SumPromised(d.setAside))
  }

  function Apply(cfg: Config, h: Host, e: Event): Host
    requires Enabled(h, e)
  {
    match e
    case Clock(to) => h.(now := to)
    case KernelPressure(level) => h.(pressure := level)
    case HostTakes(n) => AddDrift(h.(available := h.available - n, debt := h.debt + n), n)
    case HostFrees(n) => h.(available := h.available + n)
    case Spawn(p, server) =>
      h.(footprint := h.footprint[p := 0], servers := if server then h.servers[p := IDLE_SERVER] else h.servers)
    case Die(p) => DieStep(h, p)
    case Load(p, n) => LoadStep(h, p, n)
    case Unload(p, n) => UnloadStep(h, p, n)
    case Grow(p, n) => GrowStep(h, p, n)
    case BeginLiveCheck(p) => h.(asking := h.asking[p := PromisesCount(h.servers[p], h.now, cfg.yield')])
    case Lock(p, role, required) =>
      var countBackground := if p in h.servers then h.asking[p] else true;
      h.(check := Some(Check(p, role, p in h.servers, required, countBackground, Locked, 0)))
    case Measure(m) => WithPhase(h, Measured(m))
    case ListReservations => WithPhase(h, Reading(h.check.value.phase.memory, h.files.Keys, []))
    case ReadReservation(q, readable) => ReadStep(h, q, readable)
    case ListNotices =>
      var ph := h.check.value.phase;
      WithPhase(h, Probing(ph.memory, ph.others, set p | p in h.servers && Posted(h, p), []))
    case ProbeNotice(q) =>
      var ph := h.check.value.phase;
      WithPhase(h, Probing(ph.memory, ph.others, ph.names - {q}, if Posted(h, q) then ph.waiting + [q] else ph.waiting))
    case DecideNow => DecideStep(cfg, h)
    case SettleNow(ok) =>
      var c := h.check.value;
      WithPhase(h, Settled).(servers := h.servers[c.pid := Settle(h.servers[c.pid], c.phase.decision, h.now, ok)])
    case Unlock => h.(check := None, asking := h.asking - {h.check.value.pid})
    case FailCheck => h.(check := None, asking := h.asking - {h.check.value.pid})
    case ReleaseReservation(p) => h.(files := h.files - {p}, entitled := h.entitled - {p})
    case WithdrawOnRelease(p) => h.(servers := h.servers[p := Withdraw(h.servers[p])])
    case PostReload(p, ok) => h.(servers := h.servers[p := Post(h.servers[p], ReloadPending, h.now, ok)])
    case TickNow(p, readable) =>
      h.(servers := h.servers[p := Tick(h.servers[p], h.now, cfg.lapse, !readable || BackgroundRunning(h, p))])
  }

  // ------------------------------------------------------------------- runs

  /** Every event of the run is enabled where it happens. */
  predicate Run(cfg: Config, h: Host, events: seq<Event>)
    decreases |events|
  {
    events == [] || (Enabled(h, events[0]) && Run(cfg, Apply(cfg, h, events[0]), events[1..]))
  }

  function After(cfg: Config, h: Host, events: seq<Event>): Host
    requires Run(cfg, h, events)
    decreases |events|
  {
    if events == [] then h else After(cfg, Apply(cfg, h, events[0]), events[1..])
  }

  lemma {:induction false} RunSnoc(cfg: Config, h: Host, events: seq<Event>, e: Event)
    requires Run(cfg, h, events) && Enabled(After(cfg, h, events), e)
    ensures Run(cfg, h, events + [e])
    ensures After(cfg, h, events + [e]) == Apply(cfg, After(cfg, h, events), e)
    decreases |events|
  {
    if events == [] {
      assert Run(cfg, Apply(cfg, h, e), []);
    } else {
      assert (events + [e])[1..] == events[1..] + [e];
      RunSnoc(cfg, Apply(cfg, h, events[0]), events[1..], e);
    }
  }

  /** A host on which no model process runs yet. */
  predicate Fresh(cfg: Config, h: Host) {
    && h.available >= cfg.reserve
    && h.footprint == map[] && h.servers == map[] && h.asking == map[]
    && h.check == None && h.entitled == {} && h.debt == 0
    && forall p :: p in h.files ==> h.files[p].pid == p
  }
}
