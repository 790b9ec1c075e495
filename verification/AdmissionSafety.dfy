/** No over-promising: on every run, what the host has available covers the
    reserve and every promise in force, up to a debt that bounds what was taken,
    set aside or missed since the last admission measured the host. */
module AdmissionSafety {
  import opened Common
  import opened MemoryAdmission
  import opened AdmissionProtocol

  // ------------------------------------------------- promises, and their sum

  type Files = map<Pid, Reservation>
  type Footprints = map<Pid, nat>

  /** What each of `who` was admitted for and has not taken. */
  function Promises(who: set<Pid>, files: Files, footprint: Footprints): map<Pid, nat> {
    map p | p in who && p in files && p in footprint :: Max(0, files[p].reserved - footprint[p])
  }

  ghost function Owed(who: set<Pid>, files: Files, footprint: Footprints): nat {
    Total(Promises(who, files, footprint))
  }

  lemma OwedAgrees(who: set<Pid>, files: Files, footprint: Footprints, files': Files, footprint': Footprints)
    requires forall p :: p in who ==> (p in files <==> p in files') && (p in footprint <==> p in footprint')
    requires forall p :: p in who && p in files && p in footprint ==>
               files[p] == files'[p] && footprint[p] == footprint'[p]
    ensures Owed(who, files, footprint) == Owed(who, files', footprint')
  {
    assert Promises(who, files, footprint) == Promises(who, files', footprint');
  }

  lemma OwedWithout(who: set<Pid>, files: Files, footprint: Footprints, p: Pid)
    ensures Owed(who, files, footprint) == Owed(who - {p}, files, footprint) + At(Promises(who, files, footprint), p)
  {
    var m, m' := Promises(who, files, footprint), Promises(who - {p}, files, footprint);
    assert m - {p} == m' - {p};
    TotalMoves(m, m', p);
  }

  /** Taking memory one was promised lowers the promise by as much, giving it
      back raises it by at most as much. */
  lemma OwedMoves(who: set<Pid>, files: Files, footprint: Footprints, p: Pid, to: nat)
    requires p in footprint
    ensures p !in who || p !in files ==> Owed(who, files, footprint[p := to]) == Owed(who, files, footprint)
    ensures p in who && p in files ==>
      Owed(who, files, footprint[p := to]) == Owed(who, files, footprint)
        + Max(0, files[p].reserved - to) - Max(0, files[p].reserved - footprint[p])
  {
    var m, m' := Promises(who, files, footprint), Promises(who, files, footprint[p := to]);
    assert m - {p} == m' - {p};
    TotalMoves(m, m', p);
  }

  lemma OwedAtMost(who: set<Pid>, files: Files, footprint: Footprints, p: Pid, to: nat)
    requires p in footprint
    ensures Owed(who, files, footprint[p := to]) <= Owed(who, files, footprint) + Max(0, footprint[p] - to)
  {
    OwedMoves(who, files, footprint, p, to);
  }

  /** ... and within the reservation it lowers the promise by exactly as much. */
  lemma OwedFalls(who: set<Pid>, files: Files, footprint: Footprints, p: Pid, n: nat)
    requires p in footprint && p in files && footprint[p] + n <= files[p].reserved
    ensures Owed(who, files, footprint[p := footprint[p] + n])
              == Owed(who, files, footprint) - if p in who then n else 0
  {
    OwedMoves(who, files, footprint, p, footprint[p] + n);
  }

  // ------------------------------------------------------------ the invariant

  /** The promises in force that the check in flight has already read. */
  function ReadSet(h: Host): set<Pid> {
    if AtReading(h) then h.entitled - {h.check.value.pid} - h.check.value.phase.todo
    else if AtProbing(h) then h.entitled - {h.check.value.pid}
    else {}
  }

  function SeenSoFar(h: Host): seq<OtherReservation> {
    if AtReading(h) || AtProbing(h) then h.check.value.phase.others else []
  }

  ghost predicate WellFormed(h: Host) {
    && h.servers.Keys <= h.footprint.Keys
    && h.asking.Keys <= h.servers.Keys
    && h.entitled <= h.footprint.Keys && h.entitled <= h.files.Keys
    && (forall p :: p in h.files ==> h.files[p].pid == p)
    && (h.check.Some? ==> h.check.value.pid in h.footprint)
    && (h.check.Some? ==> (h.check.value.live <==> h.check.value.pid in h.servers))
    && (AtProbing(h) ==> !h.check.value.live)
  }

  /** The promise the protocol makes to the rest of the host. */
  ghost predicate Covered(cfg: Config, h: Host) {
    h.available + h.debt >= cfg.reserve + Owed(h.entitled, h.files, h.footprint)
  }

  /** A check in flight never sees more room than there is, up to its drift. */
  ghost predicate WindowCovered(h: Host) {
    InWindow(h) ==>
      h.available + h.check.value.drift + SumPromised(SeenSoFar(h))
        >= h.check.value.phase.memory.Available() + Owed(ReadSet(h), h.files, h.footprint)
  }

  ghost predicate Inv(cfg: Config, h: Host) {
    WellFormed(h) && Covered(cfg, h) && WindowCovered(h)
  }

  lemma FreshHostIsCovered(cfg: Config, h: Host)
    requires Fresh(cfg, h)
    ensures Inv(cfg, h)
  {
    assert Promises(h.entitled, h.files, h.footprint) == map[];
  }

  /** The steps that move a check on. */
  predicate ByCheck(e: Event) {
    || e.Lock? || e.Measure? || e.ListReservations? || e.ReadReservation? || e.ListNotices? || e.ProbeNotice?
    || e.DecideNow? || e.SettleNow? || e.Unlock? || e.FailCheck?
  }

  lemma WellFormedIsKeptByChecks(cfg: Config, h: Host, e: Event)
    requires WellFormed(h) && Enabled(h, e) && ByCheck(e) && !e.DecideNow? && !e.ReadReservation?
    ensures WellFormed(Apply(cfg, h, e))
  {
  }

  lemma WellFormedIsKeptOnDeath(cfg: Config, h: Host, p: Pid)
    requires WellFormed(h) && Enabled(h, Die(p))
    ensures WellFormed(Apply(cfg, h, Die(p)))
  {
  }

  lemma WellFormedIsKeptByDeciding(cfg: Config, h: Host)
    requires WellFormed(h) && Enabled(h, DecideNow)
    ensures WellFormed(DecideStep(cfg, h))
  {
  }

  lemma WellFormedIsKeptByReading(h: Host, q: Pid, readable: bool)
    requires WellFormed(h) && Enabled(h, ReadReservation(q, readable))
    ensures WellFormed(ReadStep(h, q, readable))
  {
  }

  /** The steps that touch no process, reservation or check. */
  predicate BySurroundings(e: Event) {
    e.Clock? || e.KernelPressure? || e.HostTakes? || e.HostFrees?
  }

  /** The steps of one live server outside its checks. */
  predicate ByServer(e: Event) {
    e.BeginLiveCheck? || e.WithdrawOnRelease? || e.PostReload? || e.TickNow?
  }

  /** The steps of one process with its own memory. */
  predicate ByProcess(e: Event) {
    e.Load? || e.Unload? || e.Grow? || e.ReleaseReservation?
  }

  lemma WellFormedIsKeptBySurroundings(cfg: Config, h: Host, e: Event)
    requires WellFormed(h) && Enabled(h, e) && BySurroundings(e)
    ensures WellFormed(Apply(cfg, h, e))
  {
  }

  lemma WellFormedIsKeptByServers(cfg: Config, h: Host, e: Event)
    requires WellFormed(h) && Enabled(h, e) && ByServer(e)
    ensures WellFormed(Apply(cfg, h, e))
  {
  }

  lemma WellFormedIsKeptByLoading(h: Host, p: Pid, n: nat)
    requires WellFormed(h) && Enabled(h, Load(p, n))
    ensures WellFormed(LoadStep(h, p, n))
  {
  }

  lemma WellFormedIsKeptByProcesses(cfg: Config, h: Host, e: Event)
    requires WellFormed(h) && Enabled(h, e) && ByProcess(e)
    ensures WellFormed(Apply(cfg, h, e))
  {
    if e.Load? {
      WellFormedIsKeptByLoading(h, e.pid, e.bytes);
    }
  }

  lemma WellFormedIsKeptByStarting(cfg: Config, h: Host, p: Pid, server: bool)
    requires WellFormed(h) && Enabled(h, Spawn(p, server))
    ensures WellFormed(Apply(cfg, h, Spawn(p, server)))
  {
  }

  lemma WellFormedIsKept(cfg: Config, h: Host, e: Event)
    requires WellFormed(h) && Enabled(h, e)
    ensures WellFormed(Apply(cfg, h, e))
  {
    if e.DecideNow? {
      WellFormedIsKeptByDeciding(cfg, h);
    } else if e.ReadReservation? {
      WellFormedIsKeptByReading(h, e.pid, e.readable);
    } else if ByCheck(e) {
      WellFormedIsKeptByChecks(cfg, h, e);
    } else if e.Die? {
      WellFormedIsKeptOnDeath(cfg, h, e.pid);
    } else if BySurroundings(e) {
      WellFormedIsKeptBySurroundings(cfg, h, e);
    } else if ByServer(e) {
      WellFormedIsKeptByServers(cfg, h, e);
    } else if ByProcess(e) {
      WellFormedIsKeptByProcesses(cfg, h, e);
    } else {
      WellFormedIsKeptByStarting(cfg, h, e.pid, e.server);
    }
  }

  // ------------------------------------------------ steps by one process

  /** The check in flight has read as much in `h'` as in `h`. */
  predicate SameWindow(h: Host, h': Host) {
    && (InWindow(h) <==> InWindow(h'))
    && ReadSet(h') == ReadSet(h) && SeenSoFar(h') == SeenSoFar(h)
    && (InWindow(h) ==> h'.check.value.phase == h.check.value.phase)
  }

  /** Whatever a step makes the promises already read grow by, it must add to
      what the check can still find. */
  lemma WindowStaysCovered(h: Host, h': Host)
    requires WindowCovered(h) && SameWindow(h, h')
    requires InWindow(h) ==>
               h'.available + h'.check.value.drift - h.available - h.check.value.drift
                 >= Owed(ReadSet(h), h'.files, h'.footprint) - Owed(ReadSet(h), h.files, h.footprint)
    ensures WindowCovered(h')
  {
  }

  /** `p`'s footprint goes from what it is to `to`, and nothing else happens to
      the promises in force. */
  predicate Moves(h: Host, h': Host, p: Pid, to: nat) {
    && p in h.footprint && h'.entitled == h.entitled && h'.files == h.files
    && h'.footprint == h.footprint[p := to] && SameWindow(h, h')
  }

  /** Memory given back may raise a promise by as much; memory taken, by none. */
  lemma MovingKeepsCover(cfg: Config, h: Host, h': Host, p: Pid, to: nat)
    requires Covered(cfg, h) && WindowCovered(h) && Moves(h, h', p, to)
    requires h'.available + h'.debt >= h.available + h.debt + Max(0, h.footprint[p] - to)
    requires InWindow(h) ==>
               h'.available + h'.check.value.drift >= h.available + h.check.value.drift + Max(0, h.footprint[p] - to)
    ensures Covered(cfg, h') && WindowCovered(h')
  {
    OwedAtMost(h.entitled, h.files, h.footprint, p, to);
    OwedAtMost(ReadSet(h), h.files, h.footprint, p, to);
    WindowStaysCovered(h, h');
  }

  /** Memory taken that was promised lowers the promise by as much. A load the
      check in flight has already counted lowers a promise it counted; any other
      is drift. */
  lemma LoadingKeepsCover(cfg: Config, h: Host, h': Host, p: Pid, n: nat)
    requires Covered(cfg, h) && WindowCovered(h) && p in h.footprint && Moves(h, h', p, h.footprint[p] + n)
    requires p in h.entitled && p in h.files && h.footprint[p] + n <= h.files[p].reserved
    requires h'.available == h.available - n && h'.debt == h.debt
    requires InWindow(h) ==> h'.check.value.drift == h.check.value.drift + if p in ReadSet(h) then 0 else n
    ensures Covered(cfg, h') && WindowCovered(h')
  {
    OwedFalls(h.entitled, h.files, h.footprint, p, n);
    LoadingKeepsWindow(h, h', p, n);
  }

  lemma LoadingKeepsWindow(h: Host, h': Host, p: Pid, n: nat)
    requires WindowCovered(h) && p in h.footprint && Moves(h, h', p, h.footprint[p] + n)
    requires p in h.files && h.footprint[p] + n <= h.files[p].reserved && h'.available == h.available - n
    requires InWindow(h) ==> h'.check.value.drift == h.check.value.drift + if p in ReadSet(h) then 0 else n
    ensures WindowCovered(h')
  {
    OwedFalls(ReadSet(h), h.files, h.footprint, p, n);
    WindowStaysCovered(h, h');
  }

  lemma LoadKeepsCover(cfg: Config, h: Host, p: Pid, n: nat)
    requires Inv(cfg, h) && Enabled(h, Load(p, n))
    ensures Covered(cfg, LoadStep(h, p, n)) && WindowCovered(LoadStep(h, p, n))
  {
    LoadFrame(h, p, n);
    if p in ReadSet(h) {
      CountedLoad(h, p, n);
    } else {
      DriftingLoad(h, p, n);
    }
    LoadingKeepsCover(cfg, h, LoadStep(h, p, n), p, n);
  }

  lemma LoadFrame(h: Host, p: Pid, n: nat)
    requires Enabled(h, Load(p, n))
    ensures var h' := LoadStep(h, p, n);
            && h'.entitled == h.entitled && h'.files == h.files && h'.debt == h.debt
            && h'.available == h.available - n && h'.footprint == h.footprint[p := h.footprint[p] + n]
  {
  }

  lemma CountedLoad(h: Host, p: Pid, n: nat)
    requires Enabled(h, Load(p, n)) && p in ReadSet(h)
    ensures LoadStep(h, p, n).check == h.check && SameWindow(h, LoadStep(h, p, n))
  {
  }

  lemma DriftingLoad(h: Host, p: Pid, n: nat)
    requires Enabled(h, Load(p, n)) && p !in ReadSet(h)
    ensures SameWindow(h, LoadStep(h, p, n))
    ensures InWindow(h) ==> LoadStep(h, p, n).check.value.drift == h.check.value.drift + n
  {
  }

  lemma UnloadKeepsCover(cfg: Config, h: Host, p: Pid, n: nat)
    requires Inv(cfg, h) && Enabled(h, Unload(p, n))
    ensures Covered(cfg, UnloadStep(h, p, n)) && WindowCovered(UnloadStep(h, p, n))
  {
    UnloadFrame(h, p, n);
    MovingKeepsCover(cfg, h, UnloadStep(h, p, n), p, h.footprint[p] - n);
  }

  lemma UnloadFrame(h: Host, p: Pid, n: nat)
    requires Enabled(h, Unload(p, n))
    ensures SameWindow(h, UnloadStep(h, p, n)) && UnloadStep(h, p, n).check == h.check
  {
  }

  lemma GrowKeepsCover(cfg: Config, h: Host, p: Pid, n: nat)
    requires Inv(cfg, h) && Enabled(h, Grow(p, n))
    ensures Covered(cfg, GrowStep(h, p, n)) && WindowCovered(GrowStep(h, p, n))
  {
    GrowFrame(h, p, n);
    MovingKeepsCover(cfg, h, GrowStep(h, p, n), p, h.footprint[p] + n);
  }

  lemma GrowFrame(h: Host, p: Pid, n: nat)
    requires p in h.footprint
    ensures var h' := GrowStep(h, p, n);
            && h'.entitled == h.entitled && h'.files == h.files && h'.debt == h.debt + n
            && h'.available == h.available - n && h'.footprint == h.footprint[p := h.footprint[p] + n]
            && SameWindow(h, h') && (InWindow(h) ==> h'.check.value.drift == h.check.value.drift + n)
  {
  }

  lemma ReleaseKeepsCover(cfg: Config, h: Host, p: Pid)
    requires Inv(cfg, h) && Enabled(h, ReleaseReservation(p))
    ensures Covered(cfg, Apply(cfg, h, ReleaseReservation(p))) && WindowCovered(Apply(cfg, h, ReleaseReservation(p)))
  {
    var h' := Apply(cfg, h, ReleaseReservation(p));
    OwedWithout(h.entitled, h.files, h.footprint, p);
    OwedWithout(ReadSet(h), h.files, h.footprint, p);
    OwedAgrees(h'.entitled, h.files, h.footprint, h'.files, h.footprint);
    assert ReadSet(h') == ReadSet(h) - {p} && SeenSoFar(h') == SeenSoFar(h);
    OwedAgrees(ReadSet(h'), h.files, h.footprint, h'.files, h.footprint);
  }

  lemma DeathKeepsCover(cfg: Config, h: Host, p: Pid)
    requires Inv(cfg, h) && Enabled(h, Die(p))
    ensures Covered(cfg, Apply(cfg, h, Die(p))) && WindowCovered(Apply(cfg, h, Die(p)))
  {
    var h' := Apply(cfg, h, Die(p));
    OwedWithout(h.entitled, h.files, h.footprint, p);
    OwedAgrees(h'.entitled, h.files, h.footprint, h.files, h'.footprint);
    if InWindow(h') {
      OwedWithout(ReadSet(h), h.files, h.footprint, p);
      assert ReadSet(h') == ReadSet(h) - {p} && SeenSoFar(h') == SeenSoFar(h);
      OwedAgrees(ReadSet(h'), h.files, h.footprint, h.files, h'.footprint);
    }
  }

  /** A new process is entitled to nothing, even under a pid whose last owner
      left a reservation behind. */
  lemma SpawnKeepsCover(cfg: Config, h: Host, p: Pid, server: bool)
    requires Inv(cfg, h) && Enabled(h, Spawn(p, server))
    ensures Covered(cfg, Apply(cfg, h, Spawn(p, server))) && WindowCovered(Apply(cfg, h, Spawn(p, server)))
  {
    var h' := Apply(cfg, h, Spawn(p, server));
    OwedAgrees(h.entitled, h.files, h.footprint, h.files, h'.footprint);
    assert ReadSet(h') == ReadSet(h) && SeenSoFar(h') == SeenSoFar(h);
    OwedAgrees(ReadSet(h), h.files, h.footprint, h.files, h'.footprint);
  }

  // ------------------------------------------------------ steps of a check

  /** Reading a reservation whose owner is gone, or one's own. */
  lemma SkippingKeepsCover(cfg: Config, h: Host, q: Pid, readable: bool)
    requires Inv(cfg, h) && Enabled(h, ReadReservation(q, readable))
    requires q !in h.files || q == h.check.value.pid || q !in h.footprint
    ensures Covered(cfg, ReadStep(h, q, readable)) && WindowCovered(ReadStep(h, q, readable))
  {
    var h' := ReadStep(h, q, readable);
    OwedAgrees(h.entitled, h.files, h.footprint, h'.files, h.footprint);
    assert ReadSet(h') == ReadSet(h) && SeenSoFar(h') == SeenSoFar(h);
    OwedAgrees(ReadSet(h), h.files, h.footprint, h'.files, h.footprint);
  }

  lemma ReadingKeepsCover(cfg: Config, h: Host, q: Pid, readable: bool)
    requires Inv(cfg, h) && Enabled(h, ReadReservation(q, readable))
    requires q in h.files && q != h.check.value.pid && q in h.footprint
    ensures Covered(cfg, ReadStep(h, q, readable)) && WindowCovered(ReadStep(h, q, readable))
  {
    var h' := ReadStep(h, q, readable);
    var seen := OtherReservation(h.files[q], if readable then Some(h.footprint[q]) else None);
    SumAppend(SeenSoFar(h), seen);
    assert ReadSet(h') - {q} == ReadSet(h) - {q};
    OwedWithout(ReadSet(h'), h.files, h.footprint, q);
    OwedWithout(ReadSet(h), h.files, h.footprint, q);
    assert q !in ReadSet(h);
  }

  /** What a check that says yes has established: room for the newcomer, the
      reserve, and every other promise in force. */
  lemma AdmissionFindsRoom(cfg: Config, h: Host)
    requires Inv(cfg, h) && Enabled(h, DecideNow) && DecisionOf(cfg, h).admitted
    ensures h.available + h.check.value.drift + SumPromised(DecisionOf(cfg, h).setAside)
              >= h.check.value.required + cfg.reserve + Owed(ReadSet(h), h.files, h.footprint)
  {
    var c := h.check.value;
    EveryPromiseCountsOrIsSetAside(c.live, c.countBackground, c.phase.memory, c.required, cfg.reserve, cfg.maxPressure,
                                   c.phase.others, if c.phase.Probing? then c.phase.waiting else []);
  }

  lemma NewReservationOwes(h: Host, files': Files)
    requires Enabled(h, DecideNow) && WellFormed(h)
    requires h.check.value.pid in files' && files' == h.files[h.check.value.pid := files'[h.check.value.pid]]
    requires files'[h.check.value.pid].reserved == h.check.value.required
    ensures Owed(h.entitled + {h.check.value.pid}, files', h.footprint)
              <= Owed(ReadSet(h), h.files, h.footprint) + h.check.value.required
  {
    var own := h.check.value.pid;
    EverythingRead(h);
    OwedWithout(h.entitled + {own}, files', h.footprint, own);
    OwedAgrees(ReadSet(h), h.files, h.footprint, files', h.footprint);
  }

  /** A check that decides has read every promise but its own. */
  lemma EverythingRead(h: Host)
    requires Enabled(h, DecideNow)
    ensures h.entitled + {h.check.value.pid} - {h.check.value.pid} == ReadSet(h)
    ensures h.check.value.pid !in ReadSet(h)
  {
  }

  lemma EndsTheWindow(cfg: Config, h: Host)
    requires Enabled(h, DecideNow)
    ensures !InWindow(DecideStep(cfg, h))
    ensures !DecisionOf(cfg, h).admitted ==> SameBooks(h, DecideStep(cfg, h))
  {
  }

  /** The admission itself: the host covers the newcomer's whole reservation
      on top of the reserve and every other promise in force, but for what the
      check could not see and what it set aside. Whatever was owed before is
      made good. */
  lemma AdmissionRestoresCover(cfg: Config, h: Host)
    requires Inv(cfg, h) && Enabled(h, DecideNow)
    ensures Covered(cfg, DecideStep(cfg, h)) && WindowCovered(DecideStep(cfg, h))
    ensures DecisionOf(cfg, h).admitted ==>
              DecideStep(cfg, h).debt == h.check.value.drift + SumPromised(DecisionOf(cfg, h).setAside)
  {
    EndsTheWindow(cfg, h);
    if DecisionOf(cfg, h).admitted {
      AdmissionFindsRoom(cfg, h);
      NewReservationOwes(h, DecideStep(cfg, h).files);
    }
  }

  /** Neither the promises in force nor the memory behind them. */
  predicate SameBooks(h: Host, h': Host) {
    && h'.available == h.available && h'.debt == h.debt
    && h'.entitled == h.entitled && h'.files == h.files && h'.footprint == h.footprint
  }

  lemma ChecksLeaveTheBooks(cfg: Config, h: Host, e: Event)
    requires Enabled(h, e) && ByCheck(e) && !e.ReadReservation? && !e.DecideNow?
    ensures SameBooks(h, Apply(cfg, h, e))
  {
  }

  /** Outside the window nothing has been seen, and nothing is owed for it. */
  lemma MeasuringKeepsWindow(cfg: Config, h: Host, memory: HostMemory)
    requires Enabled(h, Measure(memory))
    ensures WindowCovered(Apply(cfg, h, Measure(memory)))
  {
    assert Promises({}, h.files, h.footprint) == map[];
  }

  lemma ListingKeepsWindow(cfg: Config, h: Host)
    requires WellFormed(h) && WindowCovered(h) && Enabled(h, ListReservations)
    ensures WindowCovered(Apply(cfg, h, ListReservations))
  {
    assert ReadSet(Apply(cfg, h, ListReservations)) == ReadSet(h);
  }

  lemma NoticesKeepWindow(cfg: Config, h: Host, e: Event)
    requires WindowCovered(h) && Enabled(h, e) && (e.ListNotices? || e.ProbeNotice?)
    ensures WindowCovered(Apply(cfg, h, e))
  {
    assert ReadSet(Apply(cfg, h, e)) == ReadSet(h) && SeenSoFar(Apply(cfg, h, e)) == SeenSoFar(h);
  }

  /** The steps before and after the window. */
  lemma NoWindowYet(cfg: Config, h: Host, e: Event)
    requires Enabled(h, e) && (e.Lock? || e.SettleNow? || e.Unlock? || e.FailCheck?)
    ensures !InWindow(Apply(cfg, h, e))
  {
  }

  lemma CheckStepKeepsCover(cfg: Config, h: Host, e: Event)
    requires Inv(cfg, h) && Enabled(h, e) && ByCheck(e) && !e.ReadReservation? && !e.DecideNow?
    ensures Covered(cfg, Apply(cfg, h, e)) && WindowCovered(Apply(cfg, h, e))
  {
    ChecksLeaveTheBooks(cfg, h, e);
    if e.Measure? {
      MeasuringKeepsWindow(cfg, h, e.memory);
    } else if e.ListReservations? {
      ListingKeepsWindow(cfg, h);
    } else if e.ListNotices? || e.ProbeNotice? {
      NoticesKeepWindow(cfg, h, e);
    } else {
      NoWindowYet(cfg, h, e);
    }
  }

  lemma ServersLeaveTheBooks(cfg: Config, h: Host, e: Event)
    requires Enabled(h, e) && (ByServer(e) || e.Clock? || e.KernelPressure?)
    ensures SameBooks(h, Apply(cfg, h, e)) && Apply(cfg, h, e).check == h.check
  {
  }

  lemma TakingFrame(cfg: Config, h: Host, n: nat)
    ensures var h' := Apply(cfg, h, HostTakes(n));
            && h'.entitled == h.entitled && h'.files == h.files && h'.footprint == h.footprint
            && h'.available == h.available - n && h'.debt == h.debt + n
            && SameWindow(h, h') && (InWindow(h) ==> h'.check.value.drift == h.check.value.drift + n)
  {
  }

  lemma TakingKeepsCover(cfg: Config, h: Host, n: nat)
    requires Inv(cfg, h)
    ensures Covered(cfg, Apply(cfg, h, HostTakes(n))) && WindowCovered(Apply(cfg, h, HostTakes(n)))
  {
    TakingFrame(cfg, h, n);
    WindowStaysCovered(h, Apply(cfg, h, HostTakes(n)));
  }

  lemma OtherStepKeepsCover(cfg: Config, h: Host, e: Event)
    requires Inv(cfg, h) && Enabled(h, e) && (BySurroundings(e) || ByServer(e))
    ensures Covered(cfg, Apply(cfg, h, e)) && WindowCovered(Apply(cfg, h, e))
  {
    if e.HostTakes? {
      TakingKeepsCover(cfg, h, e.bytes);
    } else if !e.HostFrees? {
      ServersLeaveTheBooks(cfg, h, e);
    }
  }

  lemma ReadStepKeepsCover(cfg: Config, h: Host, q: Pid, readable: bool)
    requires Inv(cfg, h) && Enabled(h, ReadReservation(q, readable))
    ensures Covered(cfg, ReadStep(h, q, readable)) && WindowCovered(ReadStep(h, q, readable))
  {
    if q in h.files && q != h.check.value.pid && q in h.footprint {
      ReadingKeepsCover(cfg, h, q, readable);
    } else {
      SkippingKeepsCover(cfg, h, q, readable);
    }
  }

  lemma ProcessStepKeepsCover(cfg: Config, h: Host, e: Event)
    requires Inv(cfg, h) && Enabled(h, e) && (ByProcess(e) || e.Spawn? || e.Die?)
    ensures Covered(cfg, Apply(cfg, h, e)) && WindowCovered(Apply(cfg, h, e))
  {
    if e.Load? {
      LoadKeepsCover(cfg, h, e.pid, e.bytes);
    } else if e.Unload? {
      UnloadKeepsCover(cfg, h, e.pid, e.bytes);
    } else if e.Grow? {
      GrowKeepsCover(cfg, h, e.pid, e.bytes);
    } else if e.ReleaseReservation? {
      ReleaseKeepsCover(cfg, h, e.pid);
    } else if e.Spawn? {
      SpawnKeepsCover(cfg, h, e.pid, e.server);
    } else {
      DeathKeepsCover(cfg, h, e.pid);
    }
  }

  lemma StepKeepsInv(cfg: Config, h: Host, e: Event)
    requires Inv(cfg, h) && Enabled(h, e)
    ensures Inv(cfg, Apply(cfg, h, e))
  {
    WellFormedIsKept(cfg, h, e);
    if e.ReadReservation? {
      ReadStepKeepsCover(cfg, h, e.pid, e.readable);
    } else if e.DecideNow? {
      AdmissionRestoresCover(cfg, h);
    } else if ByCheck(e) {
      CheckStepKeepsCover(cfg, h, e);
    } else if BySurroundings(e) || ByServer(e) {
      OtherStepKeepsCover(cfg, h, e);
    } else {
      ProcessStepKeepsCover(cfg, h, e);
    }
  }

  /** The main result, for every run from a fresh host: whatever interleaves,
      crashes or races, available memory covers the reserve and every promise
      in force but for `debt`. */
  lemma {:induction false} EveryRunIsCovered(cfg: Config, h: Host, events: seq<Event>)
    requires Inv(cfg, h) && Run(cfg, h, events)
    ensures Inv(cfg, After(cfg, h, events))
    decreases |events|
  {
    if events != [] {
      StepKeepsInv(cfg, h, events[0]);
      EveryRunIsCovered(cfg, Apply(cfg, h, events[0]), events[1..]);
    }
  }

  // ------------------------------------------------------ no over-promising

  /** Nothing but a model process takes memory, no promise is set aside, and
      no process loads between a check's measurement and its reading of that
      process. */
  predicate Quiet(cfg: Config, h: Host, e: Event)
    requires Enabled(h, e)
  {
    match e
    case HostTakes(_) => false
    case Grow(_, _) => false
    case Load(p, _) => !Unread(h, p) && !(InWindow(h) && h.check.value.pid == p)
    case DecideNow => DecisionOf(cfg, h).setAside == []
    case _ => true
  }

  predicate QuietRun(cfg: Config, h: Host, events: seq<Event>)
    requires Run(cfg, h, events)
    decreases |events|
  {
    events == [] || (Quiet(cfg, h, events[0]) && QuietRun(cfg, Apply(cfg, h, events[0]), events[1..]))
  }

  lemma QuietStepOwesNothing(cfg: Config, h: Host, e: Event)
    requires Enabled(h, e) && Quiet(cfg, h, e)
    requires h.debt == 0 && (h.check.Some? ==> h.check.value.drift == 0)
    ensures Apply(cfg, h, e).debt == 0
    ensures Apply(cfg, h, e).check.Some? ==> Apply(cfg, h, e).check.value.drift == 0
  {
    if e.Lock? || e.DecideNow? {
      CountingOwesNothing(cfg, h, e);
    } else if e.ReadReservation? {
      ReadingKeepsDrift(h, e.pid, e.readable);
    } else if ByCheck(e) {
      ChecksKeepDrift(cfg, h, e);
    } else if e.Load? {
      assert Apply(cfg, h, e).check == h.check && Apply(cfg, h, e).debt == h.debt;
    } else {
      OthersOweNothing(cfg, h, e);
    }
  }

  lemma CountingOwesNothing(cfg: Config, h: Host, e: Event)
    requires Enabled(h, e) && (e.Lock? || (e.DecideNow? && DecisionOf(cfg, h).setAside == []))
    requires h.debt == 0 && (h.check.Some? ==> h.check.value.drift == 0)
    ensures Apply(cfg, h, e).debt == 0
    ensures Apply(cfg, h, e).check.Some? ==> Apply(cfg, h, e).check.value.drift == 0
  {
  }

  lemma ReadingKeepsDrift(h: Host, q: Pid, readable: bool)
    requires Enabled(h, ReadReservation(q, readable))
    ensures var h' := ReadStep(h, q, readable);
            h'.debt == h.debt && h'.check.Some? && h'.check.value.drift == h.check.value.drift
  {
  }

  lemma ChecksKeepDrift(cfg: Config, h: Host, e: Event)
    requires Enabled(h, e) && ByCheck(e) && !e.Lock? && !e.ReadReservation? && !e.DecideNow?
    ensures Apply(cfg, h, e).debt == h.debt
    ensures Apply(cfg, h, e).check.Some? ==> h.check.Some? && Apply(cfg, h, e).check.value.drift == h.check.value.drift
  {
  }

  lemma OthersOweNothing(cfg: Config, h: Host, e: Event)
    requires Enabled(h, e) && !ByCheck(e) && !e.Load? && !e.Grow? && !e.HostTakes?
    ensures Apply(cfg, h, e).debt == h.debt && (Apply(cfg, h, e).check == h.check || Apply(cfg, h, e).check == None)
  {
  }

  /** On a quiet run the host is never over-promised: were every process to
      take all it was admitted for, the reserve would still be there. */
  lemma {:induction false} NoOverPromising(cfg: Config, h: Host, events: seq<Event>)
    requires Inv(cfg, h) && h.debt == 0 && (h.check.Some? ==> h.check.value.drift == 0)
    requires Run(cfg, h, events) && QuietRun(cfg, h, events)
    ensures var h' := After(cfg, h, events);
            h'.available >= cfg.reserve + Owed(h'.entitled, h'.files, h'.footprint)
    decreases |events|
  {
    if events != [] {
      StepKeepsInv(cfg, h, events[0]);
      QuietStepOwesNothing(cfg, h, events[0]);
      NoOverPromising(cfg, Apply(cfg, h, events[0]), events[1..]);
    }
  }
}
