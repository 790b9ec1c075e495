/** When the host is over-promised: a load in a check's window, a promise set
    aside and an outside taker are each enough, from any host, and without all
    three no run over-promises. */
module AdmissionOverPromise {
  import opened Common
  import opened MemoryAdmission
  import opened AdmissionProtocol
  import opened AdmissionSafety

  // ------------------------------------------------------- what a run takes

  /** The steps of a run that may cost what was promised, in order. */
  function UnquietSteps(cfg: Config, h: Host, events: seq<Event>): seq<Event>
    requires Run(cfg, h, events)
    decreases |events|
  {
    if events == [] then []
    else
      Unquiet(cfg, h, events[0]) + UnquietSteps(cfg, Apply(cfg, h, events[0]), events[1..])
  }

  function Unquiet(cfg: Config, h: Host, e: Event): seq<Event>
    requires Enabled(h, e)
  {
    if Quiet(cfg, h, e) then [] else [e]
  }

  lemma Reassociate(a: seq<Event>, b: seq<Event>, c: seq<Event>)
    ensures a + (b + c) == a + b + c
  {
  }

  lemma {:induction false} UnquietSnoc(cfg: Config, h: Host, events: seq<Event>, e: Event)
    requires Run(cfg, h, events) && Enabled(After(cfg, h, events), e)
    ensures Run(cfg, h, events + [e])
    ensures UnquietSteps(cfg, h, events + [e]) ==
              UnquietSteps(cfg, h, events) + Unquiet(cfg, After(cfg, h, events), e)
    decreases |events|
  {
    RunSnoc(cfg, h, events, e);
    if events == [] {
      assert UnquietSteps(cfg, Apply(cfg, h, e), []) == [];
    } else {
      assert (events + [e])[1..] == events[1..] + [e];
      var h1 := Apply(cfg, h, events[0]);
      UnquietSnoc(cfg, h1, events[1..], e);
      Reassociate(Unquiet(cfg, h, events[0]), UnquietSteps(cfg, h1, events[1..]),
                  Unquiet(cfg, After(cfg, h, events), e));
    }
  }

  /** A run to `h` with these unquiet steps. */
  predicate Gets(cfg: Config, start: Host, events: seq<Event>, h: Host, unquiet: seq<Event>) {
    Run(cfg, start, events) && After(cfg, start, events) == h && UnquietSteps(cfg, start, events) == unquiet
  }

  lemma Then(cfg: Config, start: Host, events: seq<Event>, h: Host, unquiet: seq<Event>, e: Event, h': Host)
    requires Gets(cfg, start, events, h, unquiet) && Enabled(h, e) && Apply(cfg, h, e) == h'
    ensures Gets(cfg, start, events + [e], h', unquiet + Unquiet(cfg, h, e))
  {
    RunSnoc(cfg, start, events, e);
    UnquietSnoc(cfg, start, events, e);
  }

  lemma ThenQuietly(cfg: Config, start: Host, events: seq<Event>, h: Host, unquiet: seq<Event>, e: Event, h': Host)
    requires Gets(cfg, start, events, h, unquiet) && Enabled(h, e) && Apply(cfg, h, e) == h' && Quiet(cfg, h, e)
    ensures Gets(cfg, start, events + [e], h', unquiet)
  {
    Then(cfg, start, events, h, unquiet, e, h');
    assert unquiet + [] == unquiet;
  }

  // -------------------------------------------------- a host put in order

  /** Whatever check is in flight may end, with nothing promised or taken. */
  lemma EndsCheck(cfg: Config, start: Host, before: seq<Event>, h: Host, unquiet: seq<Event>)
      returns (events: seq<Event>, h': Host)
    requires Gets(cfg, start, before, h, unquiet) && WellFormed(h)
    ensures Gets(cfg, start, events, h', unquiet) && WellFormed(h') && SameBooks(h, h') && h'.check == None
  {
    events, h' := before, h;
    if AtDecided(h) && h.check.value.live {
      h' := Apply(cfg, h, SettleNow(false));
      WellFormedIsKept(cfg, h, SettleNow(false));
      ThenQuietly(cfg, start, before, h, unquiet, SettleNow(false), h');
      events := before + [SettleNow(false)];
    }
    if h'.check.Some? {
      events, h' := LetsGo(cfg, start, events, h', unquiet);
    }
  }

  lemma LetsGo(cfg: Config, start: Host, before: seq<Event>, h: Host, unquiet: seq<Event>)
      returns (events: seq<Event>, h': Host)
    requires Gets(cfg, start, before, h, unquiet) && WellFormed(h)
    requires h.check.Some? && (AtDecided(h) ==> !h.check.value.live)
    ensures Gets(cfg, start, events, h', unquiet) && WellFormed(h') && SameBooks(h, h') && h'.check == None
  {
    var e := if AtDecided(h) || AtSettled(h) then Unlock else FailCheck;
    h' := Apply(cfg, h, e);
    WellFormedIsKept(cfg, h, e);
    ThenQuietly(cfg, start, before, h, unquiet, e, h');
    events := before + [e];
  }

  predicate NonePosted(h: Host) {
    forall s :: s in h.servers ==> h.servers[s].postedAt == None
  }

  /** Every running process with a reservation file made it itself. */
  predicate NoneLeft(h: Host) {
    forall s :: s in h.files && s in h.footprint ==> s in h.entitled
  }

  function PostedServers(h: Host): set<Pid> {
    set s | s in h.servers && Posted(h, s)
  }

  /** Every notice may come down. */
  lemma {:induction false} WithdrawAll(cfg: Config, start: Host, before: seq<Event>, h: Host, unquiet: seq<Event>)
      returns (events: seq<Event>, h': Host)
    requires Gets(cfg, start, before, h, unquiet) && WellFormed(h) && h.check == None
    ensures Gets(cfg, start, events, h', unquiet) && WellFormed(h') && SameBooks(h, h') && h'.check == None
    ensures NonePosted(h')
    decreases PostedServers(h)
  {
    if s :| s in h.servers && Posted(h, s) {
      var e := WithdrawOnRelease(s);
      var h1 := Apply(cfg, h, e);
      WellFormedIsKept(cfg, h, e);
      ThenQuietly(cfg, start, before, h, unquiet, e, h1);
      assert PostedServers(h1) == PostedServers(h) - {s};
      events, h' := WithdrawAll(cfg, start, before + [e], h1, unquiet);
    } else {
      events, h' := before, h;
    }
  }

  /** The same promises in force, and at least as much available. */
  predicate SamePromises(h: Host, h': Host) {
    && h'.entitled == h.entitled && h'.available >= h.available
    && (forall p :: p in h.entitled && p in h.files ==> p in h'.files && h'.files[p] == h.files[p])
    && (forall p :: p in h.footprint ==> p in h'.footprint && h'.footprint[p] == h.footprint[p])
  }

  lemma SameIsOwed(h: Host, h': Host)
    requires WellFormed(h) && SamePromises(h, h')
    ensures Owed(h'.entitled, h'.files, h'.footprint) == Owed(h.entitled, h.files, h.footprint)
  {
    OwedAgrees(h.entitled, h.files, h.footprint, h'.files, h'.footprint);
  }

  /** Processes that found a predecessor's file under their pid may let it go. */
  lemma {:induction false} ReleaseAllLeft(cfg: Config, start: Host, before: seq<Event>, h: Host, unquiet: seq<Event>)
      returns (events: seq<Event>, h': Host)
    requires Gets(cfg, start, before, h, unquiet) && WellFormed(h) && h.check == None && NonePosted(h)
    ensures Gets(cfg, start, events, h', unquiet) && WellFormed(h') && h'.check == None
    ensures SamePromises(h, h') && NonePosted(h') && NoneLeft(h')
    decreases h.files.Keys
  {
    if s :| s in h.files && s in h.footprint && s !in h.entitled {
      var e := ReleaseReservation(s);
      var h1 := Apply(cfg, h, e);
      WellFormedIsKept(cfg, h, e);
      ThenQuietly(cfg, start, before, h, unquiet, e, h1);
      assert h1.entitled == h.entitled;
      events, h' := ReleaseAllLeft(cfg, start, before + [e], h1, unquiet);
    } else {
      events, h' := before, h;
    }
  }

  /** A host at rest: no check, no pressure, no notice, no file that is not its
      process's own, and every promise covered. `q` has just started. */
  ghost predicate AtRest(cfg: Config, h: Host, q: Pid) {
    && WellFormed(h) && h.check == None && h.pressure == Normal
    && NonePosted(h) && NoneLeft(h)
    && h.available >= cfg.reserve + Owed(h.entitled, h.files, h.footprint)
    && q in h.footprint && h.footprint[q] == 0 && q !in h.files && q !in h.asking
  }

  lemma Frees(cfg: Config, start: Host, before: seq<Event>, h: Host, unquiet: seq<Event>)
      returns (events: seq<Event>, h': Host)
    requires Gets(cfg, start, before, h, unquiet) && WellFormed(h)
    ensures Gets(cfg, start, events, h', unquiet) && WellFormed(h') && SamePromises(h, h')
    ensures h'.servers == h.servers && h'.files == h.files && h'.footprint == h.footprint && h'.check == h.check
    ensures h'.pressure == Normal && h'.available >= cfg.reserve + Owed(h'.entitled, h'.files, h'.footprint)
  {
    var h1 := Apply(cfg, h, KernelPressure(Normal));
    WellFormedIsKept(cfg, h, KernelPressure(Normal));
    ThenQuietly(cfg, start, before, h, unquiet, KernelPressure(Normal), h1);
    var short := Max(0, cfg.reserve + Owed(h.entitled, h.files, h.footprint) - h.available);
    h' := Apply(cfg, h1, HostFrees(short));
    WellFormedIsKept(cfg, h1, HostFrees(short));
    ThenQuietly(cfg, start, before + [KernelPressure(Normal)], h1, unquiet, HostFrees(short), h');
    events := before + [KernelPressure(Normal)] + [HostFrees(short)];
  }

  lemma Starts(cfg: Config, start: Host, before: seq<Event>, h: Host, unquiet: seq<Event>, server: bool)
      returns (events: seq<Event>, h': Host, q: Pid)
    requires Gets(cfg, start, before, h, unquiet) && WellFormed(h) && h.check == None && h.pressure == Normal
    requires NonePosted(h) && NoneLeft(h)
    requires h.available >= cfg.reserve + Owed(h.entitled, h.files, h.footprint)
    ensures Gets(cfg, start, events, h', unquiet) && AtRest(cfg, h', q) && SamePromises(h, h')
    ensures (q in h'.servers <==> server) && q !in h.footprint
  {
    q := Unused(h.footprint.Keys + h.files.Keys);
    assert q !in h.footprint.Keys + h.files.Keys;
    h' := Apply(cfg, h, Spawn(q, server));
    WellFormedIsKept(cfg, h, Spawn(q, server));
    ThenQuietly(cfg, start, before, h, unquiet, Spawn(q, server), h');
    SameIsOwed(h, h');
    events := before + [Spawn(q, server)];
  }

  /** From any host, with the promises in force as they are. */
  lemma ComesToRest(cfg: Config, start: Host, before: seq<Event>, h: Host, unquiet: seq<Event>, server: bool)
      returns (events: seq<Event>, h': Host, q: Pid)
    requires Gets(cfg, start, before, h, unquiet) && WellFormed(h)
    ensures Gets(cfg, start, events, h', unquiet) && AtRest(cfg, h', q) && SamePromises(h, h')
    ensures (q in h'.servers <==> server) && q !in h.footprint
  {
    var h1, h2, h3, h4;
    events, h1 := EndsCheck(cfg, start, before, h, unquiet);
    events, h2 := WithdrawAll(cfg, start, events, h1, unquiet);
    events, h3 := ReleaseAllLeft(cfg, start, events, h2, unquiet);
    events, h4 := Frees(cfg, start, events, h3, unquiet);
    events, h', q := Starts(cfg, start, events, h4, unquiet, server);
  }

  // --------------------------------------- a check that sees what there is

  /** Of these processes, those with a live server's reservation. */
  function LiveOnes(who: set<Pid>, files: AdmissionSafety.Files): set<Pid> {
    set p | p in who && p in files && files[p].IsLive()
  }

  /** The check in flight has found, but for its drift, all there is: the sums
      it would count are what is owed to those it has read. */
  ghost predicate Tight(h: Host) {
    && WellFormed(h) && NoneLeft(h) && InWindow(h)
    && h.check.value.phase.memory.pressure == Normal
    && h.check.value.phase.memory.Available() == h.available + h.check.value.drift
    && SumPromised(SeenSoFar(h)) == Owed(ReadSet(h), h.files, h.footprint)
    && SumFirm(true, false, SeenSoFar(h)) == Owed(LiveOnes(ReadSet(h), h.files), h.files, h.footprint)
  }

  lemma OwedNothing(files: AdmissionSafety.Files, footprint: Footprints)
    ensures Owed({}, files, footprint) == 0
  {
    assert Promises({}, files, footprint) == map[];
  }

  lemma MeasuringIsTight(cfg: Config, h: Host)
    requires WellFormed(h) && NoneLeft(h) && AtLocked(h) && h.pressure == Normal && h.check.value.drift == 0
    ensures Enabled(h, Measure(HostMemory(h.available, 0, 0, Normal)))
    ensures Tight(Apply(cfg, h, Measure(HostMemory(h.available, 0, 0, Normal))))
  {
    OwedNothing(h.files, h.footprint);
    assert LiveOnes({}, h.files) == {};
  }

  /** A load in the window is drift. */
  lemma LoadingIsTight(h: Host, p: Pid, n: nat)
    requires Tight(h) && AtMeasured(h) && Enabled(h, Load(p, n))
    ensures var h' := LoadStep(h, p, n);
            && Tight(h') && h'.check == Some(h.check.value.(drift := h.check.value.drift + n))
            && h'.available == h.available - n && h'.footprint == h.footprint[p := h.footprint[p] + n]
            && h'.entitled == h.entitled && h'.files == h.files && h'.servers == h.servers
  {
    OwedNothing(h.files, h.footprint);
    OwedNothing(h.files, h.footprint[p := h.footprint[p] + n]);
    assert LiveOnes({}, h.files) == {};
  }

  lemma ListingIsTight(cfg: Config, h: Host)
    requires Tight(h) && AtMeasured(h)
    ensures Enabled(h, ListReservations) && Tight(Apply(cfg, h, ListReservations))
  {
    var h' := Apply(cfg, h, ListReservations);
    OwedNothing(h.files, h.footprint);
    assert LiveOnes({}, h.files) == {};
    assert ReadSet(h') == {};
  }

  lemma FirmAppend(others: seq<OtherReservation>, o: OtherReservation)
    ensures SumFirm(true, false, others + [o]) ==
              SumFirm(true, false, others) + if o.reservation.IsLive() then o.Promised() else 0
  {
    assert (others + [o])[..|others|] == others;
  }

  /** A file that adds nothing: the check's own, or a gone process's. */
  lemma SkippingIsTight(h: Host, x: Pid)
    requires Tight(h) && Enabled(h, ReadReservation(x, true))
    requires x !in h.files || x == h.check.value.pid || x !in h.footprint
    ensures Tight(ReadStep(h, x, true))
  {
    var h' := ReadStep(h, x, true);
    WellFormedIsKeptByReading(h, x, true);
    assert ReadSet(h') == ReadSet(h) && SeenSoFar(h') == SeenSoFar(h);
    assert LiveOnes(ReadSet(h), h'.files) == LiveOnes(ReadSet(h), h.files);
    OwedAgrees(ReadSet(h), h.files, h.footprint, h'.files, h.footprint);
    OwedAgrees(LiveOnes(ReadSet(h), h.files), h.files, h.footprint, h'.files, h.footprint);
  }

  /** One more promise read is one more counted. */
  lemma OwedWith(who: set<Pid>, files: AdmissionSafety.Files, footprint: Footprints, x: Pid)
    requires x !in who && x in files && x in footprint
    ensures Owed(who + {x}, files, footprint) ==
              Owed(who, files, footprint) + Max(0, files[x].reserved - footprint[x])
  {
    OwedWithout(who + {x}, files, footprint, x);
    assert who + {x} - {x} == who;
  }

  lemma ReadingIsTight(h: Host, x: Pid)
    requires Tight(h) && Enabled(h, ReadReservation(x, true))
    requires x in h.files && x != h.check.value.pid && x in h.footprint
    ensures Tight(ReadStep(h, x, true))
  {
    var h' := ReadStep(h, x, true);
    var seen := OtherReservation(h.files[x], Some(h.footprint[x]));
    WellFormedIsKeptByReading(h, x, true);
    SumAppend(SeenSoFar(h), seen);
    FirmAppend(SeenSoFar(h), seen);
    assert x !in ReadSet(h) && ReadSet(h') == ReadSet(h) + {x};
    OwedWith(ReadSet(h), h.files, h.footprint, x);
    var live := LiveOnes(ReadSet(h), h.files);
    assert LiveOnes(ReadSet(h'), h.files) == if h.files[x].IsLive() then live + {x} else live;
    if h.files[x].IsLive() {
      OwedWith(live, h.files, h.footprint, x);
    }
  }

  /** The same check, further on, with the same promises in force. */
  predicate SameCheck(h: Host, h': Host) {
    && SamePromises(h, h') && h'.available == h.available && h'.footprint == h.footprint
    && h'.servers == h.servers && h'.asking == h.asking && h.check.Some? && h'.check.Some?
    && h'.check.value == h.check.value.(phase := h'.check.value.phase)
  }

  /** Its measurement too. */
  predicate SameMeasured(h: Host, h': Host) {
    && SameCheck(h, h') && InWindow(h) && InWindow(h')
    && h'.check.value.phase.memory == h.check.value.phase.memory
  }

  lemma OneRead(h: Host, x: Pid)
    requires Tight(h) && Enabled(h, ReadReservation(x, true))
    ensures var h' := ReadStep(h, x, true);
            && Tight(h') && SameMeasured(h, h') && AtReading(h')
            && h'.check.value.phase.todo == h.check.value.phase.todo - {x}
  {
    if x in h.files && x != h.check.value.pid && x in h.footprint {
      ReadingIsTight(h, x);
    } else {
      SkippingIsTight(h, x);
    }
  }

  lemma {:induction false} ReadsAll(cfg: Config, start: Host, before: seq<Event>, h: Host, unquiet: seq<Event>)
      returns (events: seq<Event>, h': Host)
    requires Gets(cfg, start, before, h, unquiet) && Tight(h) && AtReading(h)
    ensures Gets(cfg, start, events, h', unquiet) && Tight(h') && SameMeasured(h, h')
    ensures AtReading(h') && h'.check.value.phase.todo == {}
    decreases h.check.value.phase.todo
  {
    events, h' := before, h;
    if x :| x in h.check.value.phase.todo {
      var e := ReadReservation(x, true);
      OneRead(h, x);
      ThenQuietly(cfg, start, before, h, unquiet, e, ReadStep(h, x, true));
      events, h' := ReadsAll(cfg, start, before + [e], ReadStep(h, x, true), unquiet);
    }
  }

  /** From the measurement to where only the notices are left. */
  lemma ReadsEverything(cfg: Config, start: Host, before: seq<Event>, h: Host, unquiet: seq<Event>)
      returns (events: seq<Event>, h': Host)
    requires Gets(cfg, start, before, h, unquiet) && Tight(h) && AtMeasured(h)
    ensures Gets(cfg, start, events, h', unquiet) && Tight(h') && SameMeasured(h, h')
    ensures AtReading(h') && h'.check.value.phase.todo == {}
  {
    ListingIsTight(cfg, h);
    var h1 := Apply(cfg, h, ListReservations);
    ThenQuietly(cfg, start, before, h, unquiet, ListReservations, h1);
    events, h' := ReadsAll(cfg, start, before + [ListReservations], h1, unquiet);
  }

  /** With no notice up, a background check goes straight on to decide. */
  lemma ProbesNothing(cfg: Config, start: Host, before: seq<Event>, h: Host, unquiet: seq<Event>)
      returns (events: seq<Event>, h': Host)
    requires Gets(cfg, start, before, h, unquiet) && Tight(h) && NonePosted(h)
    requires AtReading(h) && h.check.value.phase.todo == {} && !h.check.value.live
    ensures Gets(cfg, start, events, h', unquiet) && Tight(h') && SameMeasured(h, h') && Enabled(h', DecideNow)
    ensures AtProbing(h') && h'.check.value.phase.waiting == []
  {
    h' := Apply(cfg, h, ListNotices);
    assert h'.check.value.phase.names == {};
    WellFormedIsKept(cfg, h, ListNotices);
    assert ReadSet(h') == ReadSet(h) && SeenSoFar(h') == SeenSoFar(h);
    ThenQuietly(cfg, start, before, h, unquiet, ListNotices, h');
    events := before + [ListNotices];
  }

  // ------------------------------------------- a request for all that is left

  /** The check in flight is about to decide on exactly what is left. */
  predicate AsksForTheRest(cfg: Config, h: Host)
    requires Enabled(h, DecideNow)
  {
    var c := h.check.value;
    && (c.phase.Probing? ==> c.phase.waiting == [])
    && c.required + cfg.reserve + SumPromised(Counted(c.live, c.countBackground, c.phase.others))
       == c.phase.memory.Available()
  }

  lemma AllThatIsLeftIsGranted(cfg: Config, h: Host)
    requires Tight(h) && Enabled(h, DecideNow) && AsksForTheRest(cfg, h)
    ensures DecisionOf(cfg, h).admitted
    ensures var c := h.check.value;
            SumPromised(DecisionOf(cfg, h).setAside)
              + SumPromised(Counted(c.live, c.countBackground, c.phase.others))
            == Owed(ReadSet(h), h.files, h.footprint)
  {
    var c := h.check.value;
    EveryPromiseCountsOrIsSetAside(c.live, c.countBackground, c.phase.memory, c.required, cfg.reserve, cfg.maxPressure,
                                   c.phase.others, if c.phase.Probing? then c.phase.waiting else []);
  }

  lemma RestIsOwed(h: Host, files': AdmissionSafety.Files)
    requires Tight(h) && Enabled(h, DecideNow) && h.footprint[h.check.value.pid] == 0
    requires h.check.value.pid in files' && files' == h.files[h.check.value.pid := files'[h.check.value.pid]]
    requires files'[h.check.value.pid].reserved == h.check.value.required
    ensures Owed(h.entitled + {h.check.value.pid}, files', h.footprint)
            == Owed(ReadSet(h), h.files, h.footprint) + h.check.value.required
  {
    var own := h.check.value.pid;
    EverythingRead(h);
    assert h.entitled + {own} == ReadSet(h) + {own};
    OwedWith(ReadSet(h), files', h.footprint, own);
    OwedAgrees(ReadSet(h), h.files, h.footprint, files', h.footprint);
  }

  /** It is granted, and the host ends short by exactly its drift and what it
      has set aside. */
  lemma EndsExactlyShort(cfg: Config, h: Host)
    requires Tight(h) && Enabled(h, DecideNow) && AsksForTheRest(cfg, h) && h.footprint[h.check.value.pid] == 0
    ensures DecisionOf(cfg, h).admitted
    ensures var h' := DecideStep(cfg, h);
            && h'.debt == h.check.value.drift + SumPromised(DecisionOf(cfg, h).setAside)
            && h'.available + h'.debt == cfg.reserve + Owed(h'.entitled, h'.files, h'.footprint)
  {
    AllThatIsLeftIsGranted(cfg, h);
    RestIsOwed(h, DecideStep(cfg, h).files);
  }

  // ----------------------------------------------- a load in the window

  lemma BackgroundBegins(cfg: Config, start: Host, before: seq<Event>, h: Host, unquiet: seq<Event>, q: Pid,
                         required: nat)
      returns (events: seq<Event>, h': Host)
    requires Gets(cfg, start, before, h, unquiet) && AtRest(cfg, h, q) && q !in h.servers
    ensures Gets(cfg, start, events, h', unquiet) && Tight(h') && AtMeasured(h')
    ensures var memory := HostMemory(h.available, 0, 0, Normal);
            h' == h.(check := Some(Check(q, Segment, false, required, true, Measured(memory), 0)))
  {
    var lock := Event.Lock(q, Segment, required);
    var h1 := Apply(cfg, h, lock);
    WellFormedIsKept(cfg, h, lock);
    ThenQuietly(cfg, start, before, h, unquiet, lock, h1);
    var measure := Measure(HostMemory(h.available, 0, 0, Normal));
    MeasuringIsTight(cfg, h1);
    h' := Apply(cfg, h1, measure);
    ThenQuietly(cfg, start, before + [lock], h1, unquiet, measure, h');
    events := before + [lock] + [measure];
  }

  /** A background check in flight that has asked for exactly what will be left. */
  ghost predicate BackgroundAsks(cfg: Config, h: Host) {
    && Tight(h) && !h.check.value.live && h.check.value.pid !in h.entitled && h.footprint[h.check.value.pid] == 0
    && h.check.value.required + cfg.reserve + Owed(h.entitled, h.files, h.footprint)
       == h.check.value.phase.memory.Available()
  }

  lemma StillAsks(cfg: Config, h: Host, h': Host)
    requires BackgroundAsks(cfg, h) && Tight(h') && SameMeasured(h, h')
    ensures BackgroundAsks(cfg, h')
  {
    SameIsOwed(h, h');
  }

  lemma BackgroundIsGranted(cfg: Config, h: Host)
    requires BackgroundAsks(cfg, h) && AtProbing(h) && Enabled(h, DecideNow) && h.check.value.phase.waiting == []
    ensures Quiet(cfg, h, DecideNow) && WellFormed(DecideStep(cfg, h))
    ensures var own, h' := h.check.value.pid, DecideStep(cfg, h);
            && h'.debt == h.check.value.drift
            && h'.available + h'.debt == cfg.reserve + Owed(h'.entitled, h'.files, h'.footprint)
            && own in h'.entitled && own in h'.footprint && h'.footprint[own] == 0
            && h'.files[own] == Reservation(own, h.check.value.role, h.check.value.required, Some(false))
  {
    EverythingRead(h);
    assert ReadSet(h) == h.entitled;
    AllCounted(h.check.value.countBackground, h.check.value.phase.others);
    EndsExactlyShort(cfg, h);
    WellFormedIsKeptByDeciding(cfg, h);
  }

  lemma BackgroundEnds(cfg: Config, start: Host, before: seq<Event>, h: Host, unquiet: seq<Event>)
      returns (events: seq<Event>, h': Host)
    requires Gets(cfg, start, before, h, unquiet) && AtMeasured(h) && BackgroundAsks(cfg, h) && NonePosted(h)
    ensures Gets(cfg, start, events, h', unquiet) && WellFormed(h') && h'.debt == h.check.value.drift
    ensures h'.available + h'.debt == cfg.reserve + Owed(h'.entitled, h'.files, h'.footprint)
    ensures var own := h.check.value.pid;
            && own in h'.entitled && own in h'.footprint && h'.footprint[own] == 0
            && h'.files[own] == Reservation(own, h.check.value.role, h.check.value.required, Some(false))
  {
    var h1, h2;
    events, h1 := ReadsEverything(cfg, start, before, h, unquiet);
    StillAsks(cfg, h, h1);
    events, h2 := ProbesNothing(cfg, start, events, h1, unquiet);
    StillAsks(cfg, h1, h2);
    BackgroundIsGranted(cfg, h2);
    h' := Apply(cfg, h2, DecideNow);
    ThenQuietly(cfg, start, events, h2, unquiet, DecideNow, h');
    events := events + [DecideNow];
  }

  lemma LoadWhileAsked(cfg: Config, h: Host, p: Pid, n: nat, required: nat)
    requires Tight(h) && AtMeasured(h) && Enabled(h, Load(p, n))
    requires h.check.value.required == required && h.check.value.pid !in h.entitled && !h.check.value.live
    requires h.footprint[h.check.value.pid] == 0
    requires required + cfg.reserve + Owed(h.entitled, h.files, h.footprint) - n
             == h.check.value.phase.memory.Available()
    ensures BackgroundAsks(cfg, LoadStep(h, p, n))
  {
    LoadingIsTight(h, p, n);
    OwedFalls(h.entitled, h.files, h.footprint, p, n);
  }

  /** The load lands after a check measured the host and before it reads the
      loader's footprint, so the check counts the same memory twice: once as
      available and once as no longer promised. From every host, every process
      entitled to `n` bytes more and every such load, there is a run in which
      nothing else is unquiet that ends exactly `n` bytes short. */
  lemma LoadInTheWindowOverPromises(cfg: Config, h: Host, p: Pid, n: nat) returns (events: seq<Event>)
    requires WellFormed(h) && p in h.entitled && h.footprint[p] + n <= h.files[p].reserved
    ensures Run(cfg, h, events) && UnquietSteps(cfg, h, events) == [Load(p, n)]
    ensures var h' := After(cfg, h, events);
            h'.debt == n && h'.available + n == cfg.reserve + Owed(h'.entitled, h'.files, h'.footprint)
  {
    assert Gets(cfg, h, [], h, []);
    var h';
    events, h' := RaceFrom(cfg, h, [], h, p, n);
  }

  lemma RaceFrom(cfg: Config, start: Host, before: seq<Event>, h: Host, p: Pid, n: nat)
      returns (events: seq<Event>, h': Host)
    requires Gets(cfg, start, before, h, []) && WellFormed(h)
    requires p in h.entitled && h.footprint[p] + n <= h.files[p].reserved
    ensures Gets(cfg, start, events, h', [Load(p, n)])
    ensures h'.debt == n && h'.available + n == cfg.reserve + Owed(h'.entitled, h'.files, h'.footprint)
  {
    var h1, h2, q;
    events, h1, q := ComesToRest(cfg, start, before, h, [], false);
    var required := h1.available - cfg.reserve - Owed(h1.entitled, h1.files, h1.footprint) + n;
    events, h2 := BackgroundBegins(cfg, start, events, h1, [], q, required);
    var h3 := LoadStep(h2, p, n);
    Then(cfg, start, events, h2, [], Load(p, n), h3);
    assert [] + [Load(p, n)] == [Load(p, n)];
    LoadWhileAsked(cfg, h2, p, n, required);
    LoadingIsTight(h2, p, n);
    events, h' := BackgroundEnds(cfg, start, events + [Load(p, n)], h3, [Load(p, n)]);
  }

  // ------------------------------------------------------ a promise set aside

  lemma {:induction false} OwedSplit(who: set<Pid>, part: set<Pid>, files: AdmissionSafety.Files, footprint: Footprints)
    requires part <= who
    ensures Owed(who, files, footprint) == Owed(part, files, footprint) + Owed(who - part, files, footprint)
    decreases part
  {
    if part == {} {
      OwedNothing(files, footprint);
      assert who - part == who;
    } else {
      var x :| x in part;
      OwedSplit(who - {x}, part - {x}, files, footprint);
      assert who - {x} - (part - {x}) == who - part;
      OwedWithout(who, files, footprint, x);
      OwedWithout(part, files, footprint, x);
      assert Promises(who, files, footprint).Keys * {x} == Promises(part, files, footprint).Keys * {x};
    }
  }

  /** Of the processes entitled to a reservation, those not live. */
  function BackgroundOnes(h: Host): set<Pid> {
    h.entitled - LiveOnes(h.entitled, h.files)
  }

  ghost function OwedToBackground(h: Host): nat {
    Owed(BackgroundOnes(h), h.files, h.footprint)
  }

  /** `s`, a live server at rest, posts its notice and waits until background
      promises no longer count. */
  lemma WaitsItOut(cfg: Config, start: Host, before: seq<Event>, h: Host, s: Pid)
      returns (events: seq<Event>, h': Host)
    requires Gets(cfg, start, before, h, []) && WellFormed(h) && s in h.servers && h.servers[s].postedAt == None
    ensures Gets(cfg, start, events, h', []) && WellFormed(h')
    ensures h' == h.(now := h'.now, servers := h'.servers) && s in h'.servers
    ensures !PromisesCount(h'.servers[s], h'.now, cfg.yield')
  {
    var h1 := Apply(cfg, h, PostReload(s, true));
    WellFormedIsKept(cfg, h, PostReload(s, true));
    ThenQuietly(cfg, start, before, h, [], PostReload(s, true), h1);
    var clock := Clock(h.now + Max(0, cfg.yield'));
    h' := Apply(cfg, h1, clock);
    WellFormedIsKept(cfg, h1, clock);
    ThenQuietly(cfg, start, before + [PostReload(s, true)], h1, [], clock, h');
    events := before + [PostReload(s, true)] + [clock];
  }

  /** A live server ready to ask, with no check of its own to consider
      background promises in. */
  ghost predicate ReadyToAsk(cfg: Config, h: Host, s: Pid) {
    && WellFormed(h) && NoneLeft(h) && h.check == None && h.pressure == Normal
    && s in h.footprint && h.footprint[s] == 0 && s !in h.entitled
    && s in h.servers && s in h.asking && !h.asking[s]
    && h.available >= cfg.reserve + Owed(h.entitled, h.files, h.footprint)
  }

  lemma AsksAfterTheWait(cfg: Config, start: Host, before: seq<Event>, h: Host, s: Pid)
      returns (events: seq<Event>, h': Host)
    requires Gets(cfg, start, before, h, []) && AtRest(cfg, h, s) && s in h.servers
    ensures Gets(cfg, start, events, h', []) && ReadyToAsk(cfg, h', s) && SamePromises(h, h')
  {
    var h1;
    events, h1 := WaitsItOut(cfg, start, before, h, s);
    h' := Apply(cfg, h1, BeginLiveCheck(s));
    WellFormedIsKept(cfg, h1, BeginLiveCheck(s));
    ThenQuietly(cfg, start, events, h1, [], BeginLiveCheck(s), h');
    events := events + [BeginLiveCheck(s)];
  }

  lemma LiveBegins(cfg: Config, start: Host, before: seq<Event>, h: Host, s: Pid, required: nat)
      returns (events: seq<Event>, h': Host)
    requires Gets(cfg, start, before, h, []) && ReadyToAsk(cfg, h, s)
    ensures Gets(cfg, start, events, h', []) && Tight(h') && AtMeasured(h')
    ensures var memory := HostMemory(h.available, 0, 0, Normal);
            h' == h.(check := Some(Check(s, LocalServer, true, required, false, Measured(memory), 0)))
  {
    var lock := Event.Lock(s, LocalServer, required);
    var h1 := Apply(cfg, h, lock);
    WellFormedIsKept(cfg, h, lock);
    ThenQuietly(cfg, start, before, h, [], lock, h1);
    var measure := Measure(HostMemory(h.available, 0, 0, Normal));
    MeasuringIsTight(cfg, h1);
    h' := Apply(cfg, h1, measure);
    ThenQuietly(cfg, start, before + [lock], h1, [], measure, h');
    events := before + [lock] + [measure];
  }

  /** A live check past the yield time, asking for all but what is owed to
      other live servers. */
  ghost predicate LiveAsks(cfg: Config, h: Host) {
    && Tight(h) && h.check.value.live && !h.check.value.countBackground
    && h.check.value.pid !in h.entitled && h.footprint[h.check.value.pid] == 0
    && h.check.value.required + cfg.reserve + Owed(LiveOnes(h.entitled, h.files), h.files, h.footprint)
       == h.check.value.phase.memory.Available()
  }

  lemma SameIsOwedToEach(h: Host, h': Host)
    requires WellFormed(h) && SamePromises(h, h')
    ensures LiveOnes(h'.entitled, h'.files) == LiveOnes(h.entitled, h.files)
    ensures Owed(LiveOnes(h.entitled, h.files), h'.files, h'.footprint)
         == Owed(LiveOnes(h.entitled, h.files), h.files, h.footprint)
    ensures OwedToBackground(h') == OwedToBackground(h)
  {
    assert LiveOnes(h'.entitled, h'.files) == LiveOnes(h.entitled, h.files);
    OwedAgrees(LiveOnes(h.entitled, h.files), h.files, h.footprint, h'.files, h'.footprint);
    OwedAgrees(BackgroundOnes(h), h.files, h.footprint, h'.files, h'.footprint);
  }

  lemma LiveIsGranted(cfg: Config, h: Host)
    requires LiveAsks(cfg, h) && AtReading(h) && Enabled(h, DecideNow)
    ensures SumPromised(DecisionOf(cfg, h).setAside) == OwedToBackground(h)
    ensures var h' := DecideStep(cfg, h);
            && h'.debt == h.check.value.drift + OwedToBackground(h)
            && h'.available + h'.debt == cfg.reserve + Owed(h'.entitled, h'.files, h'.footprint)
  {
    EverythingRead(h);
    assert ReadSet(h) == h.entitled;
    CountedIsFirm(true, false, h.check.value.phase.others);
    OwedSplit(h.entitled, LiveOnes(h.entitled, h.files), h.files, h.footprint);
    AllThatIsLeftIsGranted(cfg, h);
    EndsExactlyShort(cfg, h);
  }

  lemma LiveEnds(cfg: Config, start: Host, before: seq<Event>, h: Host) returns (events: seq<Event>, h': Host)
    requires Gets(cfg, start, before, h, []) && AtMeasured(h) && LiveAsks(cfg, h) && h.check.value.drift == 0
    requires OwedToBackground(h) > 0
    ensures Gets(cfg, start, events, h', [DecideNow]) && h'.debt == OwedToBackground(h)
    ensures h'.available + h'.debt == cfg.reserve + Owed(h'.entitled, h'.files, h'.footprint)
  {
    var h1;
    events, h1 := ReadsEverything(cfg, start, before, h, []);
    SameIsOwedToEach(h, h1);
    LiveIsGranted(cfg, h1);
    h' := Apply(cfg, h1, DecideNow);
    Then(cfg, start, events, h1, [], DecideNow, h');
    assert [] + [DecideNow] == [DecideNow];
    events := events + [DecideNow];
  }

  /** What a live load past the yield time sets aside is over-promised, by
      design and to the byte: from every host with a background process
      entitled to more than it has taken, there is a run in which nothing but
      one decision is unquiet that ends short by exactly what is owed to
      background processes. */
  lemma SettingAsideOverPromises(cfg: Config, h: Host, p: Pid) returns (events: seq<Event>)
    requires WellFormed(h) && p in h.entitled && !h.files[p].IsLive() && h.footprint[p] < h.files[p].reserved
    ensures Run(cfg, h, events) && UnquietSteps(cfg, h, events) == [DecideNow] && OwedToBackground(h) > 0
    ensures var h' := After(cfg, h, events);
            && h'.debt == OwedToBackground(h)
            && h'.available + h'.debt == cfg.reserve + Owed(h'.entitled, h'.files, h'.footprint)
  {
    assert Gets(cfg, h, [], h, []);
    var h';
    events, h' := SetAsideFrom(cfg, h, [], h, p);
  }

  lemma SetAsideFrom(cfg: Config, start: Host, before: seq<Event>, h: Host, p: Pid)
      returns (events: seq<Event>, h': Host)
    requires Gets(cfg, start, before, h, []) && WellFormed(h)
    requires p in h.entitled && !h.files[p].IsLive() && h.footprint[p] < h.files[p].reserved
    ensures Gets(cfg, start, events, h', [DecideNow]) && h'.debt == OwedToBackground(h) > 0
    ensures h'.available + h'.debt == cfg.reserve + Owed(h'.entitled, h'.files, h'.footprint)
  {
    var h1, h2, s;
    events, h1, s := ComesToRest(cfg, start, before, h, [], true);
    events, h2 := AsksAfterTheWait(cfg, start, events, h1, s);
    SomethingIsOwed(h, p);
    SameIsOwedToBackground(h, h1);
    SameIsOwedToBackground(h1, h2);
    events, h' := LiveTakesTheRest(cfg, start, events, h2, s);
  }

  lemma SomethingIsOwed(h: Host, p: Pid)
    requires WellFormed(h) && p in h.entitled && !h.files[p].IsLive() && h.footprint[p] < h.files[p].reserved
    ensures OwedToBackground(h) > 0
  {
    OwedWithout(BackgroundOnes(h), h.files, h.footprint, p);
  }

  lemma SameIsOwedToBackground(h: Host, h': Host)
    requires WellFormed(h) && SamePromises(h, h')
    ensures OwedToBackground(h') == OwedToBackground(h)
  {
    SameIsOwedToEach(h, h');
  }

  lemma LiveTakesTheRest(cfg: Config, start: Host, before: seq<Event>, h: Host, s: Pid)
      returns (events: seq<Event>, h': Host)
    requires Gets(cfg, start, before, h, []) && ReadyToAsk(cfg, h, s) && OwedToBackground(h) > 0
    ensures Gets(cfg, start, events, h', [DecideNow]) && h'.debt == OwedToBackground(h)
    ensures h'.available + h'.debt == cfg.reserve + Owed(h'.entitled, h'.files, h'.footprint)
  {
    OwedSplit(h.entitled, LiveOnes(h.entitled, h.files), h.files, h.footprint);
    var required := h.available - cfg.reserve - Owed(LiveOnes(h.entitled, h.files), h.files, h.footprint);
    var h1;
    events, h1 := LiveBegins(cfg, start, before, h, s, required);
    events, h' := LiveEnds(cfg, start, events, h1);
  }

  // ------------------------------------------------------------ all three needed

  /** What a run may do beyond quiet steps: let something else take memory, set
      promises aside, load in a check's window. */
  datatype Allowed = Allowed(takers: bool, settingAside: bool, windowLoads: bool)

  const NOTHING_ALLOWED := Allowed(false, false, false)

  predicate Allows(allowed: Allowed, e: Event) {
    match e
    case HostTakes(_) => allowed.takers
    case Grow(_, _) => allowed.takers
    case DecideNow => allowed.settingAside
    case Load(_, _) => allowed.windowLoads
    case _ => true
  }

  predicate AllowedRun(allowed: Allowed, cfg: Config, h: Host, events: seq<Event>)
    requires Run(cfg, h, events)
  {
    forall e :: e in UnquietSteps(cfg, h, events) ==> Allows(allowed, e)
  }

  /** Were every process to take all it was admitted for, the reserve would
      still be there. */
  ghost predicate Honoured(cfg: Config, h: Host) {
    h.available >= cfg.reserve + Owed(h.entitled, h.files, h.footprint)
  }

  lemma {:induction false} NothingAllowedIsQuiet(cfg: Config, h: Host, events: seq<Event>)
    requires Run(cfg, h, events) && AllowedRun(NOTHING_ALLOWED, cfg, h, events)
    ensures QuietRun(cfg, h, events)
    decreases |events|
  {
    if events != [] {
      var rest := UnquietSteps(cfg, Apply(cfg, h, events[0]), events[1..]);
      assert forall e :: e in rest ==> e in UnquietSteps(cfg, h, events);
      assert !Quiet(cfg, h, events[0]) ==> events[0] in UnquietSteps(cfg, h, events);
      NothingAllowedIsQuiet(cfg, Apply(cfg, h, events[0]), events[1..]);
    }
  }

  /** From any host, a background process comes to be entitled to more than it
      has taken. */
  lemma SomeoneIsAdmitted(cfg: Config, start: Host) returns (events: seq<Event>, h': Host, p: Pid)
    requires WellFormed(start)
    ensures Gets(cfg, start, events, h', []) && WellFormed(h')
    ensures p in h'.entitled && !h'.files[p].IsLive() && h'.footprint[p] < h'.files[p].reserved
  {
    assert Gets(cfg, start, [], start, []);
    var h1, h3;
    events, h1, p := ComesToRest(cfg, start, [], start, [], false);
    var h2 := Apply(cfg, h1, HostFrees(1));
    WellFormedIsKept(cfg, h1, HostFrees(1));
    ThenQuietly(cfg, start, events, h1, [], HostFrees(1), h2);
    var required := h2.available - cfg.reserve - Owed(h2.entitled, h2.files, h2.footprint);
    events, h3 := BackgroundBegins(cfg, start, events + [HostFrees(1)], h2, [], p, required);
    events, h' := BackgroundEnds(cfg, start, events, h3, []);
  }

  lemma OutsiderTakes(cfg: Config, start: Host) returns (events: seq<Event>)
    requires WellFormed(start)
    ensures Run(cfg, start, events) && AllowedRun(Allowed(true, false, false), cfg, start, events)
    ensures !Honoured(cfg, After(cfg, start, events))
  {
    var n := Max(0, start.available) + 1;
    assert Gets(cfg, start, [], start, []);
    Then(cfg, start, [], start, [], HostTakes(n), Apply(cfg, start, HostTakes(n)));
    events := [] + [HostTakes(n)];
  }

  /** Whichever is allowed, the host can be over-promised. */
  lemma SomethingIsOverPromised(cfg: Config, allowed: Allowed, start: Host) returns (events: seq<Event>)
    requires WellFormed(start) && allowed != NOTHING_ALLOWED
    ensures Run(cfg, start, events) && AllowedRun(allowed, cfg, start, events)
    ensures !Honoured(cfg, After(cfg, start, events))
  {
    if allowed.takers {
      events := OutsiderTakes(cfg, start);
    } else {
      var h, h', p;
      events, h, p := SomeoneIsAdmitted(cfg, start);
      if allowed.windowLoads {
        events, h' := RaceFrom(cfg, start, events, h, p, 1);
      } else {
        events, h' := SetAsideFrom(cfg, start, events, h, p);
      }
    }
  }

  /** From a fresh host, no run over-promises if and only if nothing else takes
      memory, no promise is set aside and no load lands in a check's window. */
  lemma NothingIsOverPromisedExactlyWhen(cfg: Config, allowed: Allowed, start: Host)
    requires Fresh(cfg, start)
    ensures (forall events :: Run(cfg, start, events) && AllowedRun(allowed, cfg, start, events) ==>
               Honoured(cfg, After(cfg, start, events)))
            <==> allowed == NOTHING_ALLOWED
  {
    FreshHostIsCovered(cfg, start);
    if allowed == NOTHING_ALLOWED {
      forall events | Run(cfg, start, events) && AllowedRun(allowed, cfg, start, events)
        ensures Honoured(cfg, After(cfg, start, events))
      {
        NothingAllowedIsQuiet(cfg, start, events);
        NoOverPromising(cfg, start, events);
      }
    } else {
      var events := SomethingIsOverPromised(cfg, allowed, start);
    }
  }
}
