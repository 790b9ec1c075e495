/** A server unloaded under memory pressure posts its notice outside the
    admission lock: exactly when that notice is overtaken, and what it makes the
    server forget. */
module AdmissionReload {
  import opened Common
  import opened MemoryAdmission
  import opened AdmissionProtocol
  import opened AdmissionSafety
  import opened AdmissionNotices

  // ------------------------------------ who gets past a notice posted late

  /** What the check in flight, if it is probing notices, decides should no
      notice still to be probed be up. */
  function SoFar(cfg: Config, h: Host): Decision
    requires AtProbing(h)
  {
    var c := h.check.value;
    CheckDecision(c.live, c.countBackground, c.phase.memory, c.required, cfg.reserve, cfg.maxPressure, c.phase.others,
                  c.phase.waiting)
  }

  /** The check in flight has listed the notices without `p`'s, has found none
      up, is heading for a yes, and is not of a process that already holds a
      background reservation. */
  predicate Overtakes(cfg: Config, h: Host, p: Pid) {
    && AtProbing(h) && p !in h.check.value.phase.names && h.check.value.phase.waiting == []
    && h.check.value.pid !in BackgroundEntitled(h)
    && SoFar(cfg, h).admitted
  }

  /** The check in flight has passed `p` by, and gains nothing beyond `kept`. */
  predicate PassesInVain(cfg: Config, h: Host, kept: set<Pid>) {
    AtProbing(h) && (!SoFar(cfg, h).admitted || h.check.value.pid in kept)
  }

  /** With `p`'s notice up, nobody beyond `kept` has a background reservation or
      is about to get one. */
  predicate Contained(cfg: Config, h: Host, p: Pid, kept: set<Pid>) {
    && Posted(h, p) && BackgroundEntitled(h) <= kept
    && (HeldBack(h, p) || PassesInVain(cfg, h, kept))
  }

  /** One more notice found up can only turn a yes into a no. */
  lemma ProbingInVain(cfg: Config, h: Host, q: Pid, kept: set<Pid>)
    requires WellFormed(h) && PassesInVain(cfg, h, kept) && Enabled(h, ProbeNotice(q))
    ensures PassesInVain(cfg, Apply(cfg, h, ProbeNotice(q)), kept)
  {
    var h' := Apply(cfg, h, ProbeNotice(q));
    if Posted(h, q) {
      assert h'.check.value.phase.waiting != [];
    } else {
      assert SoFar(cfg, h') == SoFar(cfg, h);
    }
  }

  lemma DecidingInVain(cfg: Config, h: Host, p: Pid, kept: set<Pid>)
    requires WellFormed(h) && Contained(cfg, h, p, kept) && PassesInVain(cfg, h, kept) && Enabled(h, DecideNow)
    ensures Contained(cfg, DecideStep(cfg, h), p, kept)
  {
    assert DecisionOf(cfg, h) == SoFar(cfg, h);
  }

  /** A step that neither probes nor decides leaves what the check has read. */
  lemma StillInVain(cfg: Config, h: Host, e: Event, kept: set<Pid>)
    requires PassesInVain(cfg, h, kept) && Enabled(h, e) && e != DecideNow && !e.ProbeNotice?
    ensures !AtProbing(Apply(cfg, h, e)) || PassesInVain(cfg, Apply(cfg, h, e), kept)
  {
    if e.Load? || e.HostTakes? || e.Grow? {
      DriftingInVain(cfg, h, e, kept);
    } else {
      OthersLeaveProbing(cfg, h, e);
    }
  }

  lemma DriftIsInVain(cfg: Config, h: Host, h': Host, kept: set<Pid>)
    requires PassesInVain(cfg, h, kept) && h'.check.Some?
    requires h'.check.value == h.check.value.(drift := h'.check.value.drift)
    ensures PassesInVain(cfg, h', kept)
  {
  }

  lemma OnlyDrifts(cfg: Config, h: Host, e: Event)
    requires AtProbing(h) && Enabled(h, e) && (e.Load? || e.HostTakes? || e.Grow?)
    ensures var h' := Apply(cfg, h, e);
            h'.check.Some? && h'.check.value == h.check.value.(drift := h'.check.value.drift)
  {
    if e.Load? {
      LoadOnlyDrifts(h, e.pid, e.bytes);
    } else if e.Grow? {
      assert Apply(cfg, h, e) == GrowStep(h, e.pid, e.bytes);
    }
  }

  lemma LoadOnlyDrifts(h: Host, p: Pid, n: nat)
    requires AtProbing(h) && p in h.footprint
    ensures var h' := LoadStep(h, p, n);
            h'.check.Some? && h'.check.value == h.check.value.(drift := h'.check.value.drift)
  {
  }

  lemma DriftingInVain(cfg: Config, h: Host, e: Event, kept: set<Pid>)
    requires PassesInVain(cfg, h, kept) && Enabled(h, e) && (e.Load? || e.HostTakes? || e.Grow?)
    ensures PassesInVain(cfg, Apply(cfg, h, e), kept)
  {
    OnlyDrifts(cfg, h, e);
    DriftIsInVain(cfg, h, Apply(cfg, h, e), kept);
  }

  lemma OthersLeaveProbing(cfg: Config, h: Host, e: Event)
    requires AtProbing(h) && Enabled(h, e) && e != DecideNow && !e.ProbeNotice? && !e.Load? && !e.HostTakes? && !e.Grow?
    ensures Apply(cfg, h, e).check == h.check || Apply(cfg, h, e).check == None
  {
  }

  lemma ContainedStep(cfg: Config, h: Host, e: Event, p: Pid, kept: set<Pid>)
    requires WellFormed(h) && Contained(cfg, h, p, kept) && Enabled(h, e) && Posted(Apply(cfg, h, e), p)
    ensures Contained(cfg, Apply(cfg, h, e), p, kept)
  {
    if HeldBack(h, p) {
      NoBackgroundGains(cfg, h, e, p);
      HeldBackIsKept(cfg, h, e, p);
    } else if e == DecideNow {
      DecidingInVain(cfg, h, p, kept);
    } else {
      OnlyDecidingGains(cfg, h, e);
      if e.ProbeNotice? {
        ProbingInVain(cfg, h, e.pid, kept);
      } else {
        StillInVain(cfg, h, e, kept);
      }
    }
  }

  lemma {:induction false} ContainedThroughout(cfg: Config, h: Host, events: seq<Event>, p: Pid, kept: set<Pid>)
    requires WellFormed(h) && Contained(cfg, h, p, kept)
    requires Run(cfg, h, events) && UpThroughout(cfg, h, events, p)
    ensures BackgroundEntitled(After(cfg, h, events)) <= kept
    decreases |events|
  {
    if events != [] {
      WellFormedIsKept(cfg, h, events[0]);
      ContainedStep(cfg, h, events[0], p, kept);
      ContainedThroughout(cfg, Apply(cfg, h, events[0]), events[1..], p, kept);
    }
  }

  // --------------------------------------------- and the run in which it does

  lemma {:induction false} UpSnoc(cfg: Config, h: Host, events: seq<Event>, e: Event, p: Pid)
    requires Run(cfg, h, events) && UpThroughout(cfg, h, events, p) && Enabled(After(cfg, h, events), e)
    requires Posted(Apply(cfg, After(cfg, h, events), e), p)
    ensures Run(cfg, h, events + [e]) && UpThroughout(cfg, h, events + [e], p)
    decreases |events|
  {
    RunSnoc(cfg, h, events, e);
    if events == [] {
      assert UpThroughout(cfg, Apply(cfg, h, e), [], p);
    } else {
      assert (events + [e])[1..] == events[1..] + [e];
      UpSnoc(cfg, Apply(cfg, h, events[0]), events[1..], e, p);
    }
  }

  /** A run to `h` with `p`'s notice up throughout. */
  predicate UpTo(cfg: Config, start: Host, events: seq<Event>, h: Host, p: Pid) {
    Run(cfg, start, events) && After(cfg, start, events) == h && UpThroughout(cfg, start, events, p)
  }

  lemma StaysUp(cfg: Config, start: Host, events: seq<Event>, h: Host, p: Pid, e: Event, h': Host)
    requires UpTo(cfg, start, events, h, p) && Enabled(h, e) && Apply(cfg, h, e) == h' && Posted(h', p)
    ensures UpTo(cfg, start, events + [e], h', p)
  {
    RunSnoc(cfg, start, events, e);
    UpSnoc(cfg, start, events, e, p);
  }

  /** The check in flight has probed all but `names`, and found nothing. */
  predicate ProbedAllBut(h: Host, h': Host, names: set<Pid>)
    requires AtProbing(h)
  {
    && h'.check == Some(h.check.value.(phase := h.check.value.phase.(names := names)))
    && h'.files == h.files && h'.entitled == h.entitled && h'.footprint == h.footprint
  }

  /** Another notice may come down before it is probed. */
  lemma ProbeOne(cfg: Config, start: Host, before: seq<Event>, h: Host, p: Pid, q: Pid)
      returns (events: seq<Event>, h': Host)
    requires AtProbing(h) && h.check.value.phase.waiting == []
    requires UpTo(cfg, start, before, h, p) && Posted(h, p) && q != p && q in h.check.value.phase.names
    ensures UpTo(cfg, start, events, h', p) && Posted(h', p) && ProbedAllBut(h, h', h.check.value.phase.names - {q})
  {
    events, h' := before, h;
    if Posted(h, q) {
      h' := Apply(cfg, h, WithdrawOnRelease(q));
      StaysUp(cfg, start, before, h, p, WithdrawOnRelease(q), h');
      events := before + [WithdrawOnRelease(q)];
    }
    var h1 := h';
    h' := Apply(cfg, h1, ProbeNotice(q));
    StaysUp(cfg, start, events, h1, p, ProbeNotice(q), h');
    events := events + [ProbeNotice(q)];
  }

  /** ... and so may every other. */
  lemma {:induction false} ProbeTheRest(cfg: Config, start: Host, before: seq<Event>, h: Host, p: Pid)
      returns (events: seq<Event>, h': Host)
    requires AtProbing(h) && h.check.value.phase.waiting == [] && p !in h.check.value.phase.names
    requires UpTo(cfg, start, before, h, p) && Posted(h, p)
    ensures UpTo(cfg, start, events, h', p) && Posted(h', p) && ProbedAllBut(h, h', {})
    decreases h.check.value.phase.names
  {
    if h.check.value.phase.names == {} {
      events, h' := before, h;
    } else {
      var q :| q in h.check.value.phase.names;
      events, h' := ProbeOne(cfg, start, before, h, p, q);
      events, h' := ProbeTheRest(cfg, start, events, h', p);
    }
  }

  lemma DecidesAsSoFar(cfg: Config, h: Host, h': Host)
    requires AtProbing(h) && !h.check.value.live && ProbedAllBut(h, h', {}) && SoFar(cfg, h).admitted
    requires h.check.value.pid in h.footprint
    ensures Enabled(h', DecideNow) && Apply(cfg, h', DecideNow).servers == h'.servers
    ensures h.check.value.pid in BackgroundEntitled(Apply(cfg, h', DecideNow))
  {
    assert DecisionOf(cfg, h') == SoFar(cfg, h);
  }

  /** With `p`'s notice up, a check that overtakes it is admitted in some run
      through which the notice stays up. */
  lemma ReloadCanBeOvertaken(cfg: Config, h: Host, p: Pid) returns (events: seq<Event>)
    requires WellFormed(h) && Posted(h, p) && Overtakes(cfg, h, p)
    ensures Run(cfg, h, events) && UpThroughout(cfg, h, events, p)
    ensures h.check.value.pid in BackgroundEntitled(After(cfg, h, events))
  {
    var h1;
    events, h1 := ProbeTheRest(cfg, h, [], h, p);
    DecidesAsSoFar(cfg, h, h1);
    StaysUp(cfg, h, events, h1, p, DecideNow, Apply(cfg, h1, DecideNow));
    events := events + [DecideNow];
  }

  /** `release_for_reload` posts outside the admission lock. While its notice is
      up no background process gains a reservation, in any run, if and only if
      no check in flight overtakes it: one that listed the notices too early,
      found none of the others up, has seen room, and would be its process's
      first background reservation. */
  lemma ReloadHoldsBackExactlyWhen(cfg: Config, h: Host, p: Pid)
    requires WellFormed(h) && p in h.servers
    ensures var h1 := Apply(cfg, h, PostReload(p, true));
            (forall events :: Run(cfg, h1, events) && UpThroughout(cfg, h1, events, p) ==>
               BackgroundEntitled(After(cfg, h1, events)) <= BackgroundEntitled(h))
            <==> !Overtakes(cfg, h, p)
  {
    var h1 := Apply(cfg, h, PostReload(p, true));
    WellFormedIsKept(cfg, h, PostReload(p, true));
    assert BackgroundEntitled(h1) == BackgroundEntitled(h) && h1.check == h.check;
    if Overtakes(cfg, h, p) {
      var events := ReloadCanBeOvertaken(cfg, h1, p);
    } else {
      assert Contained(cfg, h1, p, BackgroundEntitled(h));
      forall events | Run(cfg, h1, events) && UpThroughout(cfg, h1, events, p)
        ensures BackgroundEntitled(After(cfg, h1, events)) <= BackgroundEntitled(h)
      {
        ContainedThroughout(cfg, h1, events, p, BackgroundEntitled(h));
      }
    }
  }

  // ------------------------------- a second reason makes it forget the first

  predicate Reaches(cfg: Config, start: Host, events: seq<Event>, h: Host, p: Pid) {
    Run(cfg, start, events) && After(cfg, start, events) == h && NoWayOut(cfg, start, events, p)
  }

  lemma {:induction false} NoWayOutSnoc(cfg: Config, h: Host, events: seq<Event>, e: Event, p: Pid)
    requires Run(cfg, h, events) && NoWayOut(cfg, h, events, p)
    requires Enabled(After(cfg, h, events), e) && !EndsPastBackground(After(cfg, h, events), e, p)
    ensures Run(cfg, h, events + [e]) && NoWayOut(cfg, h, events + [e], p)
    decreases |events|
  {
    RunSnoc(cfg, h, events, e);
    if events == [] {
      assert NoWayOut(cfg, Apply(cfg, h, e), [], p);
    } else {
      assert (events + [e])[1..] == events[1..] + [e];
      NoWayOutSnoc(cfg, Apply(cfg, h, events[0]), events[1..], e, p);
    }
  }

  lemma Extend(cfg: Config, start: Host, events: seq<Event>, h: Host, p: Pid, e: Event, h': Host)
    requires Reaches(cfg, start, events, h, p)
    requires Enabled(h, e) && !EndsPastBackground(h, e, p) && Apply(cfg, h, e) == h'
    ensures Reaches(cfg, start, events + [e], h', p)
  {
    RunSnoc(cfg, start, events, e);
    NoWayOutSnoc(cfg, start, events, e, p);
  }

  /** `p` is a live server, and the background job `job` still runs. */
  predicate StillRuns(h: Host, p: Pid, job: Pid) {
    && p in h.servers && p in h.footprint
    && job != p && job in h.files && job in h.footprint && !h.files[job].IsLive()
  }

  /** Memory pressure: the server gives up its models and asks for a reload. */
  lemma Reloads(cfg: Config, h: Host, p: Pid, job: Pid) returns (events: seq<Event>, h': Host)
    requires StillRuns(h, p, job) && h.check == None
    ensures Reaches(cfg, h, events, h', p)
    ensures StillRuns(h', p, job) && h'.check == None && h'.pressure == Critical
    ensures h'.servers[p] == Post(h.servers[p], ReloadPending, h.now, true)
  {
    var h1 := Apply(cfg, h, ReleaseReservation(p));
    Extend(cfg, h, [], h, p, ReleaseReservation(p), h1);
    var h2 := Apply(cfg, h1, PostReload(p, true));
    Extend(cfg, h, [] + [ReleaseReservation(p)], h1, p, PostReload(p, true), h2);
    h' := Apply(cfg, h2, KernelPressure(Critical));
    Extend(cfg, h, [] + [ReleaseReservation(p)] + [PostReload(p, true)], h2, p, KernelPressure(Critical), h');
    events := [] + [ReleaseReservation(p)] + [PostReload(p, true)] + [KernelPressure(Critical)];
  }

  /** It tries again, and reads the host under pressure. */
  lemma Locks(cfg: Config, start: Host, before: seq<Event>, h: Host, p: Pid, job: Pid)
      returns (events: seq<Event>, h': Host)
    requires Reaches(cfg, start, before, h, p) && StillRuns(h, p, job) && h.check == None && h.pressure == Critical
    ensures Reaches(cfg, start, events, h', p)
    ensures StillRuns(h', p, job) && h'.servers == h.servers && h'.pressure == Critical
    ensures AtLocked(h') && h'.check.value.pid == p && h'.check.value.live
  {
    var h1 := h;
    events := before;
    if p !in h.asking {
      h1 := Apply(cfg, h, BeginLiveCheck(p));
      Extend(cfg, start, before, h, p, BeginLiveCheck(p), h1);
      events := before + [BeginLiveCheck(p)];
    }
    var lock := Event.Lock(p, LocalServer, 0);
    h' := Apply(cfg, h1, lock);
    Extend(cfg, start, events, h1, p, lock, h');
    events := events + [lock];
  }

  /** A live check of `p` that has measured critical pressure. */
  predicate SeesCritical(h: Host, p: Pid) {
    AtReading(h) && h.check.value.pid == p && h.check.value.live && h.check.value.phase.memory.pressure == Critical
  }

  lemma Measures(cfg: Config, start: Host, before: seq<Event>, h: Host, p: Pid, job: Pid)
      returns (events: seq<Event>, h': Host)
    requires Reaches(cfg, start, before, h, p) && StillRuns(h, p, job) && h.pressure == Critical
    requires AtLocked(h) && h.check.value.pid == p && h.check.value.live
    ensures Reaches(cfg, start, events, h', p)
    ensures StillRuns(h', p, job) && h'.servers == h.servers && SeesCritical(h', p)
  {
    var measure := Measure(HostMemory(h.available, 0, 0, Critical));
    var h1 := Apply(cfg, h, measure);
    Extend(cfg, start, before, h, p, measure, h1);
    h' := Apply(cfg, h1, ListReservations);
    Extend(cfg, start, before + [measure], h1, p, ListReservations, h');
    events := before + [measure] + [ListReservations];
  }

  /** Reading sweeps what gone processes left, and nothing of those running. */
  lemma ReadsOne(cfg: Config, h: Host, p: Pid, job: Pid, q: Pid)
    requires StillRuns(h, p, job) && SeesCritical(h, p) && q in h.check.value.phase.todo
    ensures Enabled(h, ReadReservation(q, true)) && !EndsPastBackground(h, ReadReservation(q, true), p)
    ensures var h' := ReadStep(h, q, true);
            && StillRuns(h', p, job) && h'.servers == h.servers && SeesCritical(h', p)
            && h'.check.value.phase.todo == h.check.value.phase.todo - {q}
  {
  }

  lemma {:induction false} ReadsAll(cfg: Config, start: Host, before: seq<Event>, h: Host, p: Pid, job: Pid)
      returns (events: seq<Event>, h': Host)
    requires Reaches(cfg, start, before, h, p) && StillRuns(h, p, job) && SeesCritical(h, p)
    ensures Reaches(cfg, start, events, h', p)
    ensures StillRuns(h', p, job) && h'.servers == h.servers && SeesCritical(h', p) && h'.check.value.phase.todo == {}
    decreases h.check.value.phase.todo
  {
    if h.check.value.phase.todo == {} {
      events, h' := before, h;
    } else {
      var q :| q in h.check.value.phase.todo;
      ReadsOne(cfg, h, p, job, q);
      Extend(cfg, start, before, h, p, ReadReservation(q, true), ReadStep(h, q, true));
      events, h' := ReadsAll(cfg, start, before + [ReadReservation(q, true)], ReadStep(h, q, true), p, job);
    }
  }

  lemma CriticalIsRefused(cfg: Config, h: Host, p: Pid)
    requires SeesCritical(h, p) && h.check.value.phase.todo == {}
    ensures Enabled(h, DecideNow) && !DecisionOf(cfg, h).admitted
    ensures Apply(cfg, h, DecideNow) == WithPhase(h, Decided(DecisionOf(cfg, h)))
  {
  }

  /** Refused, it posts again, and the old reason is gone. */
  lemma IsRefused(cfg: Config, start: Host, before: seq<Event>, h: Host, p: Pid, job: Pid)
      returns (events: seq<Event>, h': Host)
    requires Reaches(cfg, start, before, h, p) && StillRuns(h, p, job)
    requires SeesCritical(h, p) && h.check.value.phase.todo == {}
    ensures Reaches(cfg, start, events, h', p) && StillRuns(h', p, job)
    ensures h'.servers[p] == Post(h.servers[p].(lastRefusalAt := Some(h'.now)), Waiting, h'.now, true)
  {
    CriticalIsRefused(cfg, h, p);
    var h1 := Apply(cfg, h, DecideNow);
    Extend(cfg, start, before, h, p, DecideNow, h1);
    h' := Apply(cfg, h1, SettleNow(true));
    Extend(cfg, start, before + [DecideNow], h1, p, SettleNow(true), h');
    events := before + [DecideNow] + [SettleNow(true)];
  }

  /** A lapse later the watchdog takes the notice down. */
  lemma Lapses(cfg: Config, start: Host, before: seq<Event>, h: Host, p: Pid, job: Pid)
      returns (events: seq<Event>, h': Host)
    requires Reaches(cfg, start, before, h, p) && StillRuns(h, p, job)
    requires h.servers[p].cause == Some(Waiting) && h.servers[p].lastRefusalAt == Some(h.now)
    ensures Reaches(cfg, start, events, h', p) && StillRuns(h', p, job) && !Posted(h', p)
  {
    var clock := Clock(h.now + Max(0, cfg.lapse));
    var h1 := Apply(cfg, h, clock);
    Extend(cfg, start, before, h, p, clock, h1);
    assert BackgroundRunning(h1, p);
    h' := Apply(cfg, h1, TickNow(p, true));
    Extend(cfg, start, before + [clock], h1, p, TickNow(p, true), h');
    events := before + [clock] + [TickNow(p, true)];
  }

  /** A second reason makes the server forget the first: from every host on
      which a server's notice says it was admitted past background jobs, one of
      which still runs, and no check is in flight, there is a run in which it
      reloads, is refused and lapses, so that the notice is down while the job
      still runs, with none of the ways out the design allows. */
  lemma SecondReasonForgetsTheFirst(cfg: Config, h: Host, p: Pid) returns (events: seq<Event>)
    requires WellFormed(h) && h.check == None
    requires Posted(h, p) && h.servers[p].cause == Some(PastBackground) && BackgroundRunning(h, p)
    ensures Run(cfg, h, events) && NoWayOut(cfg, h, events, p)
    ensures var h' := After(cfg, h, events);
            p in h'.servers && !Posted(h', p) && BackgroundRunning(h', p)
  {
    var job :| job in h.files && job != p && job in h.footprint && !h.files[job].IsLive();
    var h1;
    events, h1 := Reloads(cfg, h, p, job);
    events, h1 := Locks(cfg, h, events, h1, p, job);
    events, h1 := Measures(cfg, h, events, h1, p, job);
    events, h1 := ReadsAll(cfg, h, events, h1, p, job);
    events, h1 := IsRefused(cfg, h, events, h1, p, job);
    events, h1 := Lapses(cfg, h, events, h1, p, job);
  }
}
