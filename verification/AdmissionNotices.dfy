/** What a live server's notice buys it: no background load starts while it is
    up, it comes down only for a reason, and it bounds how long background
    promises hold the server off. */
module AdmissionNotices {
  import opened Common
  import opened MemoryAdmission
  import opened AdmissionProtocol
  import opened AdmissionSafety

  // ---------------------------------- while a notice is up, nobody else starts

  /** `p`'s notice is up and the check in flight, if it is a background one,
      has not passed it by. */
  predicate HeldBack(h: Host, p: Pid) {
    && Posted(h, p)
    && (AtProbing(h) ==> p in h.check.value.phase.names || p in h.check.value.phase.waiting)
  }

  /** The running background processes whose own reservation is in force. */
  function BackgroundEntitled(h: Host): set<Pid> {
    set p | p in h.entitled && p in h.files && p in h.footprint && !h.files[p].IsLive()
  }

  /** The running processes a background reservation stands for, which after a
      pid has been reused may not be the processes that made it. */
  function BackgroundHolders(h: Host): set<Pid> {
    set p | p in h.files && p in h.footprint && !h.files[p].IsLive()
  }

  lemma HeldBackIsKept(cfg: Config, h: Host, e: Event, p: Pid)
    requires HeldBack(h, p) && Enabled(h, e) && Posted(Apply(cfg, h, e), p)
    ensures HeldBack(Apply(cfg, h, e), p)
  {
    if e.ProbeNotice? {
      ProbingHoldsBack(cfg, h, e.pid, p);
    } else if !e.ListNotices? && AtProbing(Apply(cfg, h, e)) {
      OthersLeaveNotices(cfg, h, e);
    }
  }

  lemma ProbingHoldsBack(cfg: Config, h: Host, q: Pid, p: Pid)
    requires HeldBack(h, p) && Enabled(h, ProbeNotice(q))
    ensures HeldBack(Apply(cfg, h, ProbeNotice(q)), p)
  {
    var waiting := Apply(cfg, h, ProbeNotice(q)).check.value.phase.waiting;
    assert q == p ==> waiting[|waiting| - 1] == p;
    assert forall x :: x in h.check.value.phase.waiting ==> x in waiting;
  }

  /** A check comes to probing by listing, and probing alone changes what it has
      found. */
  lemma OthersLeaveNotices(cfg: Config, h: Host, e: Event)
    requires Enabled(h, e) && !e.ProbeNotice? && !e.ListNotices? && AtProbing(Apply(cfg, h, e))
    ensures AtProbing(h) && Apply(cfg, h, e).check.value.phase == h.check.value.phase
  {
    if e.ReadReservation? || e.DecideNow? {
      CountingIsNotProbing(cfg, h, e);
    } else if ByCheck(e) {
      ChecksLeaveProbing(cfg, h, e);
    }
  }

  lemma CountingIsNotProbing(cfg: Config, h: Host, e: Event)
    requires Enabled(h, e) && (e.ReadReservation? || e.DecideNow?)
    ensures !AtProbing(Apply(cfg, h, e))
  {
  }

  lemma ChecksLeaveProbing(cfg: Config, h: Host, e: Event)
    requires Enabled(h, e) && ByCheck(e) && !e.ProbeNotice? && !e.ListNotices? && !e.ReadReservation? && !e.DecideNow?
    ensures !AtProbing(Apply(cfg, h, e))
  {
  }

  /** A check that a held-back notice is in the way of says no. */
  lemma HeldBackRefuses(cfg: Config, h: Host, p: Pid)
    requires HeldBack(h, p) && Enabled(h, DecideNow) && !h.check.value.live && AtProbing(h)
    ensures !DecisionOf(cfg, h).admitted
  {
    assert h.check.value.phase.waiting != [];
  }

  lemma DecideGainsNoBackground(cfg: Config, h: Host, p: Pid)
    requires WellFormed(h) && HeldBack(h, p) && Enabled(h, DecideNow)
    ensures BackgroundEntitled(DecideStep(cfg, h)) <= BackgroundEntitled(h)
    ensures BackgroundHolders(DecideStep(cfg, h)) <= BackgroundHolders(h)
  {
    if AtProbing(h) {
      HeldBackRefuses(cfg, h, p);
    } else {
      assert DecisionOf(cfg, h).admitted ==> DecideStep(cfg, h).files[h.check.value.pid].IsLive();
    }
  }

  /** Only a decision gives a process a reservation; a new process under a left
      pid finds its predecessor's file. */
  lemma OnlyDecidingGains(cfg: Config, h: Host, e: Event)
    requires WellFormed(h) && Enabled(h, e) && e != DecideNow
    ensures BackgroundEntitled(Apply(cfg, h, e)) <= BackgroundEntitled(h)
    ensures BackgroundHolders(Apply(cfg, h, e))
              <= BackgroundHolders(h) + if e.Spawn? && e.pid in h.files then {e.pid} else {}
  {
    if e.ReadReservation? {
      NothingGained(h, ReadStep(h, e.pid, e.readable), {});
    } else if ByCheck(e) {
      ChecksLeaveTheBooks(cfg, h, e);
      NothingGained(h, Apply(cfg, h, e), {});
    } else if e.Spawn? {
      NothingGained(h, Apply(cfg, h, e), {e.pid});
    } else {
      OthersGainNothing(cfg, h, e);
      NothingGained(h, Apply(cfg, h, e), {});
    }
  }

  lemma OthersGainNothing(cfg: Config, h: Host, e: Event)
    requires Enabled(h, e) && !ByCheck(e) && !e.Spawn?
    ensures var h' := Apply(cfg, h, e);
            && h'.entitled <= h.entitled && h'.footprint.Keys <= h.footprint.Keys
            && (h'.files == h.files || (e.ReleaseReservation? && h'.files == h.files - {e.pid}))
  {
  }

  lemma NothingGained(h: Host, h': Host, started: set<Pid>)
    requires WellFormed(h) && h'.entitled <= h.entitled && h'.footprint.Keys <= h.footprint.Keys + started
    requires forall q :: q in h'.files ==> q in h.files && h'.files[q] == h.files[q]
    ensures BackgroundEntitled(h') <= BackgroundEntitled(h)
    ensures BackgroundHolders(h') <= BackgroundHolders(h) + (started * h.files.Keys)
  {
  }

  lemma NoBackgroundGains(cfg: Config, h: Host, e: Event, p: Pid)
    requires WellFormed(h) && HeldBack(h, p) && Enabled(h, e)
    ensures BackgroundEntitled(Apply(cfg, h, e)) <= BackgroundEntitled(h)
    ensures BackgroundHolders(Apply(cfg, h, e))
              <= BackgroundHolders(h) + if e.Spawn? && e.pid in h.files then {e.pid} else {}
  {
    if e == DecideNow {
      DecideGainsNoBackground(cfg, h, p);
    } else {
      OnlyDecidingGains(cfg, h, e);
    }
  }

  /** The notice is up after every event of the run. */
  predicate UpThroughout(cfg: Config, h: Host, events: seq<Event>, p: Pid)
    requires Run(cfg, h, events)
    decreases |events|
  {
    Posted(h, p) && (events == [] || UpThroughout(cfg, Apply(cfg, h, events[0]), events[1..], p))
  }

  /** No process starts under a pid that left a reservation behind. */
  predicate NoPidReuse(cfg: Config, h: Host, events: seq<Event>)
    requires Run(cfg, h, events)
    decreases |events|
  {
    events == []
    || ((events[0].Spawn? ==> events[0].pid !in h.files) && NoPidReuse(cfg, Apply(cfg, h, events[0]), events[1..]))
  }

  /** For as long as the notice stays up, no background process gains a
      reservation: those in force only go away. */
  lemma {:induction false} BackgroundOnlyShrinks(cfg: Config, h: Host, events: seq<Event>, p: Pid)
    requires WellFormed(h) && HeldBack(h, p)
    requires Run(cfg, h, events) && UpThroughout(cfg, h, events, p)
    ensures BackgroundEntitled(After(cfg, h, events)) <= BackgroundEntitled(h)
    ensures NoPidReuse(cfg, h, events) ==> BackgroundHolders(After(cfg, h, events)) <= BackgroundHolders(h)
    decreases |events|
  {
    if events != [] {
      NoBackgroundGains(cfg, h, events[0], p);
      WellFormedIsKept(cfg, h, events[0]);
      assert Posted(Apply(cfg, h, events[0]), p);
      HeldBackIsKept(cfg, h, events[0], p);
      BackgroundOnlyShrinks(cfg, Apply(cfg, h, events[0]), events[1..], p);
    }
  }

  /** A check posts under the admission lock, so whatever it posts holds every
      later background check back. */
  lemma SettlingHoldsBack(cfg: Config, h: Host, ok: bool)
    requires WellFormed(h) && Enabled(h, SettleNow(ok)) && Posted(Apply(cfg, h, SettleNow(ok)), h.check.value.pid)
    ensures HeldBack(Apply(cfg, h, SettleNow(ok)), h.check.value.pid)
  {
  }

  /** The promise as made: from an admission past background promises until
      the notice comes down, background reservations in force only go away. */
  lemma PastBackgroundHoldsThemToWhatTheyHave(cfg: Config, h: Host, ok: bool, events: seq<Event>)
    requires WellFormed(h) && Enabled(h, SettleNow(ok))
    requires h.check.value.phase.decision.admitted && h.check.value.phase.decision.setAside != []
    requires ok || Posted(h, h.check.value.pid)
    requires Run(cfg, Apply(cfg, h, SettleNow(ok)), events)
    requires UpThroughout(cfg, Apply(cfg, h, SettleNow(ok)), events, h.check.value.pid)
    ensures BackgroundEntitled(After(cfg, Apply(cfg, h, SettleNow(ok)), events)) <= BackgroundEntitled(h)
  {
    var p := h.check.value.pid;
    var h' := Apply(cfg, h, SettleNow(ok));
    assert Posted(h', p);
    SettlingHoldsBack(cfg, h, ok);
    WellFormedIsKept(cfg, h, SettleNow(ok));
    BackgroundOnlyShrinks(cfg, h', events, p);
    assert BackgroundEntitled(h') == BackgroundEntitled(h);
  }

  // -------------------------------------------------- what takes a notice down

  /** `e` gives `p`'s notice a reason to come down. */
  predicate TakesDown(cfg: Config, h: Host, e: Event, p: Pid)
    requires Enabled(h, e) && p in h.servers
  {
    match e
    case Die(q) => q == p
    case WithdrawOnRelease(q) => q == p
    case SettleNow(_) =>
      h.check.value.pid == p && h.check.value.phase.decision.admitted && h.check.value.phase.decision.setAside == []
    case TickNow(q, readable) => q == p && ReasonPassed(cfg, h, p, readable)
    case _ => false
  }

  /** The reason for `p`'s notice has passed: a lapse since its last refusal, or
      no background job left, as far as the tick can read. */
  predicate ReasonPassed(cfg: Config, h: Host, p: Pid, readable: bool)
    requires p in h.servers
  {
    var s := h.servers[p];
    || (s.cause == Some(Waiting) && s.lastRefusalAt.Some? && h.now - s.lastRefusalAt.value >= cfg.lapse)
    || (s.cause == Some(PastBackground) && readable
        && forall r :: r in h.files && r in h.footprint && r != p ==> h.files[r].IsLive())
  }

  /** `e` is a step of the live server `p`, or the settling of its check. */
  predicate Concerns(h: Host, e: Event, p: Pid)
    requires Enabled(h, e)
  {
    match e
    case Die(q) => q == p
    case WithdrawOnRelease(q) => q == p
    case PostReload(q, _) => q == p
    case TickNow(q, _) => q == p
    case SettleNow(_) => h.check.value.pid == p
    case _ => false
  }

  /** No other step touches a server's notice or what it knows about it. */
  lemma OthersLeaveServer(cfg: Config, h: Host, e: Event, p: Pid)
    requires WellFormed(h) && Enabled(h, e) && !Concerns(h, e, p) && p in h.servers
    ensures p in Apply(cfg, h, e).servers && Apply(cfg, h, e).servers[p] == h.servers[p]
  {
    if e.ReadReservation? {
      ReadingLeavesServers(h, e.pid, e.readable);
    } else if e.DecideNow? {
      DecidingLeavesServers(cfg, h);
    } else if ByCheck(e) {
      ChecksLeaveServers(cfg, h, e, p);
    } else if ByProcess(e) || BySurroundings(e) {
      ProcessesLeaveServers(cfg, h, e);
    } else if ByServer(e) {
      ServersLeaveEachOther(cfg, h, e, p);
    }
  }

  lemma ReadingLeavesServers(h: Host, q: Pid, readable: bool)
    requires Enabled(h, ReadReservation(q, readable))
    ensures ReadStep(h, q, readable).servers == h.servers && ReadStep(h, q, readable).asking == h.asking
  {
  }

  lemma DecidingLeavesServers(cfg: Config, h: Host)
    requires Enabled(h, DecideNow)
    ensures DecideStep(cfg, h).servers == h.servers && DecideStep(cfg, h).asking == h.asking
  {
  }

  lemma ChecksLeaveServers(cfg: Config, h: Host, e: Event, p: Pid)
    requires Enabled(h, e) && ByCheck(e) && !e.ReadReservation? && !e.DecideNow? && !Concerns(h, e, p) && p in h.servers
    ensures p in Apply(cfg, h, e).servers && Apply(cfg, h, e).servers[p] == h.servers[p]
  {
  }

  lemma ProcessesLeaveServers(cfg: Config, h: Host, e: Event)
    requires Enabled(h, e) && (ByProcess(e) || BySurroundings(e))
    ensures Apply(cfg, h, e).servers == h.servers
  {
  }

  lemma ServersLeaveEachOther(cfg: Config, h: Host, e: Event, p: Pid)
    requires Enabled(h, e) && ByServer(e) && !Concerns(h, e, p) && p in h.servers
    ensures p in Apply(cfg, h, e).servers && Apply(cfg, h, e).servers[p] == h.servers[p]
  {
  }

  /** A notice comes down by its owner's death or release, by an admission that
      sets nothing aside, or by a tick whose reason has passed, and by nothing
      else. */
  lemma ComesDownExactlyWhen(cfg: Config, h: Host, e: Event, p: Pid)
    requires WellFormed(h) && Enabled(h, e) && Posted(h, p)
    ensures !Posted(Apply(cfg, h, e), p) <==> TakesDown(cfg, h, e, p)
  {
    if !Concerns(h, e, p) {
      OthersLeaveServer(cfg, h, e, p);
    } else if e.SettleNow? {
      SettlingTakesDown(cfg, h, e.ok);
    } else {
      OwnStepTakesDown(cfg, h, e, p);
    }
  }

  lemma SettlingTakesDown(cfg: Config, h: Host, ok: bool)
    requires Enabled(h, SettleNow(ok)) && Posted(h, h.check.value.pid)
    ensures var d := h.check.value.phase.decision;
            !Posted(Apply(cfg, h, SettleNow(ok)), h.check.value.pid) <==> d.admitted && d.setAside == []
  {
  }

  lemma OwnStepTakesDown(cfg: Config, h: Host, e: Event, p: Pid)
    requires Enabled(h, e) && Posted(h, p) && Concerns(h, e, p) && !e.SettleNow?
    ensures !Posted(Apply(cfg, h, e), p) <==> TakesDown(cfg, h, e, p)
  {
  }

  /** The ways out of "admitted past background" that the design allows. */
  predicate EndsPastBackground(h: Host, e: Event, p: Pid)
    requires Enabled(h, e)
  {
    match e
    case Die(q) => q == p
    case WithdrawOnRelease(q) => q == p
    case SettleNow(_) =>
      h.check.value.pid == p && h.check.value.phase.decision.admitted && h.check.value.phase.decision.setAside == []
    case TickNow(q, readable) => q == p && readable && !BackgroundRunning(h, p)
    case _ => false
  }

  /** No event of the run is such a way out. */
  predicate NoWayOut(cfg: Config, h: Host, events: seq<Event>, p: Pid)
    requires Run(cfg, h, events)
    decreases |events|
  {
    events == []
    || (!EndsPastBackground(h, events[0], p) && NoWayOut(cfg, Apply(cfg, h, events[0]), events[1..], p))
  }

  predicate Refuses(h: Host, e: Event, p: Pid)
    requires Enabled(h, e)
  {
    e.SettleNow? && h.check.value.pid == p && !h.check.value.phase.decision.admitted
  }

  /** When `p` was last refused, and has since had no admission and asked for
      no reload; `refused` is that before this event. */
  function RefusedSince(h: Host, e: Event, p: Pid, refused: Option<int>): Option<int>
    requires Enabled(h, e)
  {
    match e
    case SettleNow(_) =>
      if h.check.value.pid != p then refused else if Refuses(h, e, p) then Some(h.now) else None
    case PostReload(q, _) => if q == p then None else refused
    case _ => refused
  }

  /** Some tick of `p`'s comes a lapse or more after such a refusal. */
  predicate Lapsed(cfg: Config, h: Host, events: seq<Event>, p: Pid, refused: Option<int>)
    requires Run(cfg, h, events)
    decreases |events|
  {
    events != []
    && (var e := events[0];
        || (e.TickNow? && e.pid == p && refused.Some? && h.now - refused.value >= cfg.lapse)
        || Lapsed(cfg, Apply(cfg, h, e), events[1..], p, RefusedSince(h, e, p, refused)))
  }

  /** `p`'s notice is up, for some reason, and it waits since `refused` exactly
      if that is the reason. */
  predicate UpSince(h: Host, p: Pid, refused: Option<int>) {
    && Posted(h, p) && h.servers[p].cause.Some?
    && (h.servers[p].cause == Some(Waiting) <==> refused.Some?)
    && (refused.Some? ==> h.servers[p].lastRefusalAt == refused)
  }

  lemma SettlesSince(cfg: Config, h: Host, ok: bool, refused: Option<int>)
    requires Enabled(h, SettleNow(ok)) && UpSince(h, h.check.value.pid, refused)
    requires !EndsPastBackground(h, SettleNow(ok), h.check.value.pid)
    ensures var p := h.check.value.pid;
            UpSince(Apply(cfg, h, SettleNow(ok)), p, RefusedSince(h, SettleNow(ok), p, refused))
  {
  }

  lemma TicksSince(cfg: Config, h: Host, p: Pid, readable: bool, refused: Option<int>)
    requires Enabled(h, TickNow(p, readable)) && UpSince(h, p, refused)
    requires !EndsPastBackground(h, TickNow(p, readable), p)
    ensures var h' := Apply(cfg, h, TickNow(p, readable));
            if refused.Some? && h.now - refused.value >= cfg.lapse then !Posted(h', p) else UpSince(h', p, refused)
  {
  }

  lemma ReloadsSince(cfg: Config, h: Host, p: Pid, ok: bool, refused: Option<int>)
    requires UpSince(h, p, refused)
    ensures UpSince(Apply(cfg, h, PostReload(p, ok)), p, None)
  {
  }

  lemma UpSinceStep(cfg: Config, h: Host, e: Event, p: Pid, refused: Option<int>)
    requires WellFormed(h) && Enabled(h, e) && UpSince(h, p, refused) && !EndsPastBackground(h, e, p)
    ensures var h' := Apply(cfg, h, e);
            if e.TickNow? && e.pid == p && refused.Some? && h.now - refused.value >= cfg.lapse then !Posted(h', p)
            else UpSince(h', p, RefusedSince(h, e, p, refused))
  {
    if Concerns(h, e, p) {
      UpSinceOwnStep(cfg, h, e, p, refused);
    } else {
      OthersLeaveServer(cfg, h, e, p);
    }
  }

  lemma UpSinceOwnStep(cfg: Config, h: Host, e: Event, p: Pid, refused: Option<int>)
    requires Enabled(h, e) && Concerns(h, e, p) && UpSince(h, p, refused) && !EndsPastBackground(h, e, p)
    ensures var h' := Apply(cfg, h, e);
            if e.TickNow? && e.pid == p && refused.Some? && h.now - refused.value >= cfg.lapse then !Posted(h', p)
            else UpSince(h', p, RefusedSince(h, e, p, refused))
  {
    if e.SettleNow? {
      SettlesSince(cfg, h, e.ok, refused);
    } else if e.TickNow? {
      TicksSince(cfg, h, p, e.readable, refused);
    } else {
      ReloadsSince(cfg, h, p, e.ok, refused);
    }
  }

  lemma {:induction false} UpUntilLapsed(cfg: Config, h: Host, events: seq<Event>, p: Pid, refused: Option<int>)
    requires WellFormed(h) && UpSince(h, p, refused) && Run(cfg, h, events) && NoWayOut(cfg, h, events, p)
    ensures UpThroughout(cfg, h, events, p) <==> !Lapsed(cfg, h, events, p, refused)
    decreases |events|
  {
    if events != [] {
      var e, h' := events[0], Apply(cfg, h, events[0]);
      UpSinceStep(cfg, h, e, p, refused);
      if Posted(h', p) {
        WellFormedIsKept(cfg, h, e);
        UpUntilLapsed(cfg, h', events[1..], p, RefusedSince(h, e, p, refused));
      }
    }
  }

  /** Once a server has loaded past background jobs, its notice stays up through
      a run without one of the designed ways out if and only if no tick comes a
      lapse or more after a refusal that neither an admission nor a reload has
      followed. It is the refusal that makes the server forget. */
  lemma PastBackgroundLastsExactlyWhen(cfg: Config, h: Host, events: seq<Event>, p: Pid)
    requires WellFormed(h) && Posted(h, p) && h.servers[p].cause == Some(PastBackground)
    requires Run(cfg, h, events) && NoWayOut(cfg, h, events, p)
    ensures UpThroughout(cfg, h, events, p) <==> !Lapsed(cfg, h, events, p, None)
  {
    UpUntilLapsed(cfg, h, events, p, None);
  }

  /** No check of `p`'s is refused in this run. */
  predicate NeverRefused(cfg: Config, h: Host, events: seq<Event>, p: Pid)
    requires Run(cfg, h, events)
    decreases |events|
  {
    events == [] || (!Refuses(h, events[0], p) && NeverRefused(cfg, Apply(cfg, h, events[0]), events[1..], p))
  }

  lemma {:induction false} NeverRefusedNeverLapses(cfg: Config, h: Host, events: seq<Event>, p: Pid)
    requires Run(cfg, h, events) && NeverRefused(cfg, h, events, p)
    ensures !Lapsed(cfg, h, events, p, None)
    decreases |events|
  {
    if events != [] {
      NeverRefusedNeverLapses(cfg, Apply(cfg, h, events[0]), events[1..], p);
    }
  }

  /** So a run without a refusal keeps it up, however often it reloads. */
  lemma PastBackgroundLasts(cfg: Config, h: Host, events: seq<Event>, p: Pid)
    requires WellFormed(h) && Posted(h, p) && h.servers[p].cause == Some(PastBackground)
    requires Run(cfg, h, events) && NoWayOut(cfg, h, events, p) && NeverRefused(cfg, h, events, p)
    ensures UpThroughout(cfg, h, events, p)
  {
    NeverRefusedNeverLapses(cfg, h, events, p);
    PastBackgroundLastsExactlyWhen(cfg, h, events, p);
  }

  // ------------------------------------------------ how long a server waits

  /** `p`'s checks settle less than `lapse` apart, the last before this run at
      `last`, and each of them is refused; `p` neither exits nor releases. */
  predicate KeepsTrying(cfg: Config, h: Host, events: seq<Event>, p: Pid, last: int)
    requires Run(cfg, h, events)
    decreases |events|
  {
    events == []
    || (var e := events[0];
        && (e.Die? || e.WithdrawOnRelease? || e.PostReload? ==> e.pid != p)
        && (e.SettleNow? && h.check.value.pid == p ==> !h.check.value.phase.decision.admitted)
        && h.now - last < cfg.lapse
        && KeepsTrying(cfg, Apply(cfg, h, e), events[1..], p,
                       if e.SettleNow? && h.check.value.pid == p then h.now else last))
  }

  lemma TryingStep(cfg: Config, h: Host, e: Event, p: Pid, last: int, since: int)
    requires WellFormed(h) && Enabled(h, e) && KeepsTrying(cfg, h, [e], p, last)
    requires p in h.servers && h.servers[p] == Server(Some(Waiting), Some(last), Some(since))
    ensures var last' := if e.SettleNow? && h.check.value.pid == p then h.now else last;
            && p in Apply(cfg, h, e).servers
            && Apply(cfg, h, e).servers[p] == Server(Some(Waiting), Some(last'), Some(since))
  {
    assert [e][0] == e;
    if !Concerns(h, e, p) {
      OthersLeaveServer(cfg, h, e, p);
    } else if e.SettleNow? {
      RefusalKeepsAge(cfg, h, e.ok);
    } else {
      TickKeepsAge(cfg, h, p, e.readable);
    }
  }

  /** A refusal posts over a notice that is up, and so leaves its age. */
  lemma RefusalKeepsAge(cfg: Config, h: Host, ok: bool)
    requires Enabled(h, SettleNow(ok)) && Posted(h, h.check.value.pid) && !h.check.value.phase.decision.admitted
    ensures var p, h' := h.check.value.pid, Apply(cfg, h, SettleNow(ok));
            p in h'.servers && h'.servers[p] == Server(Some(Waiting), Some(h.now), h.servers[p].postedAt)
  {
  }

  lemma TickKeepsAge(cfg: Config, h: Host, p: Pid, readable: bool)
    requires p in h.servers && h.servers[p].cause == Some(Waiting)
    requires h.servers[p].lastRefusalAt.Some? && h.now - h.servers[p].lastRefusalAt.value < cfg.lapse
    ensures var h' := Apply(cfg, h, TickNow(p, readable));
            p in h'.servers && h'.servers[p] == h.servers[p]
  {
  }

  /** A server that keeps trying keeps its notice, and the notice its age: no
      tick lapses it and no refusal posts it afresh. */
  lemma {:induction false} NoticeKeepsItsAge(cfg: Config, h: Host, events: seq<Event>, p: Pid, last: int, since: int)
    requires WellFormed(h) && Run(cfg, h, events) && KeepsTrying(cfg, h, events, p, last)
    requires p in h.servers && h.servers[p] == Server(Some(Waiting), Some(last), Some(since))
    ensures WellFormed(After(cfg, h, events))
    ensures UpThroughout(cfg, h, events, p)
    ensures p in After(cfg, h, events).servers
    ensures After(cfg, h, events).servers[p].cause == Some(Waiting)
    ensures After(cfg, h, events).servers[p].postedAt == Some(since)
    decreases |events|
  {
    if events != [] {
      var e := events[0];
      TryingStep(cfg, h, e, p, last, since);
      WellFormedIsKept(cfg, h, e);
      NoticeKeepsItsAge(cfg, Apply(cfg, h, e), events[1..], p,
                        if e.SettleNow? && h.check.value.pid == p then h.now else last, since);
    }
  }

  /** `p` has begun a check in which background promises count or do not. */
  predicate AsksWith(h: Host, p: Pid, counts: bool) {
    && p in h.asking && h.asking[p] == counts
    && (h.check.Some? && h.check.value.pid == p ==> h.check.value.live && h.check.value.countBackground == counts)
  }

  /** The check `p` has begun does not end in this run. */
  predicate CheckGoesOn(cfg: Config, h: Host, events: seq<Event>, p: Pid)
    requires Run(cfg, h, events)
    decreases |events|
  {
    events == []
    || ((events[0].Die? ==> events[0].pid != p)
        && (events[0].Unlock? || events[0].FailCheck? ==> h.check.value.pid != p)
        && CheckGoesOn(cfg, Apply(cfg, h, events[0]), events[1..], p))
  }

  lemma AskingStays(cfg: Config, h: Host, e: Event, p: Pid)
    requires WellFormed(h) && Enabled(h, e) && p in h.asking && CheckGoesOn(cfg, h, [e], p)
    ensures p in Apply(cfg, h, e).asking && Apply(cfg, h, e).asking[p] == h.asking[p]
  {
    assert [e][0] == e;
    if e.ReadReservation? {
      ReadingLeavesServers(h, e.pid, e.readable);
    } else if e.DecideNow? {
      DecidingLeavesServers(cfg, h);
    } else if ByCheck(e) {
      ChecksLeaveAsking(cfg, h, e, p);
    } else {
      OthersLeaveAsking(cfg, h, e, p);
    }
  }

  lemma ChecksLeaveAsking(cfg: Config, h: Host, e: Event, p: Pid)
    requires Enabled(h, e) && ByCheck(e) && !e.ReadReservation? && !e.DecideNow? && p in h.asking
    requires e.Unlock? || e.FailCheck? ==> h.check.value.pid != p
    ensures p in Apply(cfg, h, e).asking && Apply(cfg, h, e).asking[p] == h.asking[p]
  {
  }

  lemma OthersLeaveAsking(cfg: Config, h: Host, e: Event, p: Pid)
    requires Enabled(h, e) && !ByCheck(e) && p in h.asking && e != Die(p)
    ensures p in Apply(cfg, h, e).asking && Apply(cfg, h, e).asking[p] == h.asking[p]
  {
  }

  lemma AsksWithStep(cfg: Config, h: Host, e: Event, p: Pid, counts: bool)
    requires WellFormed(h) && Enabled(h, e) && AsksWith(h, p, counts) && CheckGoesOn(cfg, h, [e], p)
    ensures AsksWith(Apply(cfg, h, e), p, counts)
  {
    AskingStays(cfg, h, e, p);
  }

  lemma {:induction false} AsksWithLasts(cfg: Config, h: Host, events: seq<Event>, p: Pid, counts: bool)
    requires WellFormed(h) && AsksWith(h, p, counts)
    requires Run(cfg, h, events) && CheckGoesOn(cfg, h, events, p)
    ensures AsksWith(After(cfg, h, events), p, counts)
    decreases |events|
  {
    if events != [] {
      AsksWithStep(cfg, h, events[0], p, counts);
      WellFormedIsKept(cfg, h, events[0]);
      AsksWithLasts(cfg, Apply(cfg, h, events[0]), events[1..], p, counts);
    }
  }

  /** `p` begins a check now, and decides at the end of `check`. */
  predicate Decides(cfg: Config, h: Host, p: Pid, check: seq<Event>) {
    && Enabled(h, BeginLiveCheck(p)) && (h.check.Some? ==> h.check.value.pid != p)
    && var h1 := Apply(cfg, h, BeginLiveCheck(p));
       && Run(cfg, h1, check) && CheckGoesOn(cfg, h1, check, p)
       && Enabled(After(cfg, h1, check), DecideNow) && After(cfg, h1, check).check.value.pid == p
  }

  /** `p` has no notice up, or one younger than the yield time. */
  predicate StillYields(cfg: Config, h: Host, p: Pid)
    requires p in h.servers
  {
    cfg.yield' > 0 && (h.servers[p].postedAt == None || h.now - h.servers[p].postedAt.value < cfg.yield')
  }

  /** Background work gets its time to give way, and no more: in every run, a
      check counts background promises exactly if, when it began, its server's
      notice was not up or was younger than the yield time. Then it sets nothing
      aside and admits only with room for every promise there is; from then on
      only live servers' promises are in its way. */
  lemma BackgroundCountsExactlyUntilTheYield(cfg: Config, h: Host, p: Pid, check: seq<Event>)
    requires WellFormed(h) && Decides(cfg, h, p, check)
    ensures var h2 := After(cfg, Apply(cfg, h, BeginLiveCheck(p)), check);
            var c, d := h2.check.value, DecisionOf(cfg, h2);
            && (StillYields(cfg, h, p) ==> d.setAside == [])
            && (d.admitted <==>
                  && c.phase.memory.pressure != Critical
                  && c.phase.memory.pressure.Severity() <= cfg.maxPressure.Severity()
                  && c.phase.memory.Available() >=
                       c.required + cfg.reserve + if StillYields(cfg, h, p) then SumPromised(c.phase.others)
                                                  else SumFirm(true, false, c.phase.others))
  {
    var h1 := Apply(cfg, h, BeginLiveCheck(p));
    WellFormedIsKept(cfg, h, BeginLiveCheck(p));
    AsksWithLasts(cfg, h1, check, p, StillYields(cfg, h, p));
    DecidesAlone(cfg, After(cfg, h1, check));
  }

  /** What a live check decides, by whether background promises count in it. */
  lemma DecidesAlone(cfg: Config, h: Host)
    requires Enabled(h, DecideNow) && h.check.value.live
    ensures var c, d := h.check.value, DecisionOf(cfg, h);
            && (c.countBackground ==> d.setAside == [])
            && (d.admitted <==>
                  && c.phase.memory.pressure != Critical
                  && c.phase.memory.pressure.Severity() <= cfg.maxPressure.Severity()
                  && c.phase.memory.Available() >=
                       c.required + cfg.reserve + if c.countBackground then SumPromised(c.phase.others)
                                                  else SumFirm(true, false, c.phase.others))
  {
    var c := h.check.value;
    var waiting := if c.phase.Probing? then c.phase.waiting else [];
    AdmittedExactlyWhen(true, c.countBackground, c.phase.memory, c.required, cfg.reserve, cfg.maxPressure,
                        c.phase.others, waiting);
    if c.countBackground {
      AllFirm(c.phase.others);
      NothingSetAside(cfg, h);
    }
  }

  lemma NothingSetAside(cfg: Config, h: Host)
    requires Enabled(h, DecideNow) && h.check.value.countBackground
    ensures DecisionOf(cfg, h).setAside == []
  {
    var c, d := h.check.value, DecisionOf(cfg, h);
    if d.setAside != [] {
      SetAsideExactly(c.live, c.countBackground, c.phase.memory, c.required, cfg.reserve, cfg.maxPressure,
                      c.phase.others, if c.phase.Probing? then c.phase.waiting else [], d.setAside[0]);
    }
  }

  /** Bounded hold-off. A server refused at `last`, with a notice up since
      `since`, that has kept trying through `wait` and begins a check once the
      notice is `yield'` old, is admitted by that check exactly when pressure
      allows and the measured memory covers its models, the reserve and the
      untaken promises of other live servers, whatever background jobs hold. */
  lemma HoldOffIsBounded(cfg: Config, h: Host, wait: seq<Event>, p: Pid, last: int, since: int, check: seq<Event>)
    requires WellFormed(h) && p in h.servers && h.servers[p] == Server(Some(Waiting), Some(last), Some(since))
    requires Run(cfg, h, wait) && KeepsTrying(cfg, h, wait, p, last)
    requires After(cfg, h, wait).now - since >= cfg.yield' && Decides(cfg, After(cfg, h, wait), p, check)
    ensures var h2 := After(cfg, Apply(cfg, After(cfg, h, wait), BeginLiveCheck(p)), check);
            var c := h2.check.value;
            DecisionOf(cfg, h2).admitted <==>
              && c.phase.memory.pressure != Critical
              && c.phase.memory.pressure.Severity() <= cfg.maxPressure.Severity()
              && c.phase.memory.Available() >= c.required + cfg.reserve + SumFirm(true, false, c.phase.others)
  {
    NoticeKeepsItsAge(cfg, h, wait, p, last, since);
    BackgroundCountsExactlyUntilTheYield(cfg, After(cfg, h, wait), p, check);
  }

  /** What settling a check leaves of its server: a refusal is noted and posted,
      an admission past background jobs is posted as that, any other admission
      takes the notice down. A notice already up keeps its age. */
  lemma SettlingLeaves(cfg: Config, h: Host, ok: bool)
    requires Enabled(h, SettleNow(ok))
    ensures var p, d := h.check.value.pid, h.check.value.phase.decision;
            var s, s' := h.servers[p], Apply(cfg, h, SettleNow(ok)).servers[p];
            var posted := if s.postedAt.Some? || !ok then s.postedAt else Some(h.now);
            && (!d.admitted ==> s' == Server(Some(Waiting), Some(h.now), posted))
            && (d.admitted && d.setAside != [] ==> s' == Server(Some(PastBackground), s.lastRefusalAt, posted))
            && (d.admitted && d.setAside == [] ==> s' == Server(None, None, None))
  {
  }

  /** A tick forgets the server's wait when its reason has passed, and else
      changes nothing. */
  lemma TickLeaves(cfg: Config, h: Host, p: Pid, readable: bool)
    requires Enabled(h, TickNow(p, readable))
    ensures var s, s' := h.servers[p], Apply(cfg, h, TickNow(p, readable)).servers[p];
            s' == if ReasonPassed(cfg, h, p, readable) then Server(None, None, None) else s
  {
  }

  /** Asking for a reload posts for that reason, and a release takes the notice
      down for any. */
  lemma ReleasingLeaves(cfg: Config, h: Host, p: Pid, ok: bool)
    requires p in h.servers
    ensures var s, s' := h.servers[p], Apply(cfg, h, PostReload(p, ok)).servers[p];
            s'.cause == Some(ReloadPending)
            && s'.postedAt == if s.postedAt.Some? || !ok then s.postedAt else Some(h.now)
    ensures Apply(cfg, h, WithdrawOnRelease(p)).servers[p] == Server(None, None, None)
  {
  }

  /** A new process has taken and is owed nothing, and a new server waits for
      nothing. */
  lemma SpawnLeaves(cfg: Config, h: Host, p: Pid, server: bool)
    requires WellFormed(h) && Enabled(h, Spawn(p, server))
    ensures var h' := Apply(cfg, h, Spawn(p, server));
            && h'.footprint[p] == 0 && p !in h'.entitled && p !in h'.asking
            && (p in h'.servers <==> server) && (server ==> h'.servers[p] == Server(None, None, None))
  {
  }

  /** What a check makes of one file: it removes a dead process's, and reports
      any other process's with its footprint, if it can read that. */
  lemma ReadingLeaves(cfg: Config, h: Host, q: Pid, readable: bool)
    requires Enabled(h, ReadReservation(q, readable))
    ensures var own, h' := h.check.value.pid, Apply(cfg, h, ReadReservation(q, readable));
            var others, others' := h.check.value.phase.others, h'.check.value.phase.others;
            if q in h.files && q != own && q in h.footprint
            then h'.files == h.files
                 && others' == others + [OtherReservation(h.files[q], if readable then Some(h.footprint[q]) else None)]
            else others' == others && h'.files == if q == own then h.files else h.files - {q}
  {
    assert q !in h.files ==> h.files - {q} == h.files;
  }

  /** However a check ends, the lock is free and a server may ask again. */
  lemma CheckEnds(cfg: Config, h: Host, e: Event)
    requires Enabled(h, e) && (e.Unlock? || e.FailCheck?)
    ensures var p, h' := h.check.value.pid, Apply(cfg, h, e);
            && h'.check == None && h'.files == h.files && h'.servers == h.servers
            && (p in h.servers ==> Enabled(h', BeginLiveCheck(p)))
            && (p !in h.servers && p in h.footprint ==> forall role, n :: Enabled(h', Lock(p, role, n)))
  {
  }

  /** The whole wait: from the refusal that first posts the notice, a server
      that keeps trying is admitted, by the check it begins once the yield time
      has passed, exactly when there is room for all but background promises. */
  lemma WaitIsBounded(cfg: Config, h: Host, wait: seq<Event>, check: seq<Event>)
    requires WellFormed(h) && Enabled(h, SettleNow(true)) && !h.check.value.phase.decision.admitted
    requires !Posted(h, h.check.value.pid)
    requires var p, h1 := h.check.value.pid, Apply(cfg, h, SettleNow(true));
             && Run(cfg, h1, wait) && KeepsTrying(cfg, h1, wait, p, h.now)
             && After(cfg, h1, wait).now - h.now >= cfg.yield' && Decides(cfg, After(cfg, h1, wait), p, check)
    ensures var p, h1 := h.check.value.pid, Apply(cfg, h, SettleNow(true));
            var h2 := After(cfg, Apply(cfg, After(cfg, h1, wait), BeginLiveCheck(p)), check);
            var c := h2.check.value;
            && UpThroughout(cfg, h1, wait, p)
            && (DecisionOf(cfg, h2).admitted <==>
                  && c.phase.memory.pressure != Critical
                  && c.phase.memory.pressure.Severity() <= cfg.maxPressure.Severity()
                  && c.phase.memory.Available() >= c.required + cfg.reserve + SumFirm(true, false, c.phase.others))
  {
    var p, h1 := h.check.value.pid, Apply(cfg, h, SettleNow(true));
    SettlingLeaves(cfg, h, true);
    WellFormedIsKept(cfg, h, SettleNow(true));
    NoticeKeepsItsAge(cfg, h1, wait, p, h.now, h.now);
    HoldOffIsBounded(cfg, h1, wait, p, h.now, h.now, check);
  }

  // ------------------------------ checks that cannot measure do not keep it up

  /** No check of `p`'s settles, no watchdog tick of its comes, and `p` neither
      exits, releases nor reloads. Checks that fail to measure may come at any
      rate. */
  predicate NeverSettles(cfg: Config, h: Host, events: seq<Event>, p: Pid)
    requires Run(cfg, h, events)
    decreases |events|
  {
    events == []
    || (var e := events[0];
        && (e.Die? || e.WithdrawOnRelease? || e.PostReload? || e.TickNow? ==> e.pid != p)
        && (e.SettleNow? ==> h.check.value.pid != p)
        && NeverSettles(cfg, Apply(cfg, h, e), events[1..], p))
  }

  /** A server whose checks all fail to measure the host loses its notice at
      the first tick past the lapse, however often it tries. */
  lemma {:induction false} UnmeasuredChecksLapse(cfg: Config, h: Host, events: seq<Event>, p: Pid, last: int,
                                                 readable: bool)
    requires WellFormed(h) && Run(cfg, h, events) && NeverSettles(cfg, h, events, p)
    requires Posted(h, p) && h.servers[p].cause == Some(Waiting) && h.servers[p].lastRefusalAt == Some(last)
    ensures Enabled(After(cfg, h, events), TickNow(p, readable))
    ensures Posted(Apply(cfg, After(cfg, h, events), TickNow(p, readable)), p) <==>
              After(cfg, h, events).now - last < cfg.lapse
    decreases |events|
  {
    if events != [] {
      WellFormedIsKept(cfg, h, events[0]);
      UnsettledStep(cfg, h, events[0], p);
      UnmeasuredChecksLapse(cfg, Apply(cfg, h, events[0]), events[1..], p, last, readable);
    }
  }

  lemma UnsettledStep(cfg: Config, h: Host, e: Event, p: Pid)
    requires WellFormed(h) && Enabled(h, e) && NeverSettles(cfg, h, [e], p) && p in h.servers
    ensures p in Apply(cfg, h, e).servers && Apply(cfg, h, e).servers[p] == h.servers[p]
  {
    assert [e][0] == e;
    OthersLeaveServer(cfg, h, e, p);
  }
}
