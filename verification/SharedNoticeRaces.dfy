/** Exactly which promises about the notice files make a posted notice hold
    background work back: without any one of them, a server may know its notice
    to be up while a background check finds nothing and is admitted. */
module SharedNoticeRaces {
  import opened Common
  import M = MemoryAdmission
  import P = AdmissionProtocol
  import S = AdmissionSafety
  import A = AdmissionNotices
  import O = AdmissionOverPromise
  import F = NoticeFiles
  import N = NoticeSafety
  import R = NoticeRaces
  import opened SharedNotices

  // -------------------------------------------------------------- longer runs

  lemma RunCons(cfg: P.Config, promised: F.Promises, j: Joint, e: Event, rest: seq<Event>)
    requires Enabled(cfg, promised, j, e) && Run(cfg, promised, Step(cfg, promised, j, e), rest)
    ensures Run(cfg, promised, j, [e] + rest)
    ensures After(cfg, promised, j, [e] + rest) == After(cfg, promised, Step(cfg, promised, j, e), rest)
  {
    assert ([e] + rest)[1..] == rest;
  }

  lemma {:induction false} UpSnoc(cfg: P.Config, promised: F.Promises, j: Joint, events: seq<Event>, e: Event, p: Pid)
    requires Run(cfg, promised, j, events) && UpThroughout(cfg, promised, j, events, p)
    requires Enabled(cfg, promised, After(cfg, promised, j, events), e)
    requires P.Posted(Step(cfg, promised, After(cfg, promised, j, events), e).host, p)
    ensures Run(cfg, promised, j, events + [e]) && UpThroughout(cfg, promised, j, events + [e], p)
    ensures After(cfg, promised, j, events + [e]) == Step(cfg, promised, After(cfg, promised, j, events), e)
    decreases |events|
  {
    if events == [] {
      var j' := Step(cfg, promised, j, e);
      assert Run(cfg, promised, j', []) && UpThroughout(cfg, promised, j', [], p);
    } else {
      assert (events + [e])[1..] == events[1..] + [e];
      UpSnoc(cfg, promised, Step(cfg, promised, j, events[0]), events[1..], e, p);
    }
  }

  /** A run to `j` through which `p` knows its notice to be up. */
  ghost predicate Comes(cfg: P.Config, promised: F.Promises, start: Joint, events: seq<Event>, j: Joint, p: Pid) {
    && Run(cfg, promised, start, events) && After(cfg, promised, start, events) == j
    && UpThroughout(cfg, promised, start, events, p)
  }

  lemma Goes(cfg: P.Config, promised: F.Promises, start: Joint, events: seq<Event>, j: Joint, p: Pid, e: Event,
             j': Joint)
    requires Comes(cfg, promised, start, events, j, p) && Enabled(cfg, promised, j, e)
    requires Step(cfg, promised, j, e) == j' && P.Posted(j'.host, p)
    ensures Comes(cfg, promised, start, events + [e], j', p)
  {
    UpSnoc(cfg, promised, start, events, e, p);
  }

  /** Some run from a fresh host and an empty directory gets here. */
  ghost predicate Reachable(cfg: P.Config, promised: F.Promises, j: Joint) {
    exists start, events :: Gets(cfg, promised, start, events, j)
  }

  ghost predicate Gets(cfg: P.Config, promised: F.Promises, start: Joint, events: seq<Event>, j: Joint) {
    Fresh(cfg, start) && Run(cfg, promised, start, events) && After(cfg, promised, start, events) == j
  }

  // ------------------------------------- what files can do, a host goes along with

  /** Every process is a live server, and none has asked for anything. */
  ghost predicate AllServers(h: P.Host) {
    && S.WellFormed(h) && h.check == None
    && h.servers.Keys == h.footprint.Keys && h.entitled == {} && h.files == map[]
  }

  ghost predicate Mirrors(j: Joint) {
    AllServers(j.host) && j.probe == None && Linked(j) && N.Inv(j.files)
  }

  /** What the host does at this call: processes start and die, a server posts
      for a reload, and releases. */
  function HostStep(e: F.Event): Option<P.Event> {
    match e
    case Spawn(p) => Some(P.Spawn(p, true))
    case Die(p) => Some(P.Die(p))
    case PostRename(p) => Some(P.PostReload(p, true))
    case WithdrawClear(p) => Some(P.WithdrawOnRelease(p))
    case _ => None
  }

  ghost predicate SameHeld(s: F.Notices, s': F.Notices) {
    && s'.owners.Keys == s.owners.Keys
    && forall p :: p in s.owners ==> s'.owners[p].held == s.owners[p].held
  }

  lemma OwnersSilently(s: F.Notices, e: F.Event)
    requires F.Enabled(false, s, e) && HostStep(e) == None && !N.ByAgent(e)
    ensures SameHeld(s, F.Step(s, e))
  {
  }

  lemma CallsSilently(s: F.Notices, e: F.Event)
    requires F.Enabled(false, s, e) && HostStep(e) == None
    ensures SameHeld(s, F.Apply(s, e))
  {
    if N.ByAgent(e) {
      N.AgentsTouchOnlyNames(s, e);
    } else {
      OwnersSilently(s, e);
    }
  }

  function Along(cfg: P.Config, h: P.Host, e: Option<P.Event>): P.Host
    requires e.Some? ==> P.Enabled(h, e.value)
  {
    if e.Some? then P.Apply(cfg, h, e.value) else h
  }

  lemma SpawnLinks(cfg: P.Config, h: P.Host, s: F.Notices, p: Pid, server: bool)
    requires LinkedTo(h, s) && S.WellFormed(h) && F.Enabled(false, s, F.Spawn(p))
    ensures P.Enabled(h, P.Spawn(p, server)) && LinkedTo(P.Apply(cfg, h, P.Spawn(p, server)), F.Apply(s, F.Spawn(p)))
  {
  }

  lemma DeathLinks(cfg: P.Config, h: P.Host, s: F.Notices, p: Pid)
    requires LinkedTo(h, s) && F.Enabled(false, s, F.Die(p))
    ensures P.Enabled(h, P.Die(p)) && LinkedTo(P.Apply(cfg, h, P.Die(p)), F.Apply(s, F.Die(p)))
  {
  }

  lemma RenameHolds(s: F.Notices, p: Pid)
    requires F.Enabled(false, s, F.PostRename(p))
    ensures var s' := F.Apply(s, F.PostRename(p));
            && s'.owners.Keys == s.owners.Keys && s'.owners[p].held.Some?
            && forall r :: r in s.owners && r != p ==> s'.owners[r] == s.owners[r]
  {
  }

  lemma ClearLetsGo(s: F.Notices, p: Pid)
    requires F.Enabled(false, s, F.WithdrawClear(p))
    ensures var s' := F.Apply(s, F.WithdrawClear(p));
            && s'.owners.Keys == s.owners.Keys && s'.owners[p].held == None
            && forall r :: r in s.owners && r != p ==> s'.owners[r] == s.owners[r]
  {
  }

  lemma PostLinks(cfg: P.Config, h: P.Host, s: F.Notices, p: Pid)
    requires LinkedTo(h, s) && F.Enabled(false, s, F.PostRename(p)) && p in h.servers
    ensures LinkedTo(P.Apply(cfg, h, P.PostReload(p, true)), F.Apply(s, F.PostRename(p)))
  {
    RenameHolds(s, p);
  }

  lemma WithdrawalLinks(cfg: P.Config, h: P.Host, s: F.Notices, p: Pid)
    requires LinkedTo(h, s) && F.Enabled(false, s, F.WithdrawClear(p)) && p in h.servers
    ensures LinkedTo(P.Apply(cfg, h, P.WithdrawOnRelease(p)), F.Apply(s, F.WithdrawClear(p)))
  {
    ClearLetsGo(s, p);
  }

  lemma SilenceLinks(h: P.Host, s: F.Notices, s': F.Notices)
    requires LinkedTo(h, s) && SameHeld(s, s')
    ensures LinkedTo(h, s')
  {
  }

  lemma CallLinks(cfg: P.Config, h: P.Host, s: F.Notices, e: F.Event)
    requires LinkedTo(h, s) && AllServers(h) && F.Enabled(false, s, e)
    ensures HostStep(e).Some? ==> P.Enabled(h, HostStep(e).value)
    ensures LinkedTo(Along(cfg, h, HostStep(e)), F.Apply(s, e))
  {
    if e.Spawn? {
      SpawnLinks(cfg, h, s, e.pid, true);
    } else if e.Die? {
      DeathLinks(cfg, h, s, e.pid);
    } else if e.PostRename? {
      PostLinks(cfg, h, s, e.pid);
    } else if e.WithdrawClear? {
      WithdrawalLinks(cfg, h, s, e.pid);
    } else {
      CallsSilently(s, e);
      SilenceLinks(h, s, F.Apply(s, e));
    }
  }

  lemma StaysAllServers(cfg: P.Config, h: P.Host, e: F.Event)
    requires AllServers(h) && (HostStep(e).Some? ==> P.Enabled(h, HostStep(e).value))
    ensures AllServers(Along(cfg, h, HostStep(e)))
  {
    if HostStep(e).Some? {
      S.WellFormedIsKept(cfg, h, HostStep(e).value);
    }
  }

  lemma CallMirrors(cfg: P.Config, promised: F.Promises, j: Joint, e: F.Event)
    requires Mirrors(j) && CanCall(promised, j.files, e)
    ensures Enabled(cfg, promised, j, Both(HostStep(e), Some(e)))
    ensures Mirrors(Step(cfg, promised, j, Both(HostStep(e), Some(e))))
  {
    CallLinks(cfg, j.host, j.files, e);
    StaysAllServers(cfg, j.host, e);
    N.ApplyKeepsInv(j.files, e);
    StepsAlong(cfg, promised, j, e);
  }

  lemma StepsAlong(cfg: P.Config, promised: F.Promises, j: Joint, e: F.Event)
    requires CanCall(promised, j.files, e) && j.probe == None
    requires HostStep(e).Some? ==> P.Enabled(j.host, HostStep(e).value)
    ensures CanStep(promised, j, Both(HostStep(e), Some(e)))
    ensures Step(cfg, promised, j, Both(HostStep(e), Some(e))) ==
              Joint(Along(cfg, j.host, HostStep(e)), F.Apply(j.files, e), None)
  {
  }

  /** Every run of the notice files is part of a run of host and files. */
  lemma {:induction false} RunMirrors(cfg: P.Config, promised: F.Promises, j: Joint, calls: seq<F.Event>)
      returns (events: seq<Event>)
    requires Mirrors(j) && F.Run(promised.guarded, j.files, calls) && F.KeepsThroughout(promised, j.files, calls)
    ensures Run(cfg, promised, j, events) && Mirrors(After(cfg, promised, j, events))
    ensures After(cfg, promised, j, events).files == F.After(promised.guarded, j.files, calls)
    decreases |calls|
  {
    events := [];
    if calls != [] {
      var e := Both(HostStep(calls[0]), Some(calls[0]));
      CallMirrors(cfg, promised, j, calls[0]);
      var rest := RunMirrors(cfg, promised, Step(cfg, promised, j, e), calls[1..]);
      RunCons(cfg, promised, j, e, rest);
      events := [e] + rest;
    }
  }

  function FreshHost(cfg: P.Config): P.Host {
    P.Host(0, cfg.reserve, M.Normal, map[], map[], map[], map[], None, {}, 0)
  }

  function FreshJoint(cfg: P.Config): Joint {
    Joint(FreshHost(cfg), F.NO_NOTICES, None)
  }

  lemma FreshMirrors(cfg: P.Config)
    ensures Fresh(cfg, FreshJoint(cfg)) && Mirrors(FreshJoint(cfg))
  {
  }

  lemma MirroredIsReachable(cfg: P.Config, promised: F.Promises, calls: seq<F.Event>) returns (j: Joint)
    requires F.Run(promised.guarded, F.NO_NOTICES, calls) && F.KeepsThroughout(promised, F.NO_NOTICES, calls)
    ensures Reachable(cfg, promised, j) && Mirrors(j) && j.files == F.After(promised.guarded, F.NO_NOTICES, calls)
  {
    FreshMirrors(cfg);
    var events := RunMirrors(cfg, promised, FreshJoint(cfg), calls);
    j := After(cfg, promised, FreshJoint(cfg), events);
    assert Gets(cfg, promised, FreshJoint(cfg), events, j);
  }

  /** So a server can know its notice to be up when nobody can see it. */
  lemma LostOnTheHost(cfg: P.Config, promised: F.Promises) returns (j: Joint)
    requires promised != F.ALL_PROMISED
    ensures Reachable(cfg, promised, j) && Mirrors(j) && R.Lost(j.files, 1)
  {
    var s := R.SomethingIsLost(promised);
    var calls :| R.Gets(promised, calls, s);
    j := MirroredIsReachable(cfg, promised, calls);
  }

  // -------------------------------------------- a background job gets past it

  lemma {:induction false} OthersMayDie(cfg: P.Config, promised: F.Promises, start: Joint, before: seq<Event>, j: Joint,
                                        p: Pid)
      returns (events: seq<Event>, j': Joint)
    requires Comes(cfg, promised, start, before, j, p) && Mirrors(j) && R.Lost(j.files, p)
    ensures Comes(cfg, promised, start, events, j', p) && Mirrors(j') && R.Lost(j'.files, p)
    ensures j'.files.owners.Keys == {p}
    decreases j.files.owners.Keys
  {
    if r :| r in j.files.owners && r != p {
      var e := Both(Some(P.Die(r)), Some(F.Die(r)));
      MayDie(cfg, promised, j, p, r);
      var j1 := Step(cfg, promised, j, e);
      Goes(cfg, promised, start, before, j, p, e, j1);
      events, j' := OthersMayDie(cfg, promised, start, before + [e], j1, p);
    } else {
      events, j' := before, j;
      assert j.files.owners.Keys == {p};
    }
  }

  lemma MayDie(cfg: P.Config, promised: F.Promises, j: Joint, p: Pid, r: Pid)
    requires Mirrors(j) && R.Lost(j.files, p) && r in j.files.owners && r != p
    ensures Enabled(cfg, promised, j, Both(Some(P.Die(r)), Some(F.Die(r))))
    ensures var j' := Step(cfg, promised, j, Both(Some(P.Die(r)), Some(F.Die(r))));
            && Mirrors(j') && R.Lost(j'.files, p) && P.Posted(j'.host, p)
            && j'.files.owners.Keys == j.files.owners.Keys - {r}
  {
    CallMirrors(cfg, promised, j, F.Die(r));
    StepsAlong(cfg, promised, j, F.Die(r));
    StaysLost(j.files, r, p);
  }

  lemma StaysLost(s: F.Notices, r: Pid, p: Pid)
    requires R.Lost(s, p) && r in s.owners && r != p
    ensures R.Lost(F.Apply(s, F.Die(r)), p)
    ensures F.Apply(s, F.Die(r)).owners.Keys == s.owners.Keys - {r}
  {
  }

  /** No name in the directory is of a file that anybody holds. */
  predicate Dark(s: F.Notices) {
    forall x :: x in s.names ==> s.names[x] !in s.exclusive
  }

  lemma LostIsDark(s: F.Notices, p: Pid)
    requires N.Inv(s) && R.Lost(s, p) && s.owners.Keys == {p}
    ensures Dark(s)
  {
    assert forall i :: i in s.exclusive ==> s.maker[i] == p;
  }

  /** `p` knows its notice to be up, and nobody can see any. */
  ghost predicate InTheDark(j: Joint, p: Pid) {
    Linked(j) && Dark(j.files) && P.Posted(j.host, p)
  }

  /** A step of the host alone that leaves processes and notices as they are. */
  lemma HostAlone(cfg: P.Config, promised: F.Promises, start: Joint, before: seq<Event>, j: Joint, p: Pid, e: P.Event)
      returns (events: seq<Event>, j': Joint)
    requires Comes(cfg, promised, start, before, j, p) && InTheDark(j, p)
    requires P.Enabled(j.host, e) && !ListsOrProbes(e)
    requires P.Apply(cfg, j.host, e).servers == j.host.servers && P.Apply(cfg, j.host, e).footprint == j.host.footprint
    ensures Comes(cfg, promised, start, events, j', p) && InTheDark(j', p)
    ensures j' == j.(host := P.Apply(cfg, j.host, e))
  {
    j' := Step(cfg, promised, j, Both(Some(e), None));
    Goes(cfg, promised, start, before, j, p, Both(Some(e), None), j');
    events := before + [Both(Some(e), None)];
  }

  /** A host on which `q`, no server, has just started and nobody has a
      reservation. */
  ghost predicate Idle(cfg: P.Config, h: P.Host, q: Pid) {
    && S.WellFormed(h) && h.check == None && h.entitled == {} && h.files == map[]
    && q in h.footprint && h.footprint[q] == 0 && q !in h.servers
  }

  lemma SpawnInTheDark(s: F.Notices, q: Pid)
    requires Dark(s) && F.Enabled(false, s, F.Spawn(q))
    ensures Dark(F.Apply(s, F.Spawn(q)))
  {
  }

  lemma CanStart(cfg: P.Config, promised: F.Promises, j: Joint, p: Pid, q: Pid)
    requires AllServers(j.host) && InTheDark(j, p) && q !in j.files.owners && q !in j.files.names
    requires forall a :: a in j.files.sweeps ==> j.files.sweeps[a].name != q
    ensures var e := Both(Some(P.Spawn(q, false)), Some(F.Spawn(q)));
            && Enabled(cfg, promised, j, e)
            && var j' := Step(cfg, promised, j, e);
               InTheDark(j', p) && Idle(cfg, j'.host, q) && j'.probe == j.probe
  {
    SpawnLinks(cfg, j.host, j.files, q, false);
    SpawnInTheDark(j.files, q);
    StartsIdle(cfg, j.host, p, q);
    StartsTogether(cfg, promised, j, q);
  }

  lemma StartsTogether(cfg: P.Config, promised: F.Promises, j: Joint, q: Pid)
    requires P.Enabled(j.host, P.Spawn(q, false)) && q !in j.files.owners && q !in j.files.names
    requires forall a :: a in j.files.sweeps ==> j.files.sweeps[a].name != q
    ensures var e := Both(Some(P.Spawn(q, false)), Some(F.Spawn(q)));
            && CanStep(promised, j, e)
            && Step(cfg, promised, j, e) ==
                 Joint(P.Apply(cfg, j.host, P.Spawn(q, false)), F.Apply(j.files, F.Spawn(q)), j.probe)
  {
  }

  lemma StartsIdle(cfg: P.Config, h: P.Host, p: Pid, q: Pid)
    requires AllServers(h) && P.Enabled(h, P.Spawn(q, false)) && P.Posted(h, p)
    ensures var h' := P.Apply(cfg, h, P.Spawn(q, false));
            Idle(cfg, h', q) && P.Posted(h', p)
  {
    S.WellFormedIsKept(cfg, h, P.Spawn(q, false));
  }

  lemma Beside(cfg: P.Config, promised: F.Promises, start: Joint, before: seq<Event>, j: Joint, p: Pid)
      returns (events: seq<Event>, j': Joint, q: Pid)
    requires Comes(cfg, promised, start, before, j, p) && AllServers(j.host) && j.probe == None && InTheDark(j, p)
    ensures Comes(cfg, promised, start, events, j', p) && InTheDark(j', p) && Idle(cfg, j'.host, q) && j'.probe == None
  {
    var swept := set a | a in j.files.sweeps :: j.files.sweeps[a].name;
    q := Unused(j.files.owners.Keys + j.files.names.Keys + swept);
    assert q !in j.files.owners.Keys + j.files.names.Keys + swept;
    var e := Both(Some(P.Spawn(q, false)), Some(F.Spawn(q)));
    CanStart(cfg, promised, j, p, q);
    j' := Step(cfg, promised, j, e);
    Goes(cfg, promised, start, before, j, p, e, j');
    events := before + [e];
  }

  // --------------------------------------------- its check finds nothing

  /** `q`'s check in flight asks for exactly what is left. */
  ghost predicate Asks(cfg: P.Config, h: P.Host, q: Pid) {
    O.BackgroundAsks(cfg, h) && h.check.value.pid == q && h.entitled == {} && h.files == map[]
  }

  lemma NothingOwed(h: P.Host)
    requires h.entitled == {}
    ensures S.Owed(h.entitled, h.files, h.footprint) == 0
  {
    O.OwedNothing(h.files, h.footprint);
  }

  lemma LocksToAsk(cfg: P.Config, h: P.Host, q: Pid)
    requires Idle(cfg, h, q) && h.available >= cfg.reserve
    ensures P.Enabled(h, P.Lock(q, M.Segment, h.available - cfg.reserve))
    ensures var h' := P.Apply(cfg, h, P.Lock(q, M.Segment, h.available - cfg.reserve));
            && S.WellFormed(h') && P.AtLocked(h') && h' == h.(check := h'.check)
            && h'.check.value == P.Check(q, M.Segment, false, h.available - cfg.reserve, true, P.Locked, 0)
  {
    S.WellFormedIsKept(cfg, h, P.Lock(q, M.Segment, h.available - cfg.reserve));
  }

  lemma MeasuredAsks(cfg: P.Config, h: P.Host, q: Pid)
    requires S.WellFormed(h) && h.entitled == {} && h.files == map[] && h.pressure == M.Normal && P.AtLocked(h)
    requires q in h.footprint && h.footprint[q] == 0 && h.available >= cfg.reserve
    requires h.check.value == P.Check(q, M.Segment, false, h.available - cfg.reserve, true, P.Locked, 0)
    ensures var measure := P.Measure(M.HostMemory(h.available, 0, 0, M.Normal));
            P.Enabled(h, measure) && Asks(cfg, P.Apply(cfg, h, measure), q) && P.AtMeasured(P.Apply(cfg, h, measure))
  {
    O.MeasuringIsTight(cfg, h);
    NothingOwed(h);
  }

  lemma Measures(cfg: P.Config, promised: F.Promises, start: Joint, before: seq<Event>, j: Joint, p: Pid, q: Pid)
      returns (events: seq<Event>, j': Joint)
    requires Comes(cfg, promised, start, before, j, p) && InTheDark(j, p) && Idle(cfg, j.host, q) && j.probe == None
    requires j.host.pressure == M.Normal && j.host.available >= cfg.reserve
    ensures Comes(cfg, promised, start, events, j', p) && InTheDark(j', p)
    ensures Asks(cfg, j'.host, q) && P.AtMeasured(j'.host) && j'.probe == None
  {
    var h := j.host;
    var lock := P.Lock(q, M.Segment, h.available - cfg.reserve);
    LocksToAsk(cfg, h, q);
    var j1;
    events, j1 := HostAlone(cfg, promised, start, before, j, p, lock);
    MeasuredAsks(cfg, j1.host, q);
    events, j' := HostAlone(cfg, promised, start, events, j1, p, P.Measure(M.HostMemory(h.available, 0, 0, M.Normal)));
  }

  lemma ListingAsks(cfg: P.Config, h: P.Host, q: Pid)
    requires Asks(cfg, h, q) && P.AtMeasured(h)
    ensures P.Enabled(h, P.ListReservations)
    ensures var h' := P.Apply(cfg, h, P.ListReservations);
            Asks(cfg, h', q) && P.Enabled(h', P.ListNotices)
  {
    O.ListingIsTight(cfg, h);
  }

  lemma ListedAsks(cfg: P.Config, h: P.Host, q: Pid, names: set<Pid>)
    requires Asks(cfg, h, q) && P.Enabled(h, P.ListNotices)
    ensures Asks(cfg, Listed(h, names), q)
  {
    var h' := Listed(h, names);
    ListedIsWellFormed(h, names);
    assert S.ReadSet(h') == S.ReadSet(h) && S.SeenSoFar(h') == S.SeenSoFar(h);
  }

  lemma AnsweredAsks(cfg: P.Config, h: P.Host, q: Pid, name: Pid, posted: bool)
    requires Asks(cfg, h, q) && P.Enabled(h, P.ProbeNotice(name))
    ensures Asks(cfg, Answered(h, name, posted), q)
  {
    var h' := Answered(h, name, posted);
    AnsweredIsWellFormed(h, name, posted);
    assert S.ReadSet(h') == S.ReadSet(h) && S.SeenSoFar(h') == S.SeenSoFar(h);
  }

  /** `q`'s check has found nothing among the names it has probed. */
  ghost predicate FindsNothing(cfg: P.Config, j: Joint, q: Pid) {
    && Asks(cfg, j.host, q) && P.AtProbing(j.host) && j.host.check.value.phase.waiting == [] && j.probe == None
    && j.host.check.value.phase.names <= j.files.names.Keys
  }

  lemma Lists(cfg: P.Config, promised: F.Promises, start: Joint, before: seq<Event>, j: Joint, p: Pid, q: Pid)
      returns (events: seq<Event>, j': Joint)
    requires Comes(cfg, promised, start, before, j, p) && InTheDark(j, p)
    requires Asks(cfg, j.host, q) && P.AtMeasured(j.host) && j.probe == None
    ensures Comes(cfg, promised, start, events, j', p) && InTheDark(j', p) && FindsNothing(cfg, j', q)
  {
    ListingAsks(cfg, j.host, q);
    var j1;
    events, j1 := HostAlone(cfg, promised, start, before, j, p, P.ListReservations);
    ListedAsks(cfg, j1.host, q, j1.files.names.Keys);
    j' := Step(cfg, promised, j1, ListNames);
    StaysDark(j1, j', p);
    Goes(cfg, promised, start, events, j1, p, ListNames, j');
    events := events + [ListNames];
  }

  /** What a probe does to the files that matters here: nothing. */
  predicate SameNotices(s: F.Notices, s': F.Notices) {
    s'.names == s.names && s'.exclusive == s.exclusive && s'.owners == s.owners
  }

  lemma ProbingChangesNothing(s: F.Notices, e: F.Event)
    requires F.Enabled(false, s, e) && (e.ProbeOpen? || e.ProbeLock?)
    ensures SameNotices(s, F.Apply(s, e))
  {
  }

  lemma OpenedAt(s: F.Notices, id: F.AgentId, who: Pid, name: Pid)
    requires F.Enabled(false, s, F.ProbeOpen(id, who, name))
    ensures var s' := F.Apply(s, F.ProbeOpen(id, who, name));
            && id in s'.probes && s'.probes[id].name == name && s'.probes[id].inode == s.names[name]
            && !s'.probes[id].locked
  {
  }

  /** The check's probe is open at `x`, whose file nobody holds. */
  predicate LooksAt(j: Joint, x: Pid) {
    && Probes(j, x) && !j.files.probes[j.probe.value].locked
    && j.files.probes[j.probe.value].inode !in j.files.exclusive
  }

  lemma CanOpen(cfg: P.Config, promised: F.Promises, j: Joint, p: Pid, id: F.AgentId, x: Pid)
    requires InTheDark(j, p) && P.Enabled(j.host, P.ProbeNotice(x)) && j.probe == None
    requires id !in j.files.probes && x in j.files.names && j.host.check.value.pid in j.host.footprint
    ensures Enabled(cfg, promised, j, OpenNotice(id, x))
    ensures var j' := Step(cfg, promised, j, OpenNotice(id, x));
            j'.host == j.host && SameNotices(j.files, j'.files) && LooksAt(j', x)
  {
    ProbingChangesNothing(j.files, F.ProbeOpen(id, j.host.check.value.pid, x));
    OpenedAt(j.files, id, j.host.check.value.pid, x);
  }

  lemma Opens(cfg: P.Config, promised: F.Promises, start: Joint, before: seq<Event>, j: Joint, p: Pid, x: Pid)
      returns (events: seq<Event>, j': Joint)
    requires Comes(cfg, promised, start, before, j, p) && InTheDark(j, p)
    requires P.Enabled(j.host, P.ProbeNotice(x)) && j.probe == None
    requires x in j.files.names && j.host.check.value.pid in j.host.footprint
    ensures Comes(cfg, promised, start, events, j', p) && j'.host == j.host && SameNotices(j.files, j'.files)
    ensures LooksAt(j', x)
  {
    var id := Unused(j.files.probes.Keys);
    CanOpen(cfg, promised, j, p, id, x);
    j' := Step(cfg, promised, j, OpenNotice(id, x));
    Goes(cfg, promised, start, before, j, p, OpenNotice(id, x), j');
    events := before + [OpenNotice(id, x)];
  }

  lemma CanAnswer(cfg: P.Config, promised: F.Promises, j: Joint, p: Pid, x: Pid)
    requires InTheDark(j, p) && P.Enabled(j.host, P.ProbeNotice(x)) && LooksAt(j, x)
    ensures Enabled(cfg, promised, j, Answer)
    ensures var j' := Step(cfg, promised, j, Answer);
            j'.host == Answered(j.host, x, false) && SameNotices(j.files, j'.files) && j'.probe == None
  {
    ProbingChangesNothing(j.files, F.ProbeLock(j.probe.value));
  }

  lemma Answers(cfg: P.Config, promised: F.Promises, start: Joint, before: seq<Event>, j: Joint, p: Pid, x: Pid)
      returns (events: seq<Event>, j': Joint)
    requires Comes(cfg, promised, start, before, j, p) && InTheDark(j, p)
    requires P.Enabled(j.host, P.ProbeNotice(x)) && LooksAt(j, x)
    ensures Comes(cfg, promised, start, events, j', p)
    ensures j'.host == Answered(j.host, x, false) && SameNotices(j.files, j'.files) && j'.probe == None
  {
    CanAnswer(cfg, promised, j, p, x);
    j' := Step(cfg, promised, j, Answer);
    Goes(cfg, promised, start, before, j, p, Answer, j');
    events := before + [Answer];
  }

  lemma StaysDark(j: Joint, j': Joint, p: Pid)
    requires InTheDark(j, p) && SameNotices(j.files, j'.files)
    requires j'.host.servers == j.host.servers && j'.host.footprint == j.host.footprint
    ensures InTheDark(j', p)
  {
  }

  lemma ProbesOne(cfg: P.Config, promised: F.Promises, start: Joint, before: seq<Event>, j: Joint, p: Pid, q: Pid,
                  x: Pid)
      returns (events: seq<Event>, j': Joint)
    requires Comes(cfg, promised, start, before, j, p) && InTheDark(j, p) && FindsNothing(cfg, j, q)
    requires x in j.host.check.value.phase.names
    ensures Comes(cfg, promised, start, events, j', p) && InTheDark(j', p) && FindsNothing(cfg, j', q)
    ensures j'.host.check.value.phase.names == j.host.check.value.phase.names - {x}
  {
    var j1;
    events, j1 := Opens(cfg, promised, start, before, j, p, x);
    StaysDark(j, j1, p);
    AnsweredAsks(cfg, j1.host, q, x, false);
    events, j' := Answers(cfg, promised, start, events, j1, p, x);
    StaysDark(j1, j', p);
  }

  lemma {:induction false} ProbesAll(cfg: P.Config, promised: F.Promises, start: Joint, before: seq<Event>, j: Joint,
                                     p: Pid, q: Pid)
      returns (events: seq<Event>, j': Joint)
    requires Comes(cfg, promised, start, before, j, p) && InTheDark(j, p) && FindsNothing(cfg, j, q)
    ensures Comes(cfg, promised, start, events, j', p) && InTheDark(j', p) && FindsNothing(cfg, j', q)
    ensures j'.host.check.value.phase.names == {}
    decreases j.host.check.value.phase.names
  {
    events, j' := before, j;
    if x :| x in j.host.check.value.phase.names {
      events, j' := ProbesOne(cfg, promised, start, before, j, p, q, x);
      events, j' := ProbesAll(cfg, promised, start, events, j', p, q);
    }
  }

  lemma IsAdmitted(cfg: P.Config, promised: F.Promises, start: Joint, before: seq<Event>, j: Joint, p: Pid, q: Pid)
      returns (events: seq<Event>, j': Joint)
    requires Comes(cfg, promised, start, before, j, p) && InTheDark(j, p) && FindsNothing(cfg, j, q)
    requires j.host.check.value.phase.names == {}
    ensures Comes(cfg, promised, start, events, j', p) && q in A.BackgroundEntitled(j'.host)
  {
    O.BackgroundIsGranted(cfg, j.host);
    events, j' := HostAlone(cfg, promised, start, before, j, p, P.DecideNow);
  }

  /** From where nobody can see the notice, a background job is admitted, with
      its server knowing it to be up throughout. */
  lemma BackgroundGetsPast(cfg: P.Config, promised: F.Promises, j: Joint, p: Pid) returns (events: seq<Event>, q: Pid)
    requires Mirrors(j) && R.Lost(j.files, p)
    ensures Run(cfg, promised, j, events) && UpThroughout(cfg, promised, j, events, p)
    ensures q in A.BackgroundEntitled(After(cfg, promised, j, events).host) && q !in A.BackgroundEntitled(j.host)
  {
    assert Comes(cfg, promised, j, [], j, p);
    var j1, j2;
    events, j1 := OthersMayDie(cfg, promised, j, [], j, p);
    LostIsDark(j1.files, p);
    events, j2, q := Beside(cfg, promised, j, events, j1, p);
    events, q := IdleGetsPast(cfg, promised, j, events, j2, p, q);
  }

  lemma IdleGetsPast(cfg: P.Config, promised: F.Promises, start: Joint, before: seq<Event>, j: Joint, p: Pid, q: Pid)
      returns (events: seq<Event>, q': Pid)
    requires Comes(cfg, promised, start, before, j, p) && InTheDark(j, p) && Idle(cfg, j.host, q) && j.probe == None
    ensures Run(cfg, promised, start, events) && UpThroughout(cfg, promised, start, events, p)
    ensures q' == q && q in A.BackgroundEntitled(After(cfg, promised, start, events).host)
  {
    q' := q;
    var j1, j2, j3, j4, j5, j6;
    events, j1 := HostAlone(cfg, promised, start, before, j, p, P.KernelPressure(M.Normal));
    events, j2 := HostAlone(cfg, promised, start, events, j1, p, P.HostFrees(Max(0, cfg.reserve - j1.host.available)));
    events, j3 := Measures(cfg, promised, start, events, j2, p, q);
    events, j4 := Lists(cfg, promised, start, events, j3, p, q);
    events, j5 := ProbesAll(cfg, promised, start, events, j4, p, q);
    events, j6 := IsAdmitted(cfg, promised, start, events, j5, p, q);
  }

  // ------------------------------------------------------------ exactly when

  lemma ReachableIsSound(cfg: P.Config, j: Joint)
    requires Reachable(cfg, F.ALL_PROMISED, j)
    ensures Sound(j)
  {
    var start, events :| Gets(cfg, F.ALL_PROMISED, start, events, j);
    FreshIsSound(cfg, start);
    RunKeepsSound(cfg, start, events);
  }

  /** In this run `p` knows its notice to be up, and a background process gains
      a reservation. */
  ghost predicate GetsPast(cfg: P.Config, promised: F.Promises, j: Joint, events: seq<Event>, p: Pid) {
    && Run(cfg, promised, j, events) && UpThroughout(cfg, promised, j, events, p)
    && !(A.BackgroundEntitled(After(cfg, promised, j, events).host) <= A.BackgroundEntitled(j.host))
  }

  /** A notice that no check in flight has passed by holds background work back,
      from every reachable state and in every run through which its server knows
      it to be up, if and only if posting and withdrawing exclude each other, no
      left pid comes back, and no withdrawal fails to unlink. */
  lemma NoticesHoldBackExactlyWhen(cfg: P.Config, promised: F.Promises)
    ensures (forall j, events, p :: Reachable(cfg, promised, j) && Holding(j, p) ==>
               !GetsPast(cfg, promised, j, events, p))
            <==> promised == F.ALL_PROMISED
  {
    if promised == F.ALL_PROMISED {
      forall j, events, p | Reachable(cfg, promised, j) && Holding(j, p)
        ensures !GetsPast(cfg, promised, j, events, p)
      {
        ReachableIsSound(cfg, j);
        if Run(cfg, promised, j, events) && UpThroughout(cfg, promised, j, events, p) {
          BackgroundOnlyShrinks(cfg, j, events, p);
        }
      }
    } else {
      var j := LostOnTheHost(cfg, promised);
      var events, q := BackgroundGetsPast(cfg, promised, j, 1);
      assert Holding(j, 1) && GetsPast(cfg, promised, j, events, 1);
    }
  }
}
