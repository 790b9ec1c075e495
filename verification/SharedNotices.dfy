/** The admission protocol over the notice files themselves: a check lists the
    names there are and probes them one system call at a time, while servers
    post, withdraw and sweep, and processes start and die. */
module SharedNotices {
  import opened Common
  import M = MemoryAdmission
  import P = AdmissionProtocol
  import S = AdmissionSafety
  import A = AdmissionNotices
  import F = NoticeFiles
  import N = NoticeSafety

  type Pid = nat

  /** `probe` is the probe the check in flight has open. */
  datatype Joint = Joint(host: P.Host, files: F.Notices, probe: Option<F.AgentId>)

  /** `Both` is a step of the host, a system call on the notice files, or one of
      each at once; the other four are a background check's own. */
  datatype Event =
    | Both(host: Option<P.Event>, call: Option<F.Event>)
    | ListNames
    | OpenNotice(id: F.AgentId, name: Pid)
    | NotThere(name: Pid)
    | Answer

  /** The same processes run, and a server's notice is up to its own knowledge
      exactly while it holds the file it means to be up. */
  ghost predicate LinkedTo(h: P.Host, s: F.Notices) {
    && h.footprint.Keys == s.owners.Keys
    && forall p :: P.Posted(h, p) <==> p in s.owners && s.owners[p].held.Some?
  }

  ghost predicate Linked(j: Joint) {
    LinkedTo(j.host, j.files)
  }

  predicate ListsOrProbes(e: P.Event) {
    e.ListNotices? || e.ProbeNotice?
  }

  predicate CanCall(promised: F.Promises, s: F.Notices, e: F.Event) {
    F.Enabled(promised.guarded, s, e) && F.Enabled(false, s, e) && F.Keeps(promised, s, e)
  }

  /** The probe the check has open is `name`'s. */
  predicate Probes(j: Joint, name: Pid) {
    j.probe.Some? && j.probe.value in j.files.probes && j.files.probes[j.probe.value].name == name
  }

  predicate CanStep(promised: F.Promises, j: Joint, e: Event) {
    match e
    case Both(he, fe) =>
      && (he.Some? ==> P.Enabled(j.host, he.value) && !ListsOrProbes(he.value))
      && (fe.Some? ==> CanCall(promised, j.files, fe.value)
                       && (j.probe.Some? ==> fe.value != F.ProbeLock(j.probe.value)))
    case ListNames => P.Enabled(j.host, P.ListNotices)
    case OpenNotice(id, name) =>
      && P.Enabled(j.host, P.ProbeNotice(name)) && j.probe == None
      && CanCall(promised, j.files, F.ProbeOpen(id, j.host.check.value.pid, name))
    case NotThere(name) => P.Enabled(j.host, P.ProbeNotice(name)) && j.probe == None && name !in j.files.names
    case Answer =>
      && j.probe.Some? && CanCall(promised, j.files, F.ProbeLock(j.probe.value))
      && P.Enabled(j.host, P.ProbeNotice(j.files.probes[j.probe.value].name))
  }

  /** The check lists the names there are, whoever holds the files. */
  function Listed(h: P.Host, names: set<Pid>): P.Host
    requires P.Enabled(h, P.ListNotices)
  {
    P.WithPhase(h, P.Probing(h.check.value.phase.memory, h.check.value.phase.others, names, []))
  }

  function Answered(h: P.Host, name: Pid, posted: bool): P.Host
    requires P.Enabled(h, P.ProbeNotice(name))
  {
    var ph := h.check.value.phase;
    var waiting := if posted then ph.waiting + [name] else ph.waiting;
    P.WithPhase(h, P.Probing(ph.memory, ph.others, ph.names - {name}, waiting))
  }

  function Step(cfg: P.Config, promised: F.Promises, j: Joint, e: Event): Joint
    requires CanStep(promised, j, e)
  {
    match e
    case Both(he, fe) =>
      j.(host := if he.Some? then P.Apply(cfg, j.host, he.value) else j.host,
         files := if fe.Some? then F.Apply(j.files, fe.value) else j.files)
    case ListNames => j.(host := Listed(j.host, j.files.names.Keys), probe := None)
    case OpenNotice(id, name) =>
      j.(files := F.Apply(j.files, F.ProbeOpen(id, j.host.check.value.pid, name)), probe := Some(id))
    case NotThere(name) => j.(host := Answered(j.host, name, false))
    case Answer =>
      var probe := j.files.probes[j.probe.value];
      var host := Answered(j.host, probe.name, probe.inode in j.files.exclusive);
      Joint(host, F.Apply(j.files, F.ProbeLock(j.probe.value)), None)
  }

  ghost predicate Enabled(cfg: P.Config, promised: F.Promises, j: Joint, e: Event) {
    CanStep(promised, j, e) && Linked(Step(cfg, promised, j, e))
  }

  ghost predicate Run(cfg: P.Config, promised: F.Promises, j: Joint, events: seq<Event>)
    decreases |events|
  {
    events == []
    || (Enabled(cfg, promised, j, events[0]) && Run(cfg, promised, Step(cfg, promised, j, events[0]), events[1..]))
  }

  ghost function After(cfg: P.Config, promised: F.Promises, j: Joint, events: seq<Event>): Joint
    requires Run(cfg, promised, j, events)
    decreases |events|
  {
    if events == [] then j else After(cfg, promised, Step(cfg, promised, j, events[0]), events[1..])
  }

  /** `p`'s notice is up, to its own knowledge, after every event of the run. */
  ghost predicate UpThroughout(cfg: P.Config, promised: F.Promises, j: Joint, events: seq<Event>, p: Pid)
    requires Run(cfg, promised, j, events)
    decreases |events|
  {
    P.Posted(j.host, p)
    && (events == [] || UpThroughout(cfg, promised, Step(cfg, promised, j, events[0]), events[1..], p))
  }

  /** No process and no notice yet. */
  predicate Fresh(cfg: P.Config, j: Joint) {
    P.Fresh(cfg, j.host) && j.files == F.NO_NOTICES && j.probe == None
  }

  // ------------------------------------------------- what every run keeps

  ghost predicate Sound(j: Joint) {
    S.WellFormed(j.host) && Linked(j) && N.CarefulInv(j.files) && N.ProbesAreCurrent(j.files)
  }

  lemma FreshIsSound(cfg: P.Config, j: Joint)
    requires Fresh(cfg, j)
    ensures Sound(j)
  {
  }

  lemma CallKeepsSound(s: F.Notices, e: F.Event)
    requires N.CarefulInv(s) && N.ProbesAreCurrent(s) && CanCall(F.ALL_PROMISED, s, e)
    ensures N.CarefulInv(F.Apply(s, e)) && N.ProbesAreCurrent(F.Apply(s, e))
  {
    N.CarefulStep(s, e);
    N.ProbesAreCurrentKept(s, e);
  }

  lemma ListedIsWellFormed(h: P.Host, names: set<Pid>)
    requires S.WellFormed(h) && P.Enabled(h, P.ListNotices)
    ensures S.WellFormed(Listed(h, names)) && A.BackgroundEntitled(Listed(h, names)) == A.BackgroundEntitled(h)
  {
  }

  lemma AnsweredIsWellFormed(h: P.Host, name: Pid, posted: bool)
    requires S.WellFormed(h) && P.Enabled(h, P.ProbeNotice(name))
    ensures S.WellFormed(Answered(h, name, posted))
    ensures A.BackgroundEntitled(Answered(h, name, posted)) == A.BackgroundEntitled(h)
  {
  }

  lemma StepIsWellFormed(cfg: P.Config, promised: F.Promises, j: Joint, e: Event)
    requires S.WellFormed(j.host) && CanStep(promised, j, e)
    ensures S.WellFormed(Step(cfg, promised, j, e).host)
  {
    match e
    case Both(he, _) =>
      if he.Some? {
        S.WellFormedIsKept(cfg, j.host, he.value);
      }
    case ListNames => ListedIsWellFormed(j.host, j.files.names.Keys);
    case OpenNotice(_, _) =>
    case NotThere(name) => AnsweredIsWellFormed(j.host, name, false);
    case Answer =>
      var probe := j.files.probes[j.probe.value];
      AnsweredIsWellFormed(j.host, probe.name, probe.inode in j.files.exclusive);
  }

  /** The system call on the notice files in this step, if there is one. */
  function CallOf(j: Joint, e: Event): Option<F.Event>
    requires e.OpenNotice? ==> j.host.check.Some?
    requires e.Answer? ==> j.probe.Some?
  {
    match e
    case Both(_, fe) => fe
    case OpenNotice(id, name) => Some(F.ProbeOpen(id, j.host.check.value.pid, name))
    case Answer => Some(F.ProbeLock(j.probe.value))
    case _ => None
  }

  lemma StepCalls(cfg: P.Config, promised: F.Promises, j: Joint, e: Event)
    requires CanStep(promised, j, e)
    ensures CallOf(j, e).Some? ==> CanCall(promised, j.files, CallOf(j, e).value)
    ensures Step(cfg, promised, j, e).files ==
              if CallOf(j, e).Some? then F.Apply(j.files, CallOf(j, e).value) else j.files
  {
  }

  lemma StepKeepsSound(cfg: P.Config, j: Joint, e: Event)
    requires Sound(j) && Enabled(cfg, F.ALL_PROMISED, j, e)
    ensures Sound(Step(cfg, F.ALL_PROMISED, j, e))
  {
    StepIsWellFormed(cfg, F.ALL_PROMISED, j, e);
    FilesStaySound(cfg, j, e);
  }

  lemma FilesStaySound(cfg: P.Config, j: Joint, e: Event)
    requires N.CarefulInv(j.files) && N.ProbesAreCurrent(j.files) && CanStep(F.ALL_PROMISED, j, e)
    ensures N.CarefulInv(Step(cfg, F.ALL_PROMISED, j, e).files)
    ensures N.ProbesAreCurrent(Step(cfg, F.ALL_PROMISED, j, e).files)
  {
    StepCalls(cfg, F.ALL_PROMISED, j, e);
    if CallOf(j, e).Some? {
      CallKeepsSound(j.files, CallOf(j, e).value);
    }
  }

  lemma {:induction false} RunKeepsSound(cfg: P.Config, j: Joint, events: seq<Event>)
    requires Sound(j) && Run(cfg, F.ALL_PROMISED, j, events)
    ensures Sound(After(cfg, F.ALL_PROMISED, j, events))
    decreases |events|
  {
    if events != [] {
      StepKeepsSound(cfg, j, events[0]);
      RunKeepsSound(cfg, Step(cfg, F.ALL_PROMISED, j, events[0]), events[1..]);
    }
  }

  // ----------------------------- while a notice is up, no check gets past it

  /** `p`'s notice is up, the check in flight has not passed it by, and a probe
      it has open at it has not seen it down. */
  predicate Holding(j: Joint, p: Pid) {
    A.HeldBack(j.host, p) && (Probes(j, p) ==> !j.files.probes[j.probe.value].sawDown)
  }

  /** What a server knows to be up is there, and locked. */
  lemma UpIsThere(j: Joint, p: Pid)
    requires Sound(j) && P.Posted(j.host, p)
    ensures F.Posted(j.files, p)
  {
    assert N.Shows(j.files, p, j.files.owners[p].held.value);
    assert N.Holds(j.files, p);
  }

  lemma SawNothing(s: F.Notices, e: F.Event, a: F.AgentId)
    requires F.Enabled(false, s, e) && a in F.Apply(s, e).probes
    requires F.Posted(F.Apply(s, e), F.Apply(s, e).probes[a].name)
    ensures F.Apply(s, e).probes[a].sawDown ==>
              a in s.probes && s.probes[a].sawDown && s.probes[a].name == F.Apply(s, e).probes[a].name
  {
    var t := F.Step(s, e);
    assert a in t.probes;
    if a in s.probes {
      N.ProbeStep(s, e, a);
    } else {
      N.NewProbe(s, e, a);
    }
  }

  lemma BothHold(cfg: P.Config, j: Joint, he: Option<P.Event>, fe: Option<F.Event>, p: Pid)
    requires S.WellFormed(j.host) && Holding(j, p) && CanStep(F.ALL_PROMISED, j, Both(he, fe))
    requires var j' := Step(cfg, F.ALL_PROMISED, j, Both(he, fe)); P.Posted(j'.host, p) && F.Posted(j'.files, p)
    ensures var j' := Step(cfg, F.ALL_PROMISED, j, Both(he, fe));
            Holding(j', p) && A.BackgroundEntitled(j'.host) <= A.BackgroundEntitled(j.host)
  {
    var j' := Step(cfg, F.ALL_PROMISED, j, Both(he, fe));
    if he.Some? {
      A.HeldBackIsKept(cfg, j.host, he.value, p);
      A.NoBackgroundGains(cfg, j.host, he.value, p);
    }
    if fe.Some? && Probes(j', p) {
      SawNothing(j.files, fe.value, j.probe.value);
    }
  }

  lemma ListingHolds(cfg: P.Config, j: Joint, p: Pid)
    requires S.WellFormed(j.host) && Holding(j, p) && CanStep(F.ALL_PROMISED, j, ListNames) && F.Posted(j.files, p)
    ensures var j' := Step(cfg, F.ALL_PROMISED, j, ListNames);
            Holding(j', p) && A.BackgroundEntitled(j'.host) == A.BackgroundEntitled(j.host)
  {
    ListedIsWellFormed(j.host, j.files.names.Keys);
  }

  lemma OpeningHolds(cfg: P.Config, j: Joint, id: F.AgentId, name: Pid, p: Pid)
    requires Holding(j, p) && CanStep(F.ALL_PROMISED, j, OpenNotice(id, name))
    requires F.Posted(Step(cfg, F.ALL_PROMISED, j, OpenNotice(id, name)).files, p)
    ensures Holding(Step(cfg, F.ALL_PROMISED, j, OpenNotice(id, name)), p)
  {
    if Probes(Step(cfg, F.ALL_PROMISED, j, OpenNotice(id, name)), p) {
      SawNothing(j.files, F.ProbeOpen(id, j.host.check.value.pid, name), id);
    }
  }

  lemma MissingHolds(cfg: P.Config, j: Joint, name: Pid, p: Pid)
    requires S.WellFormed(j.host) && Holding(j, p) && CanStep(F.ALL_PROMISED, j, NotThere(name)) && F.Posted(j.files, p)
    ensures var j' := Step(cfg, F.ALL_PROMISED, j, NotThere(name));
            Holding(j', p) && A.BackgroundEntitled(j'.host) == A.BackgroundEntitled(j.host)
  {
    AnsweredIsWellFormed(j.host, name, false);
  }

  /** A probe that has not seen the notice down is looking at a locked file. */
  lemma LooksAtLocked(j: Joint, p: Pid)
    requires N.ProbesAreCurrent(j.files) && Holding(j, p) && Probes(j, p)
    ensures j.files.probes[j.probe.value].inode in j.files.exclusive
  {
  }

  lemma AnswerHolds(h: P.Host, name: Pid, posted: bool, p: Pid)
    requires A.HeldBack(h, p) && P.Enabled(h, P.ProbeNotice(name)) && (name == p ==> posted)
    ensures A.HeldBack(Answered(h, name, posted), p)
  {
    var waiting := Answered(h, name, posted).check.value.phase.waiting;
    assert name == p ==> waiting[|waiting| - 1] == p;
    assert forall x :: x in h.check.value.phase.waiting ==> x in waiting;
  }

  /** A name is answered for once: it counts as a waiting server's exactly if the
      file that was opened under it is locked by then. */
  lemma AnswersOnce(cfg: P.Config, promised: F.Promises, j: Joint, e: Event)
    requires CanStep(promised, j, e) && (e.Answer? || e.NotThere?)
    ensures var name := if e.Answer? then j.files.probes[j.probe.value].name else e.name;
            var posted := e.Answer? && j.files.probes[j.probe.value].inode in j.files.exclusive;
            var c, c' := j.host.check.value, Step(cfg, promised, j, e).host.check.value;
            && c'.phase.Probing? && c'.phase.names == c.phase.names - {name}
            && c'.phase.waiting == c.phase.waiting + (if posted then [name] else [])
            && Step(cfg, promised, j, e).probe == None
  {
  }

  /** ... and so it answers that the notice is up. */
  lemma AnsweringHolds(cfg: P.Config, j: Joint, p: Pid)
    requires S.WellFormed(j.host) && Holding(j, p) && CanStep(F.ALL_PROMISED, j, Answer)
    requires Probes(j, p) ==> j.files.probes[j.probe.value].inode in j.files.exclusive
    ensures var j' := Step(cfg, F.ALL_PROMISED, j, Answer);
            Holding(j', p) && A.BackgroundEntitled(j'.host) == A.BackgroundEntitled(j.host)
  {
    var probe := j.files.probes[j.probe.value];
    AnswerHolds(j.host, probe.name, probe.inode in j.files.exclusive, p);
    AnsweredIsWellFormed(j.host, probe.name, probe.inode in j.files.exclusive);
  }

  lemma StepHolds(cfg: P.Config, j: Joint, e: Event, p: Pid)
    requires S.WellFormed(j.host) && Holding(j, p) && CanStep(F.ALL_PROMISED, j, e)
    requires F.Posted(j.files, p) && (Probes(j, p) ==> j.files.probes[j.probe.value].inode in j.files.exclusive)
    requires var j' := Step(cfg, F.ALL_PROMISED, j, e); P.Posted(j'.host, p) && F.Posted(j'.files, p)
    ensures var j' := Step(cfg, F.ALL_PROMISED, j, e);
            Holding(j', p) && A.BackgroundEntitled(j'.host) <= A.BackgroundEntitled(j.host)
  {
    match e
    case Both(he, fe) => BothHold(cfg, j, he, fe, p);
    case ListNames => ListingHolds(cfg, j, p);
    case OpenNotice(id, name) => OpeningHolds(cfg, j, id, name, p);
    case NotThere(name) => MissingHolds(cfg, j, name, p);
    case Answer => AnsweringHolds(cfg, j, p);
  }

  lemma SoundStepHolds(cfg: P.Config, j: Joint, e: Event, p: Pid)
    requires Sound(j) && Holding(j, p) && Enabled(cfg, F.ALL_PROMISED, j, e)
    requires P.Posted(Step(cfg, F.ALL_PROMISED, j, e).host, p)
    ensures var j' := Step(cfg, F.ALL_PROMISED, j, e);
            Sound(j') && Holding(j', p) && A.BackgroundEntitled(j'.host) <= A.BackgroundEntitled(j.host)
  {
    StepKeepsSound(cfg, j, e);
    UpIsThere(j, p);
    UpIsThere(Step(cfg, F.ALL_PROMISED, j, e), p);
    if Probes(j, p) {
      LooksAtLocked(j, p);
    }
    StepHolds(cfg, j, e, p);
  }

  /** For as long as a server knows its notice to be up, no background process
      gains a reservation, whatever posts, withdrawals, probes, sweeps, deaths
      and new processes interleave with the check's own system calls. */
  lemma {:induction false} BackgroundOnlyShrinks(cfg: P.Config, j: Joint, events: seq<Event>, p: Pid)
    requires Sound(j) && Holding(j, p)
    requires Run(cfg, F.ALL_PROMISED, j, events) && UpThroughout(cfg, F.ALL_PROMISED, j, events, p)
    ensures A.BackgroundEntitled(After(cfg, F.ALL_PROMISED, j, events).host) <= A.BackgroundEntitled(j.host)
    decreases |events|
  {
    if events != [] {
      var j' := Step(cfg, F.ALL_PROMISED, j, events[0]);
      assert P.Posted(j'.host, p);
      SoundStepHolds(cfg, j, events[0], p);
      BackgroundOnlyShrinks(cfg, j', events[1..], p);
    }
  }
}
