/** The live servers' notice files, system call by system call. Processes post,
    withdraw, probe and sweep at once; a lock belongs to an open file and goes
    with its process. Names are pids: `names[p]` is the inode visible as
    `<p>.json`. */
module NoticeFiles {
  import opened Common

  type Pid = nat
  type Inode = nat
  type AgentId = nat

  /** `post()`: temporary file made, then locked; the rename ends it. */
  datatype Posting = NotPosting | Created(inode: Inode) | Locked(inode: Inode)

  /** `withdraw()`: fields cleared, file compared, name unlinked; the close ends
      it. `renamed` is history: the process has renamed a notice into place since
      it compared the file. */
  datatype Withdrawing =
    | NotWithdrawing
    | Cleared(inode: Inode)
    | Compared(inode: Inode, same: bool, renamed: bool)
    | Unlinked(inode: Inode)

  /** A running process; `held` is the open notice it means to be up. */
  datatype Owner = Owner(held: Option<Inode>, posting: Posting, withdrawing: Withdrawing) {
    predicate Owns(i: Inode) {
      || held == Some(i)
      || posting == Locked(i)
      || (!withdrawing.NotWithdrawing? && withdrawing.inode == i)
    }
  }

  /** A reader that has opened `name`. `sawDown` is history: at some moment
      since, that notice was not posted. */
  datatype Probe = Probe(who: Pid, name: Pid, inode: Inode, locked: bool, sawDown: bool)

  datatype SweepPhase = Opened | Shared | SameFile

  /** A sweeper that has opened `name`. `renamed` is history: a notice was
      renamed to `name` since the sweeper compared the file. */
  datatype Sweep = Sweep(who: Pid, name: Pid, inode: Inode, phase: SweepPhase, renamed: bool)

  /** `exclusive` is the exclusive locks and who holds each. The rest is
      history: who made each inode, which were ever named, which were left by a
      dead process, and which by a withdrawal whose unlink failed. */
  datatype Notices = Notices(
    names: map<Pid, Inode>,
    exclusive: map<Inode, Pid>,
    owners: map<Pid, Owner>,
    probes: map<AgentId, Probe>,
    sweeps: map<AgentId, Sweep>,
    maker: map<Inode, Pid>,
    named: set<Inode>,
    dead: set<Inode>,
    stuck: set<Inode>)

  datatype Event =
    | Spawn(pid: Pid)
    | Die(pid: Pid)
    | PostCreate(pid: Pid, inode: Inode)
    | PostLock(pid: Pid)
    | PostRename(pid: Pid)
    | PostFail(pid: Pid)
    | WithdrawClear(pid: Pid)
    | WithdrawCompare(pid: Pid)
    | WithdrawUnlink(pid: Pid, fails: bool)
    | WithdrawClose(pid: Pid)
    | ProbeOpen(id: AgentId, who: Pid, name: Pid)
    | ProbeLock(id: AgentId)
    | ProbeClose(id: AgentId)
    | SweepOpen(id: AgentId, who: Pid, name: Pid)
    | SweepLock(id: AgentId)
    | SweepCompare(id: AgentId)
    | SweepUnlink(id: AgentId, fails: bool)

  /** The notice is up: visible under its name and locked. */
  predicate Posted(s: Notices, p: Pid) {
    p in s.names && s.names[p] in s.exclusive
  }

  /** Some reader or sweeper holds a shared lock on the inode. */
  predicate SharedLocked(s: Notices, i: Inode) {
    || (exists a :: a in s.probes && s.probes[a].locked && s.probes[a].inode == i)
    || (exists a :: a in s.sweeps && !s.sweeps[a].phase.Opened? && s.sweeps[a].inode == i)
  }

  /** The kernel grants an exclusive lock exactly when nobody holds either kind. */
  predicate CanLockExclusive(s: Notices, i: Inode) {
    i !in s.exclusive && !SharedLocked(s, i)
  }

  /** `guarded` is whether posting and withdrawing exclude each other within a
      process, as `LiveServerAdmission`'s guard makes them. */
  predicate Enabled(guarded: bool, s: Notices, e: Event) {
    match e
    case Spawn(p) => p !in s.owners
    case Die(p) => p in s.owners
    case PostCreate(p, i) =>
      && p in s.owners && i !in s.maker
      && s.owners[p].held == None && s.owners[p].posting.NotPosting?
      && (guarded ==> s.owners[p].withdrawing.NotWithdrawing?)
    case PostLock(p) => p in s.owners && s.owners[p].posting.Created? && CanLockExclusive(s, s.owners[p].posting.inode)
    case PostRename(p) => p in s.owners && s.owners[p].posting.Locked?
    case PostFail(p) => p in s.owners && !s.owners[p].posting.NotPosting?
    case WithdrawClear(p) =>
      && p in s.owners && s.owners[p].held.Some?
      && s.owners[p].posting.NotPosting? && s.owners[p].withdrawing.NotWithdrawing?
    case WithdrawCompare(p) => p in s.owners && s.owners[p].withdrawing.Cleared?
    case WithdrawUnlink(p, _) => p in s.owners && s.owners[p].withdrawing.Compared?
    case WithdrawClose(p) => p in s.owners && s.owners[p].withdrawing.Unlinked?
    case ProbeOpen(a, who, name) => a !in s.probes && who in s.owners && name in s.names
    case ProbeLock(a) => a in s.probes && !s.probes[a].locked
    case ProbeClose(a) => a in s.probes && s.probes[a].locked
    case SweepOpen(a, who, name) => a !in s.sweeps && who in s.owners && name in s.names && name != who
    case SweepLock(a) => a in s.sweeps && s.sweeps[a].phase.Opened?
    case SweepCompare(a) => a in s.sweeps && s.sweeps[a].phase.Shared?
    case SweepUnlink(a, _) => a in s.sweeps && s.sweeps[a].phase.SameFile?
  }

  function SetOwner(s: Notices, p: Pid, o: Owner): Notices {
    s.(owners := s.owners[p := o])
  }

  /** Death closes every file the process has open. */
  function DieStep(s: Notices, p: Pid): Notices {
    s.(owners := s.owners - {p},
       exclusive := map i | i in s.exclusive && s.exclusive[i] != p :: s.exclusive[i],
       dead := s.dead + (set i | i in s.exclusive && s.exclusive[i] == p),
       probes := map a | a in s.probes && s.probes[a].who != p :: s.probes[a],
       sweeps := map a | a in s.sweeps && s.sweeps[a].who != p :: s.sweeps[a])
  }

  function RenameStep(s: Notices, p: Pid): Notices
    requires Enabled(false, s, PostRename(p))
  {
    var i := s.owners[p].posting.inode;
    var w := s.owners[p].withdrawing;
    var w' := if w.Compared? then w.(renamed := true) else w;
    SetOwner(s, p, Owner(Some(i), NotPosting, w')).(
      names := s.names[p := i],
      named := s.named + {i},
      sweeps := map a | a in s.sweeps :: if s.sweeps[a].name == p then s.sweeps[a].(renamed := true) else s.sweeps[a])
  }

  function UnlinkStep(s: Notices, p: Pid, fails: bool): Notices
    requires Enabled(false, s, WithdrawUnlink(p, fails))
  {
    var w := s.owners[p].withdrawing;
    SetOwner(s, p, s.owners[p].(withdrawing := Unlinked(w.inode))).(
      names := if w.same && !fails then s.names - {p} else s.names,
      stuck := if w.same && fails then s.stuck + {w.inode} else s.stuck)
  }

  /** A sweeper ends at a file it may not lock or that is no longer the named one. */
  function SweepStep(s: Notices, e: Event): Notices
    requires e.SweepLock? || e.SweepCompare? || e.SweepUnlink?
    requires Enabled(false, s, e)
  {
    var w := s.sweeps[e.id];
    match e
    case SweepLock(a) =>
      s.(sweeps := if w.inode in s.exclusive then s.sweeps - {a} else s.sweeps[a := w.(phase := Shared)])
    case SweepCompare(a) =>
      s.(sweeps := if w.name in s.names && s.names[w.name] == w.inode
                   then s.sweeps[a := w.(phase := SameFile, renamed := false)]
                   else s.sweeps - {a})
    case SweepUnlink(a, fails) =>
      s.(sweeps := s.sweeps - {a}, names := if fails then s.names else s.names - {w.name})
  }

  function Step(s: Notices, e: Event): Notices
    requires Enabled(false, s, e)
  {
    match e
    case Spawn(p) => SetOwner(s, p, Owner(None, NotPosting, NotWithdrawing))
    case Die(p) => DieStep(s, p)
    case PostCreate(p, i) => SetOwner(s, p, s.owners[p].(posting := Created(i))).(maker := s.maker[i := p])
    case PostLock(p) =>
      var i := s.owners[p].posting.inode;
      SetOwner(s, p, s.owners[p].(posting := Locked(i))).(exclusive := s.exclusive[i := p])
    case PostRename(p) => RenameStep(s, p)
    case PostFail(p) =>
      SetOwner(s, p, s.owners[p].(posting := NotPosting)).(exclusive := s.exclusive - {s.owners[p].posting.inode})
    case WithdrawClear(p) => SetOwner(s, p, s.owners[p].(held := None, withdrawing := Cleared(s.owners[p].held.value)))
    case WithdrawCompare(p) =>
      var i := s.owners[p].withdrawing.inode;
      SetOwner(s, p, s.owners[p].(withdrawing := Compared(i, p in s.names && s.names[p] == i, false)))
    case WithdrawUnlink(p, fails) => UnlinkStep(s, p, fails)
    case WithdrawClose(p) =>
      SetOwner(s, p, s.owners[p].(withdrawing := NotWithdrawing)).(
        exclusive := s.exclusive - {s.owners[p].withdrawing.inode})
    case ProbeOpen(a, who, name) => s.(probes := s.probes[a := Probe(who, name, s.names[name], false, false)])
    case ProbeLock(a) =>
      s.(probes := if s.probes[a].inode in s.exclusive
                   then s.probes - {a}
                   else s.probes[a := s.probes[a].(locked := true)])
    case ProbeClose(a) => s.(probes := s.probes - {a})
    case SweepOpen(a, who, name) => s.(sweeps := s.sweeps[a := Sweep(who, name, s.names[name], Opened, false)])
    case _ => SweepStep(s, e)
  }

  /** Every probe in flight notes whether its notice is down now. */
  function Observe(s: Notices): Notices {
    s.(probes := map a | a in s.probes :: s.probes[a].(sawDown := s.probes[a].sawDown || !Posted(s, s.probes[a].name)))
  }

  function Apply(s: Notices, e: Event): Notices
    requires Enabled(false, s, e)
  {
    Observe(Step(s, e))
  }

  predicate Run(guarded: bool, s: Notices, events: seq<Event>)
    decreases |events|
  {
    events == []
    || (Enabled(guarded, s, events[0]) && Enabled(false, s, events[0])
        && Run(guarded, Apply(s, events[0]), events[1..]))
  }

  function After(guarded: bool, s: Notices, events: seq<Event>): Notices
    requires Run(guarded, s, events)
    decreases |events|
  {
    if events == [] then s else After(guarded, Apply(s, events[0]), events[1..])
  }

  lemma {:induction false} RunSnoc(guarded: bool, s: Notices, events: seq<Event>, e: Event)
    requires Run(guarded, s, events)
    requires Enabled(guarded, After(guarded, s, events), e) && Enabled(false, After(guarded, s, events), e)
    ensures Run(guarded, s, events + [e])
    ensures After(guarded, s, events + [e]) == Apply(After(guarded, s, events), e)
    decreases |events|
  {
    if events == [] {
      assert Run(guarded, Apply(s, e), []);
    } else {
      assert (events + [e])[1..] == events[1..] + [e];
      RunSnoc(guarded, Apply(s, events[0]), events[1..], e);
    }
  }

  const NO_NOTICES := Notices(map[], map[], map[], map[], map[], map[], {}, {}, {})

  // -------------------------------------------------- what a run may be spared

  /** What a run can be promised: posting and withdrawing exclude each other
      within a process; no process starts under a pid whose notice is still
      there or being swept; no withdrawal fails to unlink. */
  datatype Promises = Promises(guarded: bool, freshPids: bool, unlinks: bool)

  const ALL_PROMISED := Promises(true, true, true)

  predicate Keeps(promised: Promises, s: Notices, e: Event) {
    match e
    case Spawn(p) => promised.freshPids ==> p !in s.names && forall a :: a in s.sweeps ==> s.sweeps[a].name != p
    case WithdrawUnlink(_, fails) => promised.unlinks ==> !fails
    case _ => true
  }

  predicate KeepsThroughout(promised: Promises, s: Notices, events: seq<Event>)
    requires Run(promised.guarded, s, events)
    decreases |events|
  {
    events == [] || (Keeps(promised, s, events[0]) && KeepsThroughout(promised, Apply(s, events[0]), events[1..]))
  }
}
