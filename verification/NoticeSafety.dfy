/** What holds of the notice files in every interleaving: locks are never
    refused to a poster, probes are linearizable, and what a sweep may unlink. */
module NoticeSafety {
  import opened Common
  import opened NoticeFiles

  // ------------------------------------------------------------ the invariants

  /** Which inodes there are, and whose. */
  ghost predicate Inodes(s: Notices) {
    && s.named <= s.maker.Keys && s.dead <= s.maker.Keys && s.exclusive.Keys <= s.maker.Keys
    && (forall p :: p in s.names ==> s.names[p] in s.named && s.maker[s.names[p]] == p)
    && (forall a :: a in s.probes ==> s.probes[a].inode in s.named && s.maker[s.probes[a].inode] == s.probes[a].name)
    && (forall a :: a in s.sweeps ==> s.sweeps[a].inode in s.named && s.maker[s.sweeps[a].inode] == s.sweeps[a].name)
  }

  /** A temporary file is its maker's alone. */
  ghost predicate Temporary(s: Notices, p: Pid)
    requires p in s.owners
  {
    !s.owners[p].posting.NotPosting? ==>
      var i := s.owners[p].posting.inode;
      && i in s.maker && s.maker[i] == p && i !in s.named && i !in s.dead && s.owners[p].held == None
      && (s.owners[p].posting.Created? ==> i !in s.exclusive)
  }

  ghost predicate Temporaries(s: Notices) {
    forall p :: p in s.owners ==> Temporary(s, p)
  }

  /** Every exclusive lock is held by the running process that made the file. */
  ghost predicate LocksAreOwned(s: Notices) {
    forall i :: i in s.exclusive ==>
      && i in s.maker && s.maker[i] == s.exclusive[i] && s.exclusive[i] in s.owners
      && s.owners[s.exclusive[i]].Owns(i)
  }

  /** ... and a process holds the lock of every notice it has open. */
  ghost predicate Holds(s: Notices, p: Pid)
    requires p in s.owners
  {
    var o := s.owners[p];
      && (o.held.Some? ==> o.held.value in s.named && o.held.value in s.exclusive && s.exclusive[o.held.value] == p)
      && (o.posting.Locked? ==> o.posting.inode in s.exclusive && s.exclusive[o.posting.inode] == p)
      && (!o.withdrawing.NotWithdrawing? ==>
            && o.withdrawing.inode in s.named && o.withdrawing.inode in s.exclusive
            && s.exclusive[o.withdrawing.inode] == p && o.held != Some(o.withdrawing.inode))
  }

  ghost predicate OwnedIsLocked(s: Notices) {
    forall p :: p in s.owners ==> Holds(s, p)
  }

  predicate Shows(s: Notices, p: Pid, i: Inode) {
    p in s.names && s.names[p] == i
  }

  /** A withdrawal closes its file only once the name is gone; until it unlinks,
      its process's name is still the compared file's or the one the process
      has renamed in since, and now means to be up. */
  ghost predicate Gone(s: Notices, p: Pid)
    requires p in s.owners
  {
    var w := s.owners[p].withdrawing;
    && (w.Compared? && !w.same ==> !Shows(s, p, w.inode))
    && (w.Compared? && w.same && !w.renamed && p in s.names ==> s.names[p] == w.inode)
    && (w.Compared? && w.renamed ==> s.owners[p].held.Some? && (p in s.names ==> s.names[p] == s.owners[p].held.value))
    && (w.Unlinked? ==> !Shows(s, p, w.inode) || w.inode in s.stuck)
  }

  ghost predicate WithdrawnIsGone(s: Notices) {
    forall p :: p in s.owners ==> Gone(s, p)
  }

  /** A visible notice is locked by its live owner, or left by a dead one (or
      by a withdrawal the filesystem refused). */
  ghost predicate VisibleIsAccountedFor(s: Notices) {
    forall p :: p in s.names ==> s.names[p] in s.exclusive || s.names[p] in s.dead || s.names[p] in s.stuck
  }

  /** A sweeper past its lock has a file nobody will lock again. */
  ghost predicate SweepsAreLate(s: Notices) {
    forall a :: a in s.sweeps && !s.sweeps[a].phase.Opened? ==>
      && s.sweeps[a].inode !in s.exclusive
      && (s.sweeps[a].phase.SameFile? && !s.sweeps[a].renamed && s.sweeps[a].name in s.names ==>
            s.names[s.sweeps[a].name] == s.sweeps[a].inode)
  }

  /** Which files there are, and what the sweepers have seen of them. */
  ghost predicate Traces(s: Notices) {
    Inodes(s) && SweepsAreLate(s)
  }

  /** Whose locks there are, and why each visible file is there. */
  ghost predicate Locks(s: Notices) {
    LocksAreOwned(s) && VisibleIsAccountedFor(s)
  }

  ghost predicate Orderly(s: Notices, p: Pid)
    requires p in s.owners
  {
    Temporary(s, p) && Holds(s, p) && Gone(s, p)
  }

  ghost predicate OwnersAreOrderly(s: Notices) {
    Temporaries(s) && OwnedIsLocked(s) && WithdrawnIsGone(s)
  }

  ghost predicate Inv(s: Notices) {
    Traces(s) && Locks(s) && OwnersAreOrderly(s)
  }

  predicate ByAgent(e: Event) {
    e.ProbeOpen? || e.ProbeLock? || e.ProbeClose? || e.SweepOpen? || e.SweepLock? || e.SweepCompare? || e.SweepUnlink?
  }

  lemma AgentsTouchOnlyNames(s: Notices, e: Event)
    requires Enabled(false, s, e) && ByAgent(e)
    ensures var s' := Step(s, e);
            && s'.owners == s.owners && s'.exclusive == s.exclusive && s'.maker == s.maker
            && s'.named == s.named && s'.dead == s.dead && s'.stuck == s.stuck
            && (forall p, i :: Shows(s', p, i) ==> Shows(s, p, i))
  {
  }

  // --------------------------------- each event keeps which files there are

  lemma SpawnKeepsTraces(s: Notices, p: Pid)
    requires Enabled(false, s, Spawn(p)) && Traces(s)
    ensures Traces(Step(s, Spawn(p)))
  {
  }

  lemma DieKeepsTraces(s: Notices, p: Pid)
    requires Enabled(false, s, Die(p)) && Traces(s)
    ensures Traces(Step(s, Die(p)))
  {
  }

  lemma PostCreateKeepsTraces(s: Notices, p: Pid, i: Inode)
    requires Enabled(false, s, PostCreate(p, i)) && Traces(s) && Temporary(s, p)
    ensures Traces(Step(s, PostCreate(p, i)))
  {
  }

  lemma PostLockKeepsTraces(s: Notices, p: Pid)
    requires Enabled(false, s, PostLock(p)) && Traces(s) && Temporary(s, p)
    ensures Traces(Step(s, PostLock(p)))
  {
  }

  lemma PostRenameKeepsTraces(s: Notices, p: Pid)
    requires Enabled(false, s, PostRename(p)) && Traces(s) && Temporary(s, p)
    ensures Traces(Step(s, PostRename(p)))
  {
  }

  lemma PostFailKeepsTraces(s: Notices, p: Pid)
    requires Enabled(false, s, PostFail(p)) && Traces(s) && Temporary(s, p)
    ensures Traces(Step(s, PostFail(p)))
  {
  }

  lemma WithdrawClearKeepsTraces(s: Notices, p: Pid)
    requires Enabled(false, s, WithdrawClear(p)) && Traces(s)
    ensures Traces(Step(s, WithdrawClear(p)))
  {
  }

  lemma WithdrawCompareKeepsTraces(s: Notices, p: Pid)
    requires Enabled(false, s, WithdrawCompare(p)) && Traces(s)
    ensures Traces(Step(s, WithdrawCompare(p)))
  {
  }

  lemma WithdrawUnlinkKeepsTraces(s: Notices, p: Pid, fails: bool)
    requires Enabled(false, s, WithdrawUnlink(p, fails)) && Traces(s)
    ensures Traces(Step(s, WithdrawUnlink(p, fails)))
  {
  }

  lemma WithdrawCloseKeepsTraces(s: Notices, p: Pid)
    requires Enabled(false, s, WithdrawClose(p)) && Traces(s)
    ensures Traces(Step(s, WithdrawClose(p)))
  {
  }

  lemma ProbeOpenKeepsTraces(s: Notices, a: AgentId, who: Pid, name: Pid)
    requires Enabled(false, s, ProbeOpen(a, who, name)) && Traces(s)
    ensures Traces(Step(s, ProbeOpen(a, who, name)))
  {
  }

  lemma ProbeLockKeepsTraces(s: Notices, a: AgentId)
    requires Enabled(false, s, ProbeLock(a)) && Traces(s)
    ensures Traces(Step(s, ProbeLock(a)))
  {
  }

  lemma ProbeCloseKeepsTraces(s: Notices, a: AgentId)
    requires Enabled(false, s, ProbeClose(a)) && Traces(s)
    ensures Traces(Step(s, ProbeClose(a)))
  {
  }

  lemma SweepOpenKeepsTraces(s: Notices, a: AgentId, who: Pid, name: Pid)
    requires Enabled(false, s, SweepOpen(a, who, name)) && Traces(s)
    ensures Traces(Step(s, SweepOpen(a, who, name)))
  {
  }

  lemma SweepLockKeepsTraces(s: Notices, a: AgentId)
    requires Enabled(false, s, SweepLock(a)) && Traces(s)
    ensures Traces(Step(s, SweepLock(a)))
  {
  }

  lemma SweepCompareKeepsTraces(s: Notices, a: AgentId)
    requires Enabled(false, s, SweepCompare(a)) && Traces(s)
    ensures Traces(Step(s, SweepCompare(a)))
  {
  }

  lemma SweepUnlinkKeepsTraces(s: Notices, a: AgentId, fails: bool)
    requires Enabled(false, s, SweepUnlink(a, fails)) && Traces(s)
    ensures Traces(Step(s, SweepUnlink(a, fails)))
  {
  }

  lemma AgentsKeepTraces(s: Notices, e: Event)
    requires Enabled(false, s, e) && ByAgent(e) && Inv(s)
    ensures Traces(Step(s, e))
  {
    if e.ProbeOpen? {
      ProbeOpenKeepsTraces(s, e.id, e.who, e.name);
    } else if e.ProbeLock? {
      ProbeLockKeepsTraces(s, e.id);
    } else if e.ProbeClose? {
      ProbeCloseKeepsTraces(s, e.id);
    } else if e.SweepOpen? {
      SweepOpenKeepsTraces(s, e.id, e.who, e.name);
    } else if e.SweepLock? {
      SweepLockKeepsTraces(s, e.id);
    } else if e.SweepCompare? {
      SweepCompareKeepsTraces(s, e.id);
    } else {
      SweepUnlinkKeepsTraces(s, e.id, e.fails);
    }
  }

  lemma TracesKept(s: Notices, e: Event)
    requires Enabled(false, s, e) && Inv(s)
    ensures Traces(Step(s, e))
  {
    if ByAgent(e) {
      AgentsKeepTraces(s, e);
    } else {
      match e
      case Spawn(p) => SpawnKeepsTraces(s, p);
      case Die(p) => DieKeepsTraces(s, p);
      case PostCreate(p, i) => PostCreateKeepsTraces(s, p, i);
      case PostLock(p) => PostLockKeepsTraces(s, p);
      case PostRename(p) => PostRenameKeepsTraces(s, p);
      case PostFail(p) => PostFailKeepsTraces(s, p);
      case WithdrawClear(p) => WithdrawClearKeepsTraces(s, p);
      case WithdrawCompare(p) => WithdrawCompareKeepsTraces(s, p);
      case WithdrawUnlink(p, fails) => WithdrawUnlinkKeepsTraces(s, p, fails);
      case WithdrawClose(p) => WithdrawCloseKeepsTraces(s, p);
    }
  }

  // --------------------------------------- each event keeps whose locks there are

  lemma SpawnKeepsLocks(s: Notices, p: Pid)
    requires Enabled(false, s, Spawn(p)) && Locks(s)
    ensures Locks(Step(s, Spawn(p)))
  {
  }

  lemma DieKeepsLocks(s: Notices, p: Pid)
    requires Enabled(false, s, Die(p)) && Inodes(s) && Locks(s)
    ensures Locks(Step(s, Die(p)))
  {
  }

  lemma PostCreateKeepsLocks(s: Notices, p: Pid, i: Inode)
    requires Enabled(false, s, PostCreate(p, i)) && Inodes(s) && Locks(s) && Orderly(s, p)
    ensures Locks(Step(s, PostCreate(p, i)))
  {
  }

  lemma PostLockKeepsLocks(s: Notices, p: Pid)
    requires Enabled(false, s, PostLock(p)) && Inodes(s) && Locks(s) && Orderly(s, p)
    ensures Locks(Step(s, PostLock(p)))
  {
  }

  lemma PostRenameKeepsLocks(s: Notices, p: Pid)
    requires Enabled(false, s, PostRename(p)) && Inodes(s) && Locks(s) && Orderly(s, p)
    ensures Locks(Step(s, PostRename(p)))
  {
  }

  lemma PostFailKeepsLocks(s: Notices, p: Pid)
    requires Enabled(false, s, PostFail(p)) && Inodes(s) && Locks(s) && Orderly(s, p)
    ensures Locks(Step(s, PostFail(p)))
  {
  }

  lemma WithdrawClearKeepsLocks(s: Notices, p: Pid)
    requires Enabled(false, s, WithdrawClear(p)) && Locks(s) && Orderly(s, p)
    ensures Locks(Step(s, WithdrawClear(p)))
  {
  }

  lemma WithdrawCompareKeepsLocks(s: Notices, p: Pid)
    requires Enabled(false, s, WithdrawCompare(p)) && Locks(s) && Orderly(s, p)
    ensures Locks(Step(s, WithdrawCompare(p)))
  {
  }

  lemma WithdrawUnlinkKeepsLocks(s: Notices, p: Pid, fails: bool)
    requires Enabled(false, s, WithdrawUnlink(p, fails)) && Locks(s) && Orderly(s, p)
    ensures Locks(Step(s, WithdrawUnlink(p, fails)))
  {
  }

  lemma WithdrawCloseKeepsLocks(s: Notices, p: Pid)
    requires Enabled(false, s, WithdrawClose(p)) && Inodes(s) && Locks(s) && Orderly(s, p)
    ensures Locks(Step(s, WithdrawClose(p)))
  {
  }

  lemma ProbeOpenKeepsLocks(s: Notices, a: AgentId, who: Pid, name: Pid)
    requires Enabled(false, s, ProbeOpen(a, who, name)) && Locks(s)
    ensures Locks(Step(s, ProbeOpen(a, who, name)))
  {
  }

  lemma ProbeLockKeepsLocks(s: Notices, a: AgentId)
    requires Enabled(false, s, ProbeLock(a)) && Locks(s)
    ensures Locks(Step(s, ProbeLock(a)))
  {
  }

  lemma ProbeCloseKeepsLocks(s: Notices, a: AgentId)
    requires Enabled(false, s, ProbeClose(a)) && Locks(s)
    ensures Locks(Step(s, ProbeClose(a)))
  {
  }

  lemma SweepOpenKeepsLocks(s: Notices, a: AgentId, who: Pid, name: Pid)
    requires Enabled(false, s, SweepOpen(a, who, name)) && Locks(s)
    ensures Locks(Step(s, SweepOpen(a, who, name)))
  {
  }

  lemma SweepLockKeepsLocks(s: Notices, a: AgentId)
    requires Enabled(false, s, SweepLock(a)) && Locks(s)
    ensures Locks(Step(s, SweepLock(a)))
  {
  }

  lemma SweepCompareKeepsLocks(s: Notices, a: AgentId)
    requires Enabled(false, s, SweepCompare(a)) && Locks(s)
    ensures Locks(Step(s, SweepCompare(a)))
  {
  }

  lemma SweepUnlinkKeepsLocks(s: Notices, a: AgentId, fails: bool)
    requires Enabled(false, s, SweepUnlink(a, fails)) && Locks(s)
    ensures Locks(Step(s, SweepUnlink(a, fails)))
  {
  }

  lemma AgentsKeepLocks(s: Notices, e: Event)
    requires Enabled(false, s, e) && ByAgent(e) && Inv(s)
    ensures Locks(Step(s, e))
  {
    if e.ProbeOpen? {
      ProbeOpenKeepsLocks(s, e.id, e.who, e.name);
    } else if e.ProbeLock? {
      ProbeLockKeepsLocks(s, e.id);
    } else if e.ProbeClose? {
      ProbeCloseKeepsLocks(s, e.id);
    } else if e.SweepOpen? {
      SweepOpenKeepsLocks(s, e.id, e.who, e.name);
    } else if e.SweepLock? {
      SweepLockKeepsLocks(s, e.id);
    } else if e.SweepCompare? {
      SweepCompareKeepsLocks(s, e.id);
    } else {
      SweepUnlinkKeepsLocks(s, e.id, e.fails);
    }
  }

  lemma LocksKept(s: Notices, e: Event)
    requires Enabled(false, s, e) && Inv(s)
    ensures Locks(Step(s, e))
  {
    if ByAgent(e) {
      AgentsKeepLocks(s, e);
    } else {
      match e
      case Spawn(p) => SpawnKeepsLocks(s, p);
      case Die(p) => DieKeepsLocks(s, p);
      case PostCreate(p, i) => PostCreateKeepsLocks(s, p, i);
      case PostLock(p) => PostLockKeepsLocks(s, p);
      case PostRename(p) => PostRenameKeepsLocks(s, p);
      case PostFail(p) => PostFailKeepsLocks(s, p);
      case WithdrawClear(p) => WithdrawClearKeepsLocks(s, p);
      case WithdrawCompare(p) => WithdrawCompareKeepsLocks(s, p);
      case WithdrawUnlink(p, fails) => WithdrawUnlinkKeepsLocks(s, p, fails);
      case WithdrawClose(p) => WithdrawCloseKeepsLocks(s, p);
    }
  }

  // ----------------------------------------- each event keeps the owners orderly

  lemma SpawnKeepsOwners(s: Notices, p: Pid)
    requires Enabled(false, s, Spawn(p)) && Inodes(s) && OwnersAreOrderly(s)
    ensures OwnersAreOrderly(Step(s, Spawn(p)))
  {
  }

  lemma DieKeepsOwners(s: Notices, p: Pid)
    requires Enabled(false, s, Die(p)) && Inodes(s) && OwnersAreOrderly(s)
    ensures OwnersAreOrderly(Step(s, Die(p)))
  {
  }

  lemma PostCreateKeepsOwners(s: Notices, p: Pid, i: Inode)
    requires Enabled(false, s, PostCreate(p, i)) && Inodes(s) && OwnersAreOrderly(s)
    ensures OwnersAreOrderly(Step(s, PostCreate(p, i)))
  {
  }

  lemma PostLockKeepsOwners(s: Notices, p: Pid)
    requires Enabled(false, s, PostLock(p)) && Inodes(s) && OwnersAreOrderly(s)
    ensures OwnersAreOrderly(Step(s, PostLock(p)))
  {
  }

  lemma PostRenameKeepsOwners(s: Notices, p: Pid)
    requires Enabled(false, s, PostRename(p)) && Inodes(s) && OwnersAreOrderly(s)
    ensures OwnersAreOrderly(Step(s, PostRename(p)))
  {
  }

  lemma PostFailKeepsOwners(s: Notices, p: Pid)
    requires Enabled(false, s, PostFail(p)) && Inodes(s) && OwnersAreOrderly(s)
    ensures OwnersAreOrderly(Step(s, PostFail(p)))
  {
  }

  lemma WithdrawClearKeepsOwners(s: Notices, p: Pid)
    requires Enabled(false, s, WithdrawClear(p)) && Inodes(s) && OwnersAreOrderly(s)
    ensures OwnersAreOrderly(Step(s, WithdrawClear(p)))
  {
  }

  lemma WithdrawCompareKeepsOwners(s: Notices, p: Pid)
    requires Enabled(false, s, WithdrawCompare(p)) && Inodes(s) && OwnersAreOrderly(s)
    ensures OwnersAreOrderly(Step(s, WithdrawCompare(p)))
  {
  }

  lemma WithdrawUnlinkKeepsOwners(s: Notices, p: Pid, fails: bool)
    requires Enabled(false, s, WithdrawUnlink(p, fails)) && Inodes(s) && OwnersAreOrderly(s)
    ensures OwnersAreOrderly(Step(s, WithdrawUnlink(p, fails)))
  {
  }

  lemma WithdrawCloseKeepsOwners(s: Notices, p: Pid)
    requires Enabled(false, s, WithdrawClose(p)) && Inodes(s) && OwnersAreOrderly(s)
    ensures OwnersAreOrderly(Step(s, WithdrawClose(p)))
  {
  }

  lemma AgentsKeepOwners(s: Notices, e: Event)
    requires Enabled(false, s, e) && ByAgent(e) && OwnersAreOrderly(s)
    ensures OwnersAreOrderly(Step(s, e))
  {
    AgentsTouchOnlyNames(s, e);
    var t := Step(s, e);
    forall p | p in t.owners ensures Temporary(t, p) && Holds(t, p) && Gone(t, p) {
      assert Orderly(s, p);
      assert forall i :: Shows(t, p, i) ==> Shows(s, p, i);
    }
  }

  lemma OwnersKept(s: Notices, e: Event)
    requires Enabled(false, s, e) && Inv(s)
    ensures OwnersAreOrderly(Step(s, e))
  {
    if ByAgent(e) {
      AgentsKeepOwners(s, e);
    } else {
      match e
      case Spawn(p) => SpawnKeepsOwners(s, p);
      case Die(p) => DieKeepsOwners(s, p);
      case PostCreate(p, i) => PostCreateKeepsOwners(s, p, i);
      case PostLock(p) => PostLockKeepsOwners(s, p);
      case PostRename(p) => PostRenameKeepsOwners(s, p);
      case PostFail(p) => PostFailKeepsOwners(s, p);
      case WithdrawClear(p) => WithdrawClearKeepsOwners(s, p);
      case WithdrawCompare(p) => WithdrawCompareKeepsOwners(s, p);
      case WithdrawUnlink(p, fails) => WithdrawUnlinkKeepsOwners(s, p, fails);
      case WithdrawClose(p) => WithdrawCloseKeepsOwners(s, p);
    }
  }

  lemma InvKept(s: Notices, e: Event)
    requires Inv(s) && Enabled(false, s, e)
    ensures Inv(Step(s, e))
  {
    TracesKept(s, e);
    LocksKept(s, e);
    OwnersKept(s, e);
  }

  lemma ObservingKeepsInv(t: Notices)
    requires Inv(t)
    ensures Inv(Observe(t))
  {
    var s' := Observe(t);
    forall a | a in s'.probes
      ensures s'.probes[a].inode in s'.named && s'.maker[s'.probes[a].inode] == s'.probes[a].name
    {
      assert a in t.probes;
    }
    forall p | p in s'.owners ensures Temporary(s', p) && Holds(s', p) && Gone(s', p) {
      assert Orderly(t, p);
    }
  }

  lemma ApplyKeepsInv(s: Notices, e: Event)
    requires Inv(s) && Enabled(false, s, e)
    ensures Inv(Apply(s, e))
  {
    InvKept(s, e);
    ObservingKeepsInv(Step(s, e));
  }

  /** Every interleaving, guarded or not, with any pid reuse, unlink failures
      and deaths: a visible notice is locked by the live process that made it,
      or left by a dead one, or by a withdrawal whose unlink failed. */
  lemma {:induction false} EveryRunKeepsInv(guarded: bool, s: Notices, events: seq<Event>)
    requires Inv(s) && Run(guarded, s, events)
    ensures Inv(After(guarded, s, events))
    decreases |events|
  {
    if events != [] {
      ApplyKeepsInv(s, events[0]);
      EveryRunKeepsInv(guarded, Apply(s, events[0]), events[1..]);
    }
  }

  lemma VisibleMeansLockedOrLeft(guarded: bool, events: seq<Event>, p: Pid)
    requires Run(guarded, NO_NOTICES, events) && p in After(guarded, NO_NOTICES, events).names
    ensures var s := After(guarded, NO_NOTICES, events);
            var i := s.names[p];
            || (i in s.exclusive && s.exclusive[i] == p && p in s.owners)
            || i in s.dead || i in s.stuck
  {
    EveryRunKeepsInv(guarded, NO_NOTICES, events);
  }

  /** No reader or sweeper ever stands in a poster's way: the lock of the file
      it has just made is always granted. */
  lemma PosterIsNeverRefused(s: Notices, p: Pid)
    requires Inv(s) && p in s.owners && s.owners[p].posting.Created?
    ensures CanLockExclusive(s, s.owners[p].posting.inode)
  {
    assert Temporary(s, p);
  }

  // ----------------------------------------------------- probes linearize

  /** A probe in flight has either seen its notice down, or is looking at the
      very file that is posted. */
  ghost predicate ProbesAreCurrent(s: Notices) {
    forall a :: a in s.probes ==>
      && (s.probes[a].locked ==> s.probes[a].sawDown)
      && (!s.probes[a].sawDown ==> Posted(s, s.probes[a].name) && s.names[s.probes[a].name] == s.probes[a].inode)
  }

  /** Within a guarded process posting and withdrawing never overlap. */
  ghost predicate OneAtATime(s: Notices) {
    forall p :: p in s.owners && !s.owners[p].withdrawing.NotWithdrawing? ==>
      s.owners[p].posting.NotPosting? && s.owners[p].held == None
  }

  lemma OtherOwnersStay(s: Notices, e: Event, p: Pid)
    requires Enabled(false, s, e) && !ByAgent(e) && p in Step(s, e).owners && p != e.pid
    ensures p in s.owners && Step(s, e).owners[p] == s.owners[p]
  {
  }

  lemma OwnersChangeOnlyThemselves(s: Notices, e: Event, p: Pid)
    requires Enabled(false, s, e) && p in Step(s, e).owners && (ByAgent(e) || p != e.pid)
    ensures p in s.owners && Step(s, e).owners[p] == s.owners[p]
  {
    if ByAgent(e) {
      AgentsTouchOnlyNames(s, e);
    } else {
      OtherOwnersStay(s, e, p);
    }
  }

  predicate Posts(e: Event) {
    e.PostCreate? || e.PostLock? || e.PostRename? || e.PostFail?
  }

  predicate Withdraws(e: Event) {
    e.WithdrawClear? || e.WithdrawCompare? || e.WithdrawUnlink? || e.WithdrawClose?
  }

  lemma PostersKeepToThePost(s: Notices, e: Event)
    requires Enabled(true, s, e) && Enabled(false, s, e) && Posts(e) && Temporary(s, e.pid)
    requires s.owners[e.pid].withdrawing.NotWithdrawing?
    ensures e.pid in Step(s, e).owners && Step(s, e).owners[e.pid].withdrawing.NotWithdrawing?
  {
  }

  lemma WithdrawersKeepToTheWithdrawal(s: Notices, e: Event)
    requires Enabled(false, s, e) && Withdraws(e)
    requires s.owners[e.pid].withdrawing.NotWithdrawing? || s.owners[e.pid].held == None
    requires s.owners[e.pid].posting.NotPosting?
    ensures e.pid in Step(s, e).owners
    ensures Step(s, e).owners[e.pid].posting.NotPosting? && Step(s, e).owners[e.pid].held == None
  {
  }

  lemma OneAtATimeKept(s: Notices, e: Event)
    requires Inv(s) && OneAtATime(s) && Enabled(true, s, e) && Enabled(false, s, e)
    ensures OneAtATime(Apply(s, e))
  {
    var t := Step(s, e);
    forall p | p in t.owners && !t.owners[p].withdrawing.NotWithdrawing?
      ensures t.owners[p].posting.NotPosting? && t.owners[p].held == None
    {
      if ByAgent(e) || p != e.pid {
        OwnersChangeOnlyThemselves(s, e, p);
      } else if Posts(e) {
        assert Temporary(s, p);
        PostersKeepToThePost(s, e);
      } else if Withdraws(e) {
        WithdrawersKeepToTheWithdrawal(s, e);
      }
    }
  }

  /** A posted notice is never renamed over: its owner would first have to
      withdraw it, or die. */
  lemma PostedIsNotRenamedOver(s: Notices, p: Pid)
    requires Inv(s) && OneAtATime(s) && Enabled(true, s, PostRename(p))
    ensures !Posted(s, p)
  {
    assert Temporary(s, p) && Holds(s, p);
  }

  /** A name changes hands only by a rename; every other step leaves it or
      takes it away. */
  lemma NamesChangeByRename(s: Notices, e: Event, p: Pid)
    requires Enabled(false, s, e) && p in Step(s, e).names && e != PostRename(p)
    ensures p in s.names && Step(s, e).names[p] == s.names[p]
  {
    if ByAgent(e) {
      AgentsTouchOnlyNames(s, e);
      assert Shows(Step(s, e), p, Step(s, e).names[p]);
    } else {
      OwnersNameByRename(s, e, p);
    }
  }

  lemma OwnersNameByRename(s: Notices, e: Event, p: Pid)
    requires Enabled(false, s, e) && !ByAgent(e) && p in Step(s, e).names && e != PostRename(p)
    ensures p in s.names && Step(s, e).names[p] == s.names[p]
  {
  }

  lemma OwnersLeaveProbes(s: Notices, e: Event)
    requires Enabled(false, s, e) && !ByAgent(e)
    ensures Step(s, e).probes == if e.Die? then DieStep(s, e.pid).probes else s.probes
  {
  }

  lemma ProbeStep(s: Notices, e: Event, a: AgentId)
    requires Enabled(false, s, e) && a in s.probes && a in Step(s, e).probes
    ensures Step(s, e).probes[a] == s.probes[a].(locked := Step(s, e).probes[a].locked)
    ensures Step(s, e).probes[a].locked ==> s.probes[a].locked || s.probes[a].inode !in Step(s, e).exclusive
  {
    if !ByAgent(e) {
      OwnersLeaveProbes(s, e);
    } else if e != ProbeLock(a) {
      AgentsLeaveProbes(s, e, a);
    }
  }

  /** A reader's probe is changed by its own attempt at the lock. */
  lemma AgentsLeaveProbes(s: Notices, e: Event, a: AgentId)
    requires Enabled(false, s, e) && ByAgent(e) && e != ProbeLock(a) && e != ProbeClose(a) && a in s.probes
    ensures a in Step(s, e).probes && Step(s, e).probes[a] == s.probes[a]
  {
  }

  lemma ProbeStaysCurrent(s: Notices, e: Event, a: AgentId)
    requires Inv(s) && OneAtATime(s) && ProbesAreCurrent(s) && Enabled(true, s, e) && Enabled(false, s, e)
    requires a in s.probes && a in Step(s, e).probes && !s.probes[a].sawDown && Posted(Step(s, e), s.probes[a].name)
    ensures Step(s, e).names[s.probes[a].name] == s.probes[a].inode
    ensures !Step(s, e).probes[a].locked
  {
    var name := s.probes[a].name;
    if e == PostRename(name) {
      PostedIsNotRenamedOver(s, name);
    } else {
      NamesChangeByRename(s, e, name);
      ProbeStep(s, e, a);
    }
  }

  lemma ProbesAreCurrentKept(s: Notices, e: Event)
    requires Inv(s) && OneAtATime(s) && ProbesAreCurrent(s) && Enabled(true, s, e) && Enabled(false, s, e)
    ensures ProbesAreCurrent(Apply(s, e))
  {
    var t, s' := Step(s, e), Apply(s, e);
    forall a | a in s'.probes
      ensures s'.probes[a].locked ==> s'.probes[a].sawDown
      ensures !s'.probes[a].sawDown ==>
                Posted(s', s'.probes[a].name) && s'.names[s'.probes[a].name] == s'.probes[a].inode
    {
      assert a in t.probes
               && s'.probes[a] == t.probes[a].(sawDown := t.probes[a].sawDown || !Posted(t, t.probes[a].name));
      if a in s.probes {
        ProbeStep(s, e, a);
        if !s'.probes[a].sawDown {
          ProbeStaysCurrent(s, e, a);
        }
      } else {
        NewProbe(s, e, a);
      }
    }
  }

  lemma NewProbe(s: Notices, e: Event, a: AgentId)
    requires Enabled(false, s, e) && a !in s.probes && a in Step(s, e).probes
    ensures var p := Step(s, e).probes[a];
            !p.locked && !p.sawDown && p.name in Step(s, e).names && Step(s, e).names[p.name] == p.inode
  {
    if !ByAgent(e) {
      OwnersLeaveProbes(s, e);
    } else {
      NewProbeOpens(s, e, a);
    }
  }

  lemma NewProbeOpens(s: Notices, e: Event, a: AgentId)
    requires Enabled(false, s, e) && ByAgent(e) && a !in s.probes && a in Step(s, e).probes
    ensures e.ProbeOpen? && e.id == a
  {
  }

  ghost predicate GuardedInv(s: Notices) {
    Inv(s) && OneAtATime(s) && ProbesAreCurrent(s)
  }

  lemma GuardedStep(s: Notices, e: Event)
    requires GuardedInv(s) && Enabled(true, s, e) && Enabled(false, s, e)
    ensures GuardedInv(Apply(s, e))
  {
    ApplyKeepsInv(s, e);
    OneAtATimeKept(s, e);
    ProbesAreCurrentKept(s, e);
  }

  lemma {:induction false} GuardedRunKeepsInv(s: Notices, events: seq<Event>)
    requires GuardedInv(s) && Run(true, s, events)
    ensures GuardedInv(After(true, s, events))
    decreases |events|
  {
    if events != [] {
      GuardedStep(s, events[0]);
      GuardedRunKeepsInv(Apply(s, events[0]), events[1..]);
    }
  }

  /** The probe neither answers nor loses its process in these events. */
  predicate StaysOpen(events: seq<Event>, a: AgentId, who: Pid) {
    forall k :: 0 <= k < |events| ==> events[k] != ProbeLock(a) && events[k] != ProbeClose(a) && events[k] != Die(who)
  }

  lemma ProbeIsLeftAlone(s: Notices, e: Event, a: AgentId)
    requires Enabled(false, s, e) && a in s.probes && e != ProbeLock(a) && e != ProbeClose(a)
               && e != Die(s.probes[a].who)
    ensures a in Step(s, e).probes && Step(s, e).probes[a] == s.probes[a]
  {
    if ByAgent(e) {
      AgentsLeaveProbes(s, e, a);
    } else {
      OwnersLeaveProbes(s, e);
    }
  }

  lemma ProbeStaysOpen(s: Notices, e: Event, a: AgentId)
    requires Enabled(false, s, e) && a in s.probes && e != ProbeLock(a) && e != ProbeClose(a)
               && e != Die(s.probes[a].who)
    ensures a in Apply(s, e).probes
    ensures Apply(s, e).probes[a]
              == s.probes[a].(sawDown := s.probes[a].sawDown || !Posted(Apply(s, e), s.probes[a].name))
  {
    ProbeIsLeftAlone(s, e, a);
  }

  /** What `sawDown` records did happen: the notice was down after one of the
      events since. */
  lemma {:induction false} DownAtSomeMoment(s: Notices, events: seq<Event>, a: AgentId) returns (k: nat)
    requires Run(true, s, events) && a in s.probes && !s.probes[a].sawDown && StaysOpen(events, a, s.probes[a].who)
    ensures a in After(true, s, events).probes
    ensures After(true, s, events).probes[a].name == s.probes[a].name
              && After(true, s, events).probes[a].inode == s.probes[a].inode
    ensures After(true, s, events).probes[a].sawDown ==>
              k <= |events| && Run(true, s, events[..k]) && !Posted(After(true, s, events[..k]), s.probes[a].name)
    decreases |events|
  {
    k := 0;
    if events != [] {
      var e, s' := events[0], Apply(s, events[0]);
      ProbeStaysOpen(s, e, a);
      if s'.probes[a].sawDown {
        k := 1;
        FirstEvent(s, events);
        SawDownSticks(s', events[1..], a);
      } else {
        var j := DownAtSomeMoment(s', events[1..], a);
        k := j + 1;
        if After(true, s, events).probes[a].sawDown {
          OneEventLater(s, events, j);
        }
      }
    }
  }

  lemma FirstEvent(s: Notices, events: seq<Event>)
    requires events != [] && Run(true, s, events)
    ensures Run(true, s, events[..1]) && After(true, s, events[..1]) == Apply(s, events[0])
  {
    assert events[..1] == [] + [events[0]];
    RunSnoc(true, s, [], events[0]);
  }

  lemma OneEventLater(s: Notices, events: seq<Event>, j: nat)
    requires Run(true, s, events) && j < |events| && Run(true, Apply(s, events[0]), events[1..][..j])
    ensures Run(true, s, events[..j + 1])
    ensures After(true, s, events[..j + 1]) == After(true, Apply(s, events[0]), events[1..][..j])
  {
    assert events[..j + 1][1..] == events[1..][..j];
  }

  lemma {:induction false} SawDownSticks(s: Notices, events: seq<Event>, a: AgentId)
    requires Run(true, s, events) && a in s.probes && s.probes[a].sawDown && StaysOpen(events, a, s.probes[a].who)
    ensures a in After(true, s, events).probes
    ensures After(true, s, events).probes[a] == s.probes[a]
    decreases |events|
  {
    if events != [] {
      ProbeStaysOpen(s, events[0], a);
      SawDownSticks(Apply(s, events[0]), events[1..], a);
    }
  }

  /** A probe answers at once, and disturbs nothing: "posted" exactly if the file
      it has opened is locked, else it closes it and answers "none". */
  lemma ProbeAnswers(s: Notices, a: AgentId)
    requires Enabled(true, s, ProbeLock(a))
    ensures var s' := Apply(s, ProbeLock(a));
            && s'.names == s.names && s'.exclusive == s.exclusive
            && (s.probes[a].inode in s.exclusive ==> a !in s'.probes)
            && (s.probes[a].inode !in s.exclusive ==>
                  Enabled(true, s', ProbeClose(a)) && a !in Apply(s', ProbeClose(a)).probes
                  && SharedLocked(s', s.probes[a].inode))
  {
    if s.probes[a].inode !in s.exclusive {
      assert a in Apply(s, ProbeLock(a)).probes && Apply(s, ProbeLock(a)).probes[a].locked;
    }
  }

  /** A probe that answers "posted" answers at a moment when the notice's own
      live process holds its lock: no reader or sweeper can cause that answer. */
  lemma PostedAnswerIsTrue(s: Notices, a: AgentId)
    requires Inv(s) && Enabled(true, s, ProbeLock(a)) && s.probes[a].inode in s.exclusive
    ensures var p := s.probes[a].name;
            s.exclusive[s.probes[a].inode] == p && p in s.owners && s.owners[p].Owns(s.probes[a].inode)
  {
  }

  /** A probe that opened a posted notice and answers "none" does so after a
      moment, since it opened, when that notice was not posted. (One that finds
      no file to open answers at such a moment.) */
  lemma NoneAnswerIsTrue(s: Notices, events: seq<Event>, a: AgentId) returns (k: nat)
    requires GuardedInv(s) && a in s.probes && !s.probes[a].sawDown
    requires Run(true, s, events) && StaysOpen(events, a, s.probes[a].who)
    requires s.probes[a].inode !in After(true, s, events).exclusive
    ensures k <= |events| && Run(true, s, events[..k]) && !Posted(After(true, s, events[..k]), s.probes[a].name)
  {
    GuardedRunKeepsInv(s, events);
    k := DownAtSomeMoment(s, events, a);
  }

  // ------------------------------------------------------- what a sweep unlinks

  /** A sweep's unlink takes a posted notice down only if one was renamed into
      place since the sweep compared the file. */
  lemma SweepTakesDownOnlyTheRenamed(s: Notices, a: AgentId, fails: bool)
    requires Inv(s) && Enabled(true, s, SweepUnlink(a, fails)) && Posted(s, s.sweeps[a].name)
    ensures s.sweeps[a].renamed
  {
  }

  /** ... and then it does: the server means its notice to be up, and no reader
      can see it. */
  lemma SweepTakesDownTheRenamed(s: Notices, a: AgentId)
    requires Inv(s) && a in s.sweeps && s.sweeps[a].phase.SameFile? && Enabled(true, s, PostRename(s.sweeps[a].name))
    ensures var p := s.sweeps[a].name;
            var s1 := Apply(s, PostRename(p));
            && Posted(s1, p) && Enabled(true, s1, SweepUnlink(a, false))
            && var s2 := Apply(s1, SweepUnlink(a, false));
               p in s2.owners && s2.owners[p].held.Some? && !Posted(s2, p)
  {
  }

  // ------------------------------------------------ what a withdrawal unlinks

  /** `p` means its notice to be up, and it is visible. */
  predicate MeantUp(s: Notices, p: Pid) {
    p in s.owners && s.owners[p].held.Some? && Shows(s, p, s.owners[p].held.value)
  }

  /** A withdrawal's unlink takes down a notice its process means to be up if
      and only if the unlink succeeds, the comparison had found the old file
      and the notice was renamed in since. */
  lemma WithdrawalTakesDownExactlyTheRenamed(s: Notices, p: Pid, fails: bool)
    requires Inv(s) && Enabled(false, s, WithdrawUnlink(p, fails))
    ensures var w := s.owners[p].withdrawing;
            MeantUp(s, p) && !MeantUp(Apply(s, WithdrawUnlink(p, fails)), p)
            <==> !fails && w.same && w.renamed && p in s.names
  {
    assert Holds(s, p) && Gone(s, p);
  }

  /** ... and every notice renamed in then does go. */
  lemma WithdrawalTakesDownTheRenamed(s: Notices, p: Pid)
    requires Inv(s) && Enabled(false, s, PostRename(p))
    requires s.owners[p].withdrawing.Compared? && s.owners[p].withdrawing.same
    ensures var s1 := Apply(s, PostRename(p));
            && MeantUp(s1, p) && Posted(s1, p) && Enabled(false, s1, WithdrawUnlink(p, false))
            && var s2 := Apply(s1, WithdrawUnlink(p, false));
               p in s2.owners && s2.owners[p].held.Some? && !Posted(s2, p)
  {
    assert Holds(s, p);
  }

  // ------------------------------ no notice is lost when no left pid comes back

  /** What a live server means to be up is up. */
  ghost predicate MeantIsPosted(s: Notices) {
    forall p :: p in s.owners && s.owners[p].held.Some? ==> Shows(s, p, s.owners[p].held.value)
  }

  /** Whoever left a notice behind is gone, and stays gone while it is swept. */
  ghost predicate LeftMeansGone(s: Notices) {
    && s.stuck == {}
    && s.dead !! s.exclusive.Keys
    && (forall p :: p in s.owners && p in s.names ==> s.names[p] !in s.dead)
    && (forall a :: a in s.sweeps && s.sweeps[a].phase.SameFile? ==> s.sweeps[a].name !in s.owners)
  }

  ghost predicate CarefulInv(s: Notices) {
    Inv(s) && OneAtATime(s) && MeantIsPosted(s) && LeftMeansGone(s)
  }

  lemma DeadStaysUnlocked(s: Notices, e: Event)
    requires Inv(s) && s.dead !! s.exclusive.Keys && Enabled(false, s, e)
    ensures Step(s, e).dead !! Step(s, e).exclusive.Keys
  {
    if e.PostLock? {
      assert Temporary(s, e.pid);
    }
  }

  /** A process that goes on leaves nothing behind by another's step. */
  lemma LeftBefore(s: Notices, e: Event, p: Pid)
    requires CarefulInv(s) && Enabled(false, s, e) && Keeps(ALL_PROMISED, s, e)
    requires p in Step(s, e).owners && p in s.names && e != PostRename(p)
    ensures p in s.owners && s.names[p] !in Step(s, e).dead
  {
    if e.Die? {
      LeftBeforeDeath(s, e.pid, p);
    } else {
      OnlyDeathLeaves(s, e);
    }
  }

  lemma OnlyDeathLeaves(s: Notices, e: Event)
    requires Enabled(false, s, e) && !e.Die?
    ensures Step(s, e).dead == s.dead
    ensures Step(s, e).owners.Keys == s.owners.Keys + if e.Spawn? then {e.pid} else {}
  {
    if ByAgent(e) {
      AgentsTouchOnlyNames(s, e);
    } else if !e.Spawn? {
      OwnersStayAlive(s, e);
    }
  }

  lemma OwnersStayAlive(s: Notices, e: Event)
    requires Enabled(false, s, e) && (Posts(e) || Withdraws(e))
    ensures Step(s, e).dead == s.dead && Step(s, e).owners.Keys == s.owners.Keys
  {
  }

  lemma LeftBeforeDeath(s: Notices, d: Pid, p: Pid)
    requires CarefulInv(s) && d in s.owners && p in s.owners && p in s.names && p != d
    ensures s.names[p] !in DieStep(s, d).dead
  {
  }

  lemma LeftStaysGone(s: Notices, e: Event, p: Pid)
    requires CarefulInv(s) && Enabled(true, s, e) && Enabled(false, s, e) && Keeps(ALL_PROMISED, s, e)
    requires p in Step(s, e).owners && p in Step(s, e).names
    ensures Step(s, e).names[p] !in Step(s, e).dead
  {
    if e == PostRename(p) {
      assert Temporary(s, p);
    } else {
      NamesChangeByRename(s, e, p);
      LeftBefore(s, e, p);
    }
  }

  lemma SweptIsGoneWhenCompared(s: Notices, a: AgentId)
    requires CarefulInv(s) && Enabled(false, s, SweepCompare(a))
    requires a in Step(s, SweepCompare(a)).sweeps
    ensures s.sweeps[a].name !in s.owners
  {
    var w := s.sweeps[a];
    assert s.names[w.name] in s.exclusive || s.names[w.name] in s.dead;
  }

  lemma SweptStaysGone(s: Notices, e: Event, a: AgentId)
    requires CarefulInv(s) && Enabled(true, s, e) && Enabled(false, s, e) && Keeps(ALL_PROMISED, s, e)
    requires a in Step(s, e).sweeps && Step(s, e).sweeps[a].phase.SameFile?
    ensures Step(s, e).sweeps[a].name !in Step(s, e).owners
  {
    if e == SweepCompare(a) {
      SweptIsGoneWhenCompared(s, a);
    } else {
      SweepWasSame(s, e, a);
      if s.sweeps[a].name in Step(s, e).owners {
        NewcomersSpawn(s, e, s.sweeps[a].name);
      }
    }
  }

  lemma NewcomersSpawn(s: Notices, e: Event, p: Pid)
    requires Enabled(false, s, e) && p !in s.owners && p in Step(s, e).owners
    ensures e == Spawn(p)
  {
    if !e.Die? {
      OnlyDeathLeaves(s, e);
    }
  }

  lemma SweepWasSame(s: Notices, e: Event, a: AgentId)
    requires Enabled(false, s, e) && e != SweepCompare(a) && a in Step(s, e).sweeps
               && Step(s, e).sweeps[a].phase.SameFile?
    ensures a in s.sweeps && s.sweeps[a].phase.SameFile? && Step(s, e).sweeps[a].name == s.sweeps[a].name
  {
    if !ByAgent(e) {
      OwnersLeaveSweeps(s, e, a);
    }
  }

  lemma OwnersLeaveSweeps(s: Notices, e: Event, a: AgentId)
    requires Enabled(false, s, e) && !ByAgent(e) && a in Step(s, e).sweeps
    ensures a in s.sweeps && Step(s, e).sweeps[a] == s.sweeps[a].(renamed := Step(s, e).sweeps[a].renamed)
  {
  }

  /** A notice held by a server is taken off its name by no other step. */
  lemma NameIsLeftAlone(s: Notices, e: Event, p: Pid)
    requires CarefulInv(s) && Enabled(false, s, e) && p in s.owners && s.owners[p].held.Some?
    requires e != PostRename(p)
    ensures p in Step(s, e).names && Step(s, e).names[p] == s.names[p]
  {
    assert Shows(s, p, s.owners[p].held.value);
    if e.SweepUnlink? {
      assert s.sweeps[e.id].name != p;
    } else if Withdraws(e) {
      WithdrawersKeepNames(s, e, p);
    } else {
      OthersKeepNames(s, e, p);
    }
  }

  lemma WithdrawersKeepNames(s: Notices, e: Event, p: Pid)
    requires OneAtATime(s) && Enabled(false, s, e) && Withdraws(e)
    requires p in s.names && p in s.owners && s.owners[p].held.Some?
    ensures p in Step(s, e).names && Step(s, e).names[p] == s.names[p]
  {
    assert s.owners[p].withdrawing.NotWithdrawing?;
  }

  lemma OthersKeepNames(s: Notices, e: Event, p: Pid)
    requires Enabled(false, s, e) && p in s.names && e != PostRename(p) && !e.SweepUnlink? && !Withdraws(e)
    ensures p in Step(s, e).names && Step(s, e).names[p] == s.names[p]
  {
  }

  lemma MeantStaysPosted(s: Notices, e: Event, p: Pid)
    requires CarefulInv(s) && Enabled(true, s, e) && Enabled(false, s, e)
    requires p in Step(s, e).owners && Step(s, e).owners[p].held.Some?
    ensures Shows(Step(s, e), p, Step(s, e).owners[p].held.value)
  {
    if e != PostRename(p) {
      assert p in s.owners && s.owners[p].held == Step(s, e).owners[p].held;
      NameIsLeftAlone(s, e, p);
    }
  }

  lemma CarefulStep(s: Notices, e: Event)
    requires CarefulInv(s) && Enabled(true, s, e) && Enabled(false, s, e) && Keeps(ALL_PROMISED, s, e)
    ensures CarefulInv(Apply(s, e))
  {
    ApplyKeepsInv(s, e);
    OneAtATimeKept(s, e);
    DeadStaysUnlocked(s, e);
    var t := Step(s, e);
    forall p | p in t.owners && p in t.names ensures t.names[p] !in t.dead {
      LeftStaysGone(s, e, p);
    }
    forall a | a in t.sweeps && t.sweeps[a].phase.SameFile? ensures t.sweeps[a].name !in t.owners {
      SweptStaysGone(s, e, a);
    }
    forall p | p in t.owners && t.owners[p].held.Some? ensures Shows(t, p, t.owners[p].held.value) {
      MeantStaysPosted(s, e, p);
    }
  }

  lemma {:induction false} CarefulRunKeepsInv(s: Notices, events: seq<Event>)
    requires CarefulInv(s) && Run(true, s, events) && KeepsThroughout(ALL_PROMISED, s, events)
    ensures CarefulInv(After(true, s, events))
    decreases |events|
  {
    if events != [] {
      CarefulStep(s, events[0]);
      CarefulRunKeepsInv(Apply(s, events[0]), events[1..]);
    }
  }

  /** With posting and withdrawing guarded, no left pid coming back and no
      unlink failing, every notice a live server means to be up is up, through
      every interleaving of sweeps, probes, deaths and other servers. */
  lemma NoNoticeIsLost(events: seq<Event>, p: Pid)
    requires Run(true, NO_NOTICES, events) && KeepsThroughout(ALL_PROMISED, NO_NOTICES, events)
    ensures var s := After(true, NO_NOTICES, events);
            p in s.owners && s.owners[p].held.Some? ==>
              Posted(s, p) && s.names[p] == s.owners[p].held.value && s.exclusive[s.names[p]] == p
  {
    CarefulRunKeepsInv(NO_NOTICES, events);
    var s := After(true, NO_NOTICES, events);
    assert p in s.owners ==> Holds(s, p);
  }
}
