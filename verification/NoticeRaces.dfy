/** When a live server's notice can be lost: each of the three promises of
    `NoticeSafety.NoNoticeIsLost` is needed, and together they are enough. */
module NoticeRaces {
  import opened Common
  import opened NoticeFiles
  import opened NoticeSafety

  /** Some run from an empty directory that keeps these promises gets here. */
  ghost predicate Reachable(promised: Promises, s: Notices) {
    exists events :: Gets(promised, events, s)
  }

  ghost predicate Gets(promised: Promises, events: seq<Event>, s: Notices) {
    && Run(promised.guarded, NO_NOTICES, events) && KeepsThroughout(promised, NO_NOTICES, events)
    && After(promised.guarded, NO_NOTICES, events) == s
  }

  /** `p` means a notice to be up, and no reader can see it. */
  predicate Lost(s: Notices, p: Pid) {
    p in s.owners && s.owners[p].held.Some? && !Posted(s, p)
  }

  lemma StartIsReachable(promised: Promises)
    ensures Reachable(promised, NO_NOTICES)
  {
    assert Gets(promised, [], NO_NOTICES);
  }

  lemma {:induction false} KeepsSnoc(promised: Promises, s: Notices, events: seq<Event>, e: Event)
    requires Run(promised.guarded, s, events) && KeepsThroughout(promised, s, events)
    requires Enabled(promised.guarded, After(promised.guarded, s, events), e)
    requires Enabled(false, After(promised.guarded, s, events), e)
               && Keeps(promised, After(promised.guarded, s, events), e)
    ensures Run(promised.guarded, s, events + [e]) && KeepsThroughout(promised, s, events + [e])
    decreases |events|
  {
    RunSnoc(promised.guarded, s, events, e);
    if events == [] {
      assert KeepsThroughout(promised, Apply(s, e), []);
    } else {
      assert (events + [e])[1..] == events[1..] + [e];
      KeepsSnoc(promised, Apply(s, events[0]), events[1..], e);
    }
  }

  lemma Reach(promised: Promises, s: Notices, e: Event, s': Notices)
    requires Reachable(promised, s)
    requires Enabled(promised.guarded, s, e) && Enabled(false, s, e) && Keeps(promised, s, e) && Apply(s, e) == s'
    ensures Reachable(promised, s')
  {
    var events :| Gets(promised, events, s);
    RunSnoc(promised.guarded, NO_NOTICES, events, e);
    KeepsSnoc(promised, NO_NOTICES, events, e);
    assert Gets(promised, events + [e], s');
  }

  lemma ReachableIsSound(promised: Promises, s: Notices)
    requires Reachable(promised, s)
    ensures Inv(s)
  {
    var events :| Gets(promised, events, s);
    EveryRunKeepsInv(promised.guarded, NO_NOTICES, events);
  }

  // --------------------------------------------- a file under one's own pid

  const IDLE := Owner(None, NotPosting, NotWithdrawing)

  /** `p`'s notice is up, and no thread of it is posting or withdrawing. */
  predicate Up(s: Notices, p: Pid) {
    MeantUp(s, p) && s.owners[p].posting.NotPosting? && s.owners[p].withdrawing.NotWithdrawing?
  }

  /** `p` runs, with no notice of its own, and a file of its pid is there that
      nobody has locked. */
  predicate LeftUnder(s: Notices, p: Pid) {
    p in s.owners && s.owners[p] == IDLE && p in s.names && s.names[p] !in s.exclusive
  }

  /** A server dies with its notice up, and a new process has its pid. */
  lemma PidComesBack(promised: Promises, s: Notices, p: Pid) returns (s': Notices)
    requires Reachable(promised, s) && !promised.freshPids && Up(s, p)
    ensures Reachable(promised, s') && LeftUnder(s', p) && s.owners.Keys <= s'.owners.Keys
  {
    ReachableIsSound(promised, s);
    assert Holds(s, p);
    var s1 := Apply(s, Die(p));
    Reach(promised, s, Die(p), s1);
    s' := Apply(s1, Spawn(p));
    Reach(promised, s1, Spawn(p), s');
  }

  /** A server withdraws its notice, and the filesystem keeps the file. */
  lemma UnlinkFails(promised: Promises, s: Notices, p: Pid) returns (s': Notices)
    requires Reachable(promised, s) && !promised.unlinks && Up(s, p)
    ensures Reachable(promised, s') && LeftUnder(s', p) && s.owners.Keys <= s'.owners.Keys
  {
    var i := s.names[p];
    s' := ThreadClears(promised, s, p);
    s' := ThreadCompares(promised, s', p, i);
    var s1 := Apply(s', WithdrawUnlink(p, true));
    Reach(promised, s', WithdrawUnlink(p, true), s1);
    s' := Apply(s1, WithdrawClose(p));
    Reach(promised, s1, WithdrawClose(p), s');
  }

  // ------------------------------------------ swept while its server posts again

  /** The sweep `a` has come to `phase` at the file left under `p`'s pid. */
  predicate Sweeping(s: Notices, p: Pid, a: AgentId, phase: SweepPhase, posting: Posting) {
    && p in s.owners && s.owners[p] == IDLE.(posting := posting)
    && a in s.sweeps && s.sweeps[a].name == p && s.sweeps[a].phase == phase
    && Shows(s, p, s.sweeps[a].inode) && s.sweeps[a].inode !in s.exclusive
  }

  lemma SweepOpens(promised: Promises, s: Notices, p: Pid, w: Pid, a: AgentId) returns (s': Notices)
    requires Reachable(promised, s) && LeftUnder(s, p) && w in s.owners && w != p && a !in s.sweeps
    ensures Reachable(promised, s') && Sweeping(s', p, a, Opened, NotPosting) && s'.maker == s.maker
  {
    s' := Apply(s, SweepOpen(a, w, p));
    Reach(promised, s, SweepOpen(a, w, p), s');
  }

  lemma SweepLocks(promised: Promises, s: Notices, p: Pid, a: AgentId) returns (s': Notices)
    requires Reachable(promised, s) && Sweeping(s, p, a, Opened, NotPosting)
    ensures Reachable(promised, s') && Sweeping(s', p, a, Shared, NotPosting) && s'.maker == s.maker
  {
    s' := Apply(s, SweepLock(a));
    Reach(promised, s, SweepLock(a), s');
  }

  lemma SweepCompares(promised: Promises, s: Notices, p: Pid, a: AgentId) returns (s': Notices)
    requires Reachable(promised, s) && Sweeping(s, p, a, Shared, NotPosting)
    ensures Reachable(promised, s') && Sweeping(s', p, a, SameFile, NotPosting) && s'.maker == s.maker
  {
    s' := Apply(s, SweepCompare(a));
    Reach(promised, s, SweepCompare(a), s');
  }

  lemma ServerPostsAgain(promised: Promises, s: Notices, p: Pid, a: AgentId, j: Inode) returns (s': Notices)
    requires Reachable(promised, s) && Sweeping(s, p, a, SameFile, NotPosting) && j !in s.maker
    ensures Reachable(promised, s') && Sweeping(s', p, a, SameFile, NoticeFiles.Locked(j))
  {
    var s1 := Apply(s, PostCreate(p, j));
    Reach(promised, s, PostCreate(p, j), s1);
    ReachableIsSound(promised, s1);
    PosterIsNeverRefused(s1, p);
    s' := Apply(s1, PostLock(p));
    ReachableIsSound(promised, s);
    Reach(promised, s1, PostLock(p), s');
  }

  /** From every reachable state in which a file is left under a running
      server's own pid, whatever else goes on, any other process's sweep can
      take down the notice the server posts next. */
  lemma SweepLosesALiveNotice(promised: Promises, s: Notices, p: Pid, w: Pid, a: AgentId, j: Inode)
      returns (s': Notices)
    requires Reachable(promised, s) && LeftUnder(s, p)
    requires w in s.owners && w != p && a !in s.sweeps && j !in s.maker
    ensures Reachable(promised, s') && Lost(s', p)
  {
    s' := SweepOpens(promised, s, p, w, a);
    s' := SweepLocks(promised, s', p, a);
    s' := SweepCompares(promised, s', p, a);
    s' := ServerPostsAgain(promised, s', p, a, j);
    ReachableIsSound(promised, s');
    SweepTakesDownTheRenamed(s', a);
    var s1 := Apply(s', PostRename(p));
    Reach(promised, s', PostRename(p), s1);
    s' := Apply(s1, SweepUnlink(a, false));
    Reach(promised, s1, SweepUnlink(a, false), s');
  }

  // ------------------------------ withdrawing and posting on two threads at once

  /** One thread of `p` is withdrawing the notice `i`, which is visible. */
  predicate Taking(s: Notices, p: Pid, i: Inode, posting: Posting, withdrawing: Withdrawing) {
    p in s.owners && s.owners[p] == Owner(None, posting, withdrawing) && Shows(s, p, i)
  }

  lemma ThreadClears(promised: Promises, s: Notices, p: Pid) returns (s': Notices)
    requires Reachable(promised, s) && Up(s, p)
    ensures Reachable(promised, s') && s'.maker == s.maker && s.owners.Keys <= s'.owners.Keys
    ensures Taking(s', p, s.names[p], NotPosting, Cleared(s.names[p]))
  {
    s' := Apply(s, WithdrawClear(p));
    Reach(promised, s, WithdrawClear(p), s');
  }

  lemma ThreadCompares(promised: Promises, s: Notices, p: Pid, i: Inode) returns (s': Notices)
    requires Reachable(promised, s) && Taking(s, p, i, NotPosting, Cleared(i))
    ensures Reachable(promised, s') && s'.maker == s.maker && s.owners.Keys <= s'.owners.Keys
    ensures Taking(s', p, i, NotPosting, Compared(i, true, false))
  {
    s' := Apply(s, WithdrawCompare(p));
    Reach(promised, s, WithdrawCompare(p), s');
  }

  lemma OtherThreadMakes(promised: Promises, s: Notices, p: Pid, i: Inode, j: Inode) returns (s': Notices)
    requires Reachable(promised, s) && !promised.guarded && Taking(s, p, i, NotPosting, Compared(i, true, false))
               && j !in s.maker
    ensures Reachable(promised, s') && Taking(s', p, i, Created(j), Compared(i, true, false))
  {
    s' := Apply(s, PostCreate(p, j));
    Reach(promised, s, PostCreate(p, j), s');
  }

  lemma OtherThreadLocks(promised: Promises, s: Notices, p: Pid, i: Inode, j: Inode) returns (s': Notices)
    requires Reachable(promised, s) && Taking(s, p, i, Created(j), Compared(i, true, false))
    ensures Reachable(promised, s') && Taking(s', p, i, NoticeFiles.Locked(j), Compared(i, true, false))
  {
    ReachableIsSound(promised, s);
    PosterIsNeverRefused(s, p);
    s' := Apply(s, PostLock(p));
    Reach(promised, s, PostLock(p), s');
  }

  /** `post` and `withdraw` of one notice are not safe from any two threads:
      from every reachable state with a server's notice up, whatever else goes
      on, there is a run in which one thread's withdrawal takes down the notice
      another thread has just posted. */
  lemma WithdrawalLosesANewNotice(promised: Promises, s: Notices, p: Pid, j: Inode) returns (s': Notices)
    requires Reachable(promised, s) && !promised.guarded && Up(s, p) && j !in s.maker
    ensures Reachable(promised, s') && Lost(s', p) && s'.owners[p].held == Some(j)
  {
    var i := s.names[p];
    s' := ThreadClears(promised, s, p);
    s' := ThreadCompares(promised, s', p, i);
    s' := OtherThreadMakes(promised, s', p, i, j);
    s' := OtherThreadLocks(promised, s', p, i, j);
    ReachableIsSound(promised, s');
    WithdrawalTakesDownTheRenamed(s', p);
    var s1 := Apply(s', PostRename(p));
    Reach(promised, s', PostRename(p), s1);
    s' := Apply(s1, WithdrawUnlink(p, false));
    Reach(promised, s1, WithdrawUnlink(p, false), s');
  }

  // ------------------------------------------------------------ all three needed

  /** `p` runs and is making its notice. */
  predicate Making(s: Notices, p: Pid, posting: Posting) {
    p in s.owners && s.owners[p] == IDLE.(posting := posting)
  }

  lemma ServerMakes(promised: Promises, s: Notices, p: Pid, j: Inode) returns (s': Notices)
    requires Reachable(promised, s) && Making(s, p, NotPosting) && j !in s.maker
    ensures Reachable(promised, s') && Making(s', p, Created(j)) && s.owners.Keys <= s'.owners.Keys
  {
    s' := Apply(s, PostCreate(p, j));
    Reach(promised, s, PostCreate(p, j), s');
  }

  lemma ServerLocks(promised: Promises, s: Notices, p: Pid, j: Inode) returns (s': Notices)
    requires Reachable(promised, s) && Making(s, p, Created(j))
    ensures Reachable(promised, s') && Making(s', p, NoticeFiles.Locked(j)) && s.owners.Keys <= s'.owners.Keys
  {
    ReachableIsSound(promised, s);
    PosterIsNeverRefused(s, p);
    s' := Apply(s, PostLock(p));
    Reach(promised, s, PostLock(p), s');
  }

  lemma ServerRenames(promised: Promises, s: Notices, p: Pid, j: Inode) returns (s': Notices)
    requires Reachable(promised, s) && Making(s, p, NoticeFiles.Locked(j))
    ensures Reachable(promised, s') && Up(s', p) && s.owners.Keys <= s'.owners.Keys
  {
    s' := Apply(s, PostRename(p));
    Reach(promised, s, PostRename(p), s');
  }

  lemma Starts(promised: Promises, s: Notices, p: Pid) returns (s': Notices)
    requires Reachable(promised, s) && p !in s.owners && s.names == map[] && s.sweeps == map[]
    ensures Reachable(promised, s') && s'.owners == s.owners[p := IDLE] && s'.names == map[] && s'.sweeps == map[]
  {
    s' := Apply(s, Spawn(p));
    Reach(promised, s, Spawn(p), s');
  }

  /** Two processes start, and the first posts its notice. */
  lemma TwoStart(promised: Promises) returns (s: Notices)
    ensures Reachable(promised, s) && Up(s, 1) && 2 in s.owners
  {
    StartIsReachable(promised);
    s := Starts(promised, NO_NOTICES, 1);
    s := Starts(promised, s, 2);
    var j := Unused(s.maker.Keys);
    s := ServerMakes(promised, s, 1, j);
    s := ServerLocks(promised, s, 1, j);
    s := ServerRenames(promised, s, 1, j);
  }

  /** Whichever promise is missing, a notice can be lost. */
  lemma SomethingIsLost(promised: Promises) returns (s: Notices)
    requires promised != ALL_PROMISED
    ensures Reachable(promised, s) && Lost(s, 1)
  {
    s := TwoStart(promised);
    if !promised.guarded {
      var j := Unused(s.maker.Keys);
      s := WithdrawalLosesANewNotice(promised, s, 1, j);
    } else {
      if !promised.freshPids {
        s := PidComesBack(promised, s, 1);
      } else {
        s := UnlinkFails(promised, s, 1);
      }
      var a := Unused(s.sweeps.Keys);
      var j := Unused(s.maker.Keys);
      s := SweepLosesALiveNotice(promised, s, 1, 2, a, j);
    }
  }

  /** No notice that a live server means to be up is ever lost if and only if
      all three promises are kept: posting and withdrawing exclude each other,
      no left pid comes back, and no withdrawal fails to unlink. */
  lemma NothingIsLostExactlyWhen(promised: Promises)
    ensures (forall s, p :: Reachable(promised, s) ==> !Lost(s, p)) <==> promised == ALL_PROMISED
  {
    if promised == ALL_PROMISED {
      forall s, p | Reachable(promised, s) ensures !Lost(s, p) {
        var events :| Gets(promised, events, s);
        NoNoticeIsLost(events, p);
      }
    } else {
      var s := SomethingIsLost(promised);
    }
  }
}
