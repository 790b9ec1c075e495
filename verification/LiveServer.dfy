/** One live server's objects, run without interference: its notice in the
    notices directory, and the admission that decides when the notice is up.
    What other processes may do in between is `NoticeFiles` and
    `AdmissionProtocol`; the methods here keep to the same step functions. */
module LiveServer {
  import opened Common
  import opened MemoryAdmission
  import P = AdmissionProtocol

  type Inode = nat

  /** `<data_root>/run/live-servers-waiting`: the visible notices, and who holds
      the exclusive lock of which file. */
  class NoticesDirectory {
    var names: map<Pid, Inode>
    var exclusive: map<Inode, Pid>

    constructor ()
      ensures names == map[] && exclusive == map[]
    {
      names, exclusive := map[], map[];
    }

    predicate Posted(p: Pid)
      reads this
    {
      p in names && names[p] in exclusive
    }

    /** Every live server whose notice is posted, in pid order. */
    method WaitingLiveServers(listing: seq<Pid>) returns (found: seq<Pid>)
      requires forall i, j :: 0 <= i < j < |listing| ==> listing[i] < listing[j]
      requires forall p :: p in listing <==> p in names
      ensures forall p :: p in found <==> Posted(p)
      ensures forall i, j :: 0 <= i < j < |found| ==> found[i] < found[j]
    {
      found := [];
      for i := 0 to |listing|
        invariant forall p :: p in found <==> p in listing[..i] && Posted(p)
        invariant forall k, j :: 0 <= k < j < |found| ==> found[k] < found[j]
        invariant forall k :: 0 <= k < |found| && i < |listing| ==> found[k] < listing[i]
      {
        if names[listing[i]] in exclusive {
          found := found + [listing[i]];
        }
      }
    }

    /** Removes the notices nobody holds, but `own` and those the filesystem
        will not remove. */
    method SweepStale(listing: seq<Pid>, own: Pid, unremovable: set<Pid>)
      requires forall i, j :: 0 <= i < j < |listing| ==> listing[i] != listing[j]
      requires forall p :: p in listing <==> p in names
      modifies this`names
      ensures forall p :: p in names ==> p in old(names) && names[p] == old(names)[p]
      ensures forall p :: p in old(names) ==>
                (p in names <==> old(names)[p] in exclusive || p == own || p in unremovable)
    {
      for i := 0 to |listing|
        invariant forall p :: p in names ==> p in old(names) && names[p] == old(names)[p]
        invariant forall p :: p in old(names) && p !in listing[..i] ==> p in names
        invariant forall p :: p in listing[..i] ==>
                    (p in names <==> old(names)[p] in exclusive || p == own || p in unremovable)
      {
        var p := listing[i];
        assert p !in listing[..i];
        if p != own && names[p] !in exclusive && p !in unremovable {
          names := names - {p};
        }
      }
    }
  }

  /** This process's notice. */
  class LiveServerNotice {
    const directory: NoticesDirectory
    const pid: Pid
    var fd: Option<Inode>
    var postedAt: Option<int>

    /** The notice is up exactly while this process has it open. */
    ghost predicate Valid()
      reads this, directory
    {
      && (fd.Some? <==> postedAt.Some?)
      && (fd.Some? ==> pid in directory.names && directory.names[pid] == fd.value
                       && fd.value in directory.exclusive && directory.exclusive[fd.value] == pid)
    }

    constructor (directory: NoticesDirectory, pid: Pid)
      ensures this.directory == directory && this.pid == pid && fd == None && postedAt == None && Valid()
    {
      this.directory, this.pid, this.fd, this.postedAt := directory, pid, None, None;
    }

    /** Posts the notice if it is not up. `inode` is the temporary file the
        system makes; `fails` is any error after the sweep, which removes it. */
    method Post(now: int, listing: seq<Pid>, unremovable: set<Pid>, inode: Inode, fails: bool) returns (ok: bool)
      requires Valid()
      requires forall i, j :: 0 <= i < j < |listing| ==> listing[i] != listing[j]
      requires forall p :: p in listing <==> p in directory.names
      requires inode !in directory.exclusive
      modifies this, directory
      ensures Valid()
      ensures ok <==> old(fd).Some? || !fails
      ensures postedAt == if old(postedAt).Some? then old(postedAt) else if fails then None else Some(now)
      ensures old(fd).Some? ==> unchanged(this) && unchanged(directory)
      ensures directory.exclusive ==
                if ok && old(fd) == None then old(directory.exclusive)[inode := pid] else old(directory.exclusive)
      ensures forall p :: p != pid && p in old(directory.names) && old(directory.names)[p] in old(directory.exclusive)
                ==> p in directory.names && directory.names[p] == old(directory.names)[p]
    {
      if fd.Some? {
        return true;
      }
      directory.SweepStale(listing, pid, unremovable);
      if fails {
        return false;
      }
      directory.exclusive := directory.exclusive[inode := pid];
      directory.names := directory.names[pid := inode];
      fd, postedAt := Some(inode), Some(now);
      ok := true;
    }

    /** Takes the notice down, the file first and then its lock. */
    method Withdraw(unlinkFails: bool)
      requires Valid()
      modifies this, directory
      ensures Valid() && postedAt == None
      ensures if old(fd).Some? then !directory.Posted(pid) else unchanged(this) && unchanged(directory)
      ensures directory.names ==
                if old(fd) == None || unlinkFails then old(directory.names) else old(directory.names) - {pid}
      ensures directory.exclusive ==
                if old(fd) == None then old(directory.exclusive) else old(directory.exclusive) - {old(fd).value}
    {
      if fd == None {
        return;
      }
      var held := fd.value;
      fd, postedAt := None, None;
      if pid in directory.names && directory.names[pid] == held && !unlinkFails {
        directory.names := directory.names - {pid};
      }
      directory.exclusive := directory.exclusive - {held};
    }

    /** Seconds (here milliseconds) since the notice went up. */
    function PostedFor(now: int): (r: Option<int>)
      reads this
      ensures r.Some? <==> postedAt.Some?
      ensures r.Some? ==> r.value >= 0 && (now >= postedAt.value ==> postedAt.value + r.value == now)
    {
      if postedAt == None then None else Some(Max(0, now - postedAt.value))
    }
  }

  /** What the filesystem does to one post. */
  datatype Filesystem = Filesystem(listing: seq<Pid>, unremovable: set<Pid>, inode: Inode, fails: bool)

  class LiveServerAdmission {
    const admission: Admission
    const notice: LiveServerNotice
    const yield': int
    const lapse: int
    var cause: Option<P.Cause>
    var lastRefusalAt: Option<int>

    /** The protocol's view of this server. */
    function View(): P.Server
      reads this, notice
    {
      P.Server(cause, lastRefusalAt, notice.postedAt)
    }

    ghost predicate Valid()
      reads this, notice, notice.directory
    {
      notice.Valid() && notice.pid == admission.pid && admission.live
    }

    ghost predicate Serves(fs: Filesystem)
      reads notice, notice.directory
    {
      && (forall i, j :: 0 <= i < j < |fs.listing| ==> fs.listing[i] != fs.listing[j])
      && (forall p :: p in fs.listing <==> p in notice.directory.names)
      && fs.inode !in notice.directory.exclusive
    }

    constructor (admission: Admission, notice: LiveServerNotice, yield': int, lapse: int)
      requires notice.Valid() && notice.pid == admission.pid && admission.live && notice.postedAt == None
      requires yield' >= 0
      ensures this.admission == admission && this.notice == notice && this.yield' == yield' && this.lapse == lapse
      ensures Valid() && View() == P.IDLE_SERVER
    {
      this.admission, this.notice, this.yield', this.lapse := admission, notice, yield', lapse;
      this.cause, this.lastRefusalAt := None, None;
    }

    method BackgroundPromisesCount(now: int) returns (counts: bool)
      ensures counts <==> yield' > 0 && (notice.postedAt == None || now - notice.postedAt.value < yield')
      ensures counts == P.PromisesCount(View(), now, yield')
    {
      if yield' <= 0 {
        return false;
      }
      var waited := notice.PostedFor(now);
      counts := waited == None || waited.value < yield';
    }

    method Post(why: P.Cause, now: int, fs: Filesystem)
      requires Valid() && Serves(fs)
      modifies this, notice, notice.directory
      ensures Valid() && View() == P.Post(old(View()), why, now, !fs.fails)
    {
      cause := Some(why);
      var _ := notice.Post(now, fs.listing, fs.unremovable, fs.inode, fs.fails);
    }

    method Withdraw(unlinkFails: bool)
      requires Valid()
      modifies this, notice, notice.directory
      ensures Valid() && View() == P.Withdraw(old(View()))
    {
      cause, lastRefusalAt := None, None;
      notice.Withdraw(unlinkFails);
    }

    /** What the check does with its decision before it lets the admission lock go. */
    method Settle(decision: Decision, now: int, fs: Filesystem, unlinkFails: bool)
      requires Valid() && Serves(fs)
      modifies this, notice, notice.directory
      ensures Valid() && View() == P.Settle(old(View()), decision, now, !fs.fails)
    {
      if decision.admitted && decision.setAside != [] {
        Post(P.PastBackground, now, fs);
      } else if decision.admitted {
        Withdraw(unlinkFails);
      } else {
        lastRefusalAt := Some(now);
        Post(P.Waiting, now, fs);
      }
    }

    /** The warm-up's admission. A check that could not measure settles nothing. */
    method Check(begun: int, measured: Option<HostMemory>, listing: seq<FileName>, running: set<Pid>,
                 held: map<Pid, nat>, stuck: set<FileName>, writeFails: bool, now: int, fs: Filesystem,
                 unlinkFails: bool)
      returns (decision: Decision)
      requires Valid() && Serves(fs)
      requires forall i, j :: 0 <= i < j < |listing| ==> listing[i] != listing[j]
      requires forall n :: n in listing <==> n in admission.book.files
      modifies this, notice, notice.directory, admission.book
      ensures Valid()
      ensures var posted := old(notice.postedAt);
              var asked := admission.Asked(yield' > 0 && (posted == None || begun - posted.value < yield'),
                             if measured.Some? then measured.value else HostMemory(0, 0, 0, Critical),
                             SeenOthers(old(admission.book.files), listing, admission.pid, running, held), Some([]));
              if measured.Some? && !(writeFails && asked.admitted)
              then decision == asked && View() == P.Settle(old(View()), decision, now, !fs.fails)
              else decision == Refused() && View() == old(View())
      ensures decision.admitted ==>
                && PidFile(admission.pid) in admission.book.files
                && admission.book.files[PidFile(admission.pid)]
                   == Some(Reservation(admission.pid, admission.role, admission.required, Some(admission.live)))
      ensures forall n :: n in admission.book.files && !(decision.admitted && n == PidFile(admission.pid)) ==>
                n in old(admission.book.files) && admission.book.files[n] == old(admission.book.files)[n]
      ensures forall n :: n in old(admission.book.files) && !Stale(old(admission.book.files)[n], admission.pid, running)
                ==> n in admission.book.files
    {
      var counting := BackgroundPromisesCount(begun);
      var settled;
      decision, settled := admission.Check(counting, measured, listing, running, held, stuck, Some([]), writeFails);
      if settled {
        Settle(decision, now, fs, unlinkFails);
      }
    }

    method Release(removeFails: bool, unlinkFails: bool)
      requires Valid()
      modifies this, notice, notice.directory, admission.book
      ensures Valid() && View() == P.Withdraw(old(View()))
      ensures admission.book.files ==
                if removeFails then old(admission.book.files) else old(admission.book.files) - {PidFile(admission.pid)}
    {
      admission.book.Remove(admission.pid, removeFails);
      Withdraw(unlinkFails);
    }

    method ReleaseForReload(removeFails: bool, now: int, fs: Filesystem)
      requires Valid() && Serves(fs)
      modifies this, notice, notice.directory, admission.book
      ensures Valid() && View() == P.Post(old(View()), P.ReloadPending, now, !fs.fails)
      ensures admission.book.files ==
                if removeFails then old(admission.book.files) else old(admission.book.files) - {PidFile(admission.pid)}
    {
      admission.book.Remove(admission.pid, removeFails);
      Post(P.ReloadPending, now, fs);
    }

    /** The watchdog's tick; `reservations` is `None` when the directory could
        not be read. */
    method Tick(now: int, reservations: Option<seq<Reservation>>, running: set<Pid>, unlinkFails: bool)
      requires Valid()
      modifies this, notice, notice.directory
      ensures Valid()
      ensures View() == P.Tick(old(View()), now, lapse,
                reservations == None
                || exists r :: r in reservations.value && r.pid in running && r.pid != admission.pid && !r.IsLive())
    {
      if cause == Some(P.Waiting) {
        if lastRefusalAt.Some? && now - lastRefusalAt.value >= lapse {
          Withdraw(unlinkFails);
        }
      } else if cause == Some(P.PastBackground) {
        var backgroundRunning := reservations == None;
        if reservations.Some? {
          for i := 0 to |reservations.value|
            invariant backgroundRunning <==>
              exists r :: r in reservations.value[..i] && r.pid in running && r.pid != admission.pid && !r.IsLive()
          {
            var r := reservations.value[i];
            if r.pid in running && r.pid != admission.pid && !r.IsLive() {
              backgroundRunning := true;
              assert r in reservations.value[..i + 1];
            }
          }
        }
        if !backgroundRunning {
          Withdraw(unlinkFails);
        }
      }
    }
  }
}
