/** Re-entrancy within one process: any number of `HeavyModelLock` objects for
    the same file share one `flock`, counted by the process's registry. */
module HeavyLockRegistry {
  import opened Common

  type Path = string
  type Fd = nat

  datatype Hold = Hold(fd: Fd, count: nat)

  /** One process: its registry, the `flock`s the kernel says it holds, and the
      lock files that carry its details. `locks` is every lock object it made. */
  class Process {
    var holds: map<Path, Hold>
    var flocks: map<Path, Fd>
    var named: set<Path>
    ghost var locks: set<HeavyModelLock>

    constructor ()
      ensures holds == map[] && flocks == map[] && named == {} && locks == {} && Valid()
    {
      holds, flocks, named, locks := map[], map[], {}, {};
    }

    /** The lock objects that are marked held on `path`. */
    ghost function Holders(path: Path): set<HeavyModelLock>
      reads this`locks, locks`held
    {
      set l | l in locks && l.path == path && l.held
    }

    /** A registry entry exists exactly while the process holds the `flock`,
        exactly while some lock object is marked held, and counts those objects. */
    ghost predicate Entry(path: Path)
      reads this, locks
    {
      if path in holds
      then path in flocks && path in named && flocks[path] == holds[path].fd && holds[path].count == |Holders(path)| > 0
      else path !in flocks && Holders(path) == {}
    }

    ghost predicate Valid()
      reads this, locks
    {
      (forall l :: l in locks ==> l.process == this) && forall path :: Entry(path)
    }
  }

  class HeavyModelLock {
    const process: Process
    const path: Path
    var held: bool

    constructor (process: Process, path: Path)
      requires process.Valid()
      modifies process`locks
      ensures this.process == process && this.path == path && !held
      ensures process.Valid() && process.locks == old(process.locks) + {this}
      ensures forall p :: process.Holders(p) == old(process.Holders(p))
    {
      this.process, this.path, this.held := process, path, false;
      new;
      process.locks := process.locks + {this};
      forall p ensures process.Holders(p) == old(process.Holders(p)) && process.Entry(p) {
        assert old(process.Entry(p));
        assert process.Holders(p) == old(process.Holders(p));
      }
    }

    method Mark(now: bool)
      requires this in process.locks && held != now && forall l :: l in process.locks ==> l.process == process
      modifies this`held
      ensures held == now
      ensures process.Holders(path) ==
                if now then old(process.Holders(path)) + {this} else old(process.Holders(path)) - {this}
      ensures |process.Holders(path)| == |old(process.Holders(path))| + if now then 1 else -1
      ensures forall p :: p != path ==> process.Holders(p) == old(process.Holders(p))
    {
      ghost var before := process.Holders(path);
      held := now;
      assert process.Holders(path) == if now then before + {this} else before - {this};
      forall p | p != path ensures process.Holders(p) == old(process.Holders(p)) {}
    }

    /** Counts one more holder of a `flock` this process already has. */
    method Join()
      requires this in process.locks && process.Valid() && !held && path in process.holds
      modifies this`held, process`holds
      ensures process.Valid() && held
      ensures process.Holders(path) == old(process.Holders(path)) + {this}
      ensures forall p :: p != path ==> process.Holders(p) == old(process.Holders(p))
    {
      assert process.Entry(path);
      Mark(true);
      var hold := process.holds[path];
      process.holds := process.holds[path := hold.(count := hold.count + 1)];
      forall p ensures process.Entry(p) {
        assert old(process.Entry(p));
        assert p != path ==> process.Holders(p) == old(process.Holders(p));
      }
    }

    /** Enters the first holder of a newly granted `flock`, with its details written. */
    method Enter(fd: Fd)
      requires this in process.locks && process.Valid() && !held && path !in process.holds
      modifies this`held, process`holds, process`flocks, process`named
      ensures process.Valid() && held
      ensures process.Holders(path) == {this}
      ensures forall p :: p != path ==> process.Holders(p) == old(process.Holders(p))
      ensures process.flocks == old(process.flocks)[path := fd] && process.named == old(process.named) + {path}
    {
      assert process.Entry(path);
      Mark(true);
      process.flocks := process.flocks[path := fd];
      process.named := process.named + {path};
      process.holds := process.holds[path := Hold(fd, 1)];
      forall p ensures process.Entry(p) {
        assert old(process.Entry(p));
        assert p != path ==> process.Holders(p) == old(process.Holders(p));
      }
    }

    /** Idempotent. `granted` is the descriptor on which the kernel grants the
        lock, `None` when it is busy and the command does not wait, or the
        details cannot be written. The kernel is asked only for a lock this
        process does not hold. */
    method Acquire(granted: Option<Fd>) returns (ok: bool)
      requires this in process.locks && process.Valid()
      modifies this`held, process`holds, process`flocks, process`named
      ensures process.Valid() && held == ok
      ensures ok <==> path in old(process.flocks) || granted.Some?
      ensures process.Holders(path) == if ok then old(process.Holders(path)) + {this} else old(process.Holders(path))
      ensures forall p :: p != path ==> process.Holders(p) == old(process.Holders(p))
      ensures process.flocks ==
                if granted.Some? && path !in old(process.flocks)
                then old(process.flocks)[path := granted.value]
                else old(process.flocks)
    {
      assert process.Entry(path);
      if held {
        assert this in process.Holders(path);
        ok := true;
      } else if path in process.holds {
        Join();
        ok := true;
      } else if granted.Some? {
        Enter(granted.value);
        ok := true;
      } else {
        ok := false;
      }
    }

    /** One holder fewer of a `flock` that other objects still hold. */
    method Leave()
      requires this in process.locks && process.Valid() && held
      requires path in process.holds && process.holds[path].count > 1
      modifies this`held, process`holds
      ensures process.Valid() && !held
      ensures process.Holders(path) == old(process.Holders(path)) - {this}
      ensures forall p :: p != path ==> process.Holders(p) == old(process.Holders(p))
    {
      assert process.Entry(path);
      Mark(false);
      var hold := process.holds[path];
      process.holds := process.holds[path := hold.(count := hold.count - 1)];
      forall p ensures process.Entry(p) {
        assert old(process.Entry(p));
        assert p != path ==> process.Holders(p) == old(process.Holders(p));
      }
    }

    /** The last holder blanks the details and drops the `flock`. */
    method Exit(blankFails: bool)
      requires this in process.locks && process.Valid() && held
      requires path in process.holds && process.holds[path].count == 1
      modifies this`held, process`holds, process`flocks, process`named
      ensures process.Valid() && !held
      ensures old(process.Holders(path)) == {this} && process.Holders(path) == {}
      ensures forall p :: p != path ==> process.Holders(p) == old(process.Holders(p))
      ensures process.flocks == old(process.flocks) - {path}
      ensures process.named == if blankFails then old(process.named) else old(process.named) - {path}
    {
      assert process.Entry(path) && this in process.Holders(path);
      OnlyHolder(process.Holders(path), this);
      Mark(false);
      process.holds := process.holds - {path};
      if !blankFails {
        process.named := process.named - {path};
      }
      process.flocks := process.flocks - {path};
      forall p ensures process.Entry(p) {
        assert old(process.Entry(p));
        assert p != path ==> process.Holders(p) == old(process.Holders(p));
      }
    }

    /** Idempotent. The last object to let go blanks the details and drops the
        `flock`; any other changes only the count. */
    method Release(blankFails: bool)
      requires this in process.locks && process.Valid()
      modifies this`held, process`holds, process`flocks, process`named
      ensures process.Valid() && !held
      ensures process.Holders(path) == old(process.Holders(path)) - {this}
      ensures forall p :: p != path ==> process.Holders(p) == old(process.Holders(p))
      ensures process.flocks ==
                if old(process.Holders(path)) == {this} then old(process.flocks) - {path} else old(process.flocks)
      ensures process.named ==
                if old(process.Holders(path)) == {this} && !blankFails
                then old(process.named) - {path}
                else old(process.named)
    {
      assert process.Entry(path);
      if !held {
        return;
      }
      assert this in process.Holders(path);
      if process.holds[path].count - 1 > 0 {
        Leave();
      } else {
        Exit(blankFails);
      }
    }
  }

  lemma OnlyHolder(holders: set<HeavyModelLock>, lock: HeavyModelLock)
    requires lock in holders && |holders| == 1
    ensures holders == {lock}
  {
    assert |holders - {lock}| == 0;
  }

  datatype Call = Acquire(lock: HeavyModelLock, granted: Option<Fd>) | Release(lock: HeavyModelLock, blankFails: bool)

  /** Any sequence of calls on any of a process's lock objects keeps the
      registry true; a path is locked at the end exactly if some object is
      still marked held on it. */
  method RunCalls(process: Process, calls: seq<Call>)
    requires process.Valid() && forall k :: 0 <= k < |calls| ==> calls[k].lock in process.locks
    modifies process`holds, process`flocks, process`named, process.locks
    ensures process.Valid() && process.locks == old(process.locks)
    ensures forall path :: path in process.flocks <==> process.Holders(path) != {}
  {
    for i := 0 to |calls|
      invariant process.Valid() && process.locks == old(process.locks)
    {
      match calls[i]
      case Acquire(lock, granted) => var _ := lock.Acquire(granted);
      case Release(lock, blankFails) => lock.Release(blankFails);
    }
    forall path ensures path in process.flocks <==> process.Holders(path) != {} {
      assert process.Entry(path);
    }
  }
}
