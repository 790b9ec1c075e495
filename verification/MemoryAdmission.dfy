/** The admission rule, the reservations it counts, and the reservation files
    under `<data_root>/run/memory-reservations`. */
module MemoryAdmission {
  import opened Common

  type Pid = nat

  datatype Pressure = Normal | Warn | Critical {
    function Severity(): nat {
      match this
      case Normal => 0
      case Warn => 1
      case Critical => 2
    }
  }

  datatype HostMemory = HostMemory(freeBytes: int, inactiveBytes: int, speculativeBytes: int, pressure: Pressure) {
    function Available(): int {
      freeBytes + inactiveBytes + speculativeBytes
    }
  }

  /** `OtherRole` is any role name this build does not know, read from a file. */
  datatype Role = PublicServer | LocalServer | Embed | Enrich | Segment | OtherRole(name: string) {
    predicate Live() {
      PublicServer? || LocalServer?
    }
  }

  /** `live` is `None` in a file older than that field. */
  datatype Reservation = Reservation(pid: Pid, role: Role, reserved: int, live: Option<bool>) {
    predicate IsLive() {
      match live
      case Some(l) => l
      case None => role.Live()
    }
  }

  /** Another running process's reservation as one check saw it; `held` is
      `None` when its footprint could not be read. */
  datatype OtherReservation = OtherReservation(reservation: Reservation, held: Option<nat>) {
    function Promised(): nat {
      Max(0, reservation.reserved - match held case Some(b) => b case None => 0)
    }
  }

  function SumPromised(others: seq<OtherReservation>): nat {
    if others == [] then 0 else SumPromised(others[..|others| - 1]) + others[|others| - 1].Promised()
  }

  datatype RefusalCause = PressureTooHigh | NotEnoughMemory | LiveServerWaiting | Unmeasured

  datatype Decision = Decision(
    admitted: bool,
    cause: Option<RefusalCause>,
    counted: seq<OtherReservation>,
    setAside: seq<OtherReservation>,
    waiting: seq<Pid>)

  // ---------------------------------------------------------------- the rule

  function Decide(memory: HostMemory, required: int, reserve: int, maxPressure: Pressure, promised: int,
                  counted: seq<OtherReservation>, setAside: seq<OtherReservation>, waiting: seq<Pid>): Decision {
    if memory.pressure.Severity() > maxPressure.Severity() || memory.pressure == Critical then
      Decision(false, Some(PressureTooHigh), counted, setAside, waiting)
    else if waiting != [] then
      Decision(false, Some(LiveServerWaiting), counted, setAside, waiting)
    else if memory.Available() - promised < required + reserve then
      Decision(false, Some(NotEnoughMemory), counted, setAside, waiting)
    else
      Decision(true, None, counted, setAside, waiting)
  }

  function Refused(): Decision {
    Decision(false, Some(Unmeasured), [], [], [])
  }

  predicate Counts(live: bool, countBackground: bool, o: OtherReservation) {
    !live || countBackground || o.reservation.IsLive() || o.Promised() == 0
  }

  /** The reservations whose promises count against the load. */
  function Counted(live: bool, countBackground: bool, others: seq<OtherReservation>): seq<OtherReservation> {
    if others == [] then []
    else
      var last := others[|others| - 1];
      var before := Counted(live, countBackground, others[..|others| - 1]);
      if Counts(live, countBackground, last) then before + [last] else before
  }

  /** The rest, as the source writes it: whatever is not in the counted list. */
  function NotIn(others: seq<OtherReservation>, counted: seq<OtherReservation>): seq<OtherReservation> {
    if others == [] then []
    else
      var last := others[|others| - 1];
      var before := NotIn(others[..|others| - 1], counted);
      if last in counted then before else before + [last]
  }

  /** One measured check's decision. */
  function CheckDecision(live: bool, countBackground: bool, memory: HostMemory, required: int, reserve: int,
                         maxPressure: Pressure, others: seq<OtherReservation>, waiting: seq<Pid>): Decision {
    var counted := Counted(live, countBackground, others);
    var setAside := if live then NotIn(others, counted) else [];
    Decide(memory, required, reserve, maxPressure, SumPromised(counted), counted, setAside,
           if live then [] else waiting)
  }

  // ------------------------------------------------- what the rule guarantees

  lemma {:induction false} CountedContains(live: bool, countBackground: bool, others: seq<OtherReservation>,
                                           o: OtherReservation)
    ensures o in Counted(live, countBackground, others) <==> o in others && Counts(live, countBackground, o)
  {
    if others != [] {
      CountedContains(live, countBackground, others[..|others| - 1], o);
      assert others == others[..|others| - 1] + [others[|others| - 1]];
    }
  }

  lemma SumAppend(others: seq<OtherReservation>, o: OtherReservation)
    ensures SumPromised(others + [o]) == SumPromised(others) + o.Promised()
  {
    assert (others + [o])[..|others|] == others;
  }

  lemma {:induction false} NotInContains(others: seq<OtherReservation>, counted: seq<OtherReservation>,
                                         o: OtherReservation)
    ensures o in NotIn(others, counted) <==> o in others && o !in counted
  {
    if others != [] {
      NotInContains(others[..|others| - 1], counted, o);
      assert others == others[..|others| - 1] + [others[|others| - 1]];
    }
  }

  lemma {:induction false} NotInSum(live: bool, countBackground: bool, others: seq<OtherReservation>,
                                    all: seq<OtherReservation>)
    requires others <= all
    ensures SumPromised(Counted(live, countBackground, others))
              + SumPromised(NotIn(others, Counted(live, countBackground, all)))
         == SumPromised(others)
  {
    if others != [] {
      var init, last := others[..|others| - 1], others[|others| - 1];
      NotInSum(live, countBackground, init, all);
      CountedContains(live, countBackground, all, last);
      assert last == all[|others| - 1];
      SumAppend(Counted(live, countBackground, init), last);
      SumAppend(NotIn(init, Counted(live, countBackground, all)), last);
    }
  }

  /** Every promise a check saw either counts against the load or is set
      aside, never both and never neither. */
  lemma EveryPromiseCountsOrIsSetAside(live: bool, countBackground: bool, memory: HostMemory, required: int,
                                       reserve: int, maxPressure: Pressure, others: seq<OtherReservation>,
                                       waiting: seq<Pid>)
    ensures var d := CheckDecision(live, countBackground, memory, required, reserve, maxPressure, others, waiting);
            SumPromised(d.counted) + SumPromised(d.setAside) == SumPromised(others)
  {
    if live {
      NotInSum(live, countBackground, others, others);
    } else {
      AllCounted(countBackground, others);
    }
  }

  /** What is set aside is exactly the untaken promises of background jobs,
      and only a live load past the yield time sets anything aside. */
  lemma SetAsideExactly(live: bool, countBackground: bool, memory: HostMemory, required: int, reserve: int,
                        maxPressure: Pressure, others: seq<OtherReservation>, waiting: seq<Pid>, o: OtherReservation)
    ensures var d := CheckDecision(live, countBackground, memory, required, reserve, maxPressure, others, waiting);
            o in d.setAside <==>
              && o in others && live && !countBackground && o.Promised() > 0
              && (o.reservation.live == Some(false)
                  || (o.reservation.live == None && o.reservation.role !in {PublicServer, LocalServer}))
  {
    CountedContains(live, countBackground, others, o);
    NotInContains(others, Counted(live, countBackground, others), o);
  }

  lemma {:induction false} AllCounted(countBackground: bool, others: seq<OtherReservation>)
    ensures Counted(false, countBackground, others) == others
  {
    if others != [] {
      AllCounted(countBackground, others[..|others| - 1]);
    }
  }

  /** The sum over the others whose promise cannot be set aside. */
  function SumFirm(live: bool, countBackground: bool, others: seq<OtherReservation>): nat {
    if others == [] then 0
    else
      var last := others[|others| - 1];
      SumFirm(live, countBackground, others[..|others| - 1])
      + if live && !countBackground && !last.reservation.IsLive() then 0 else last.Promised()
  }

  lemma {:induction false} CountedIsFirm(live: bool, countBackground: bool, others: seq<OtherReservation>)
    ensures SumPromised(Counted(live, countBackground, others)) == SumFirm(live, countBackground, others)
  {
    if others != [] {
      var init, last := others[..|others| - 1], others[|others| - 1];
      CountedIsFirm(live, countBackground, init);
      SumAppend(Counted(live, countBackground, init), last);
      assert Counted(live, countBackground, others)
          == Counted(live, countBackground, init) + if Counts(live, countBackground, last) then [last] else [];
    }
  }

  /** The rule, both ways: admissible pressure, no live server waiting (for a
      background load), and room for the load, the reserve and every promise
      that cannot give way. */
  lemma AdmittedExactlyWhen(live: bool, countBackground: bool, memory: HostMemory, required: int, reserve: int,
                            maxPressure: Pressure, others: seq<OtherReservation>, waiting: seq<Pid>)
    ensures var d := CheckDecision(live, countBackground, memory, required, reserve, maxPressure, others, waiting);
            && (d.admitted <==>
                  && (memory.pressure == Normal || (memory.pressure == Warn && maxPressure != Normal))
                  && (live || waiting == [])
                  && memory.freeBytes + memory.inactiveBytes + memory.speculativeBytes
                       >= required + reserve + SumFirm(live, countBackground, others))
            && (d.admitted <==> d.cause == None)
  {
    CountedIsFirm(live, countBackground, others);
  }

  /** Which refusal it is: pressure first, then a waiting live server, then
      memory. That the host could not be measured is no measured check's. */
  lemma RefusedExactlyFor(live: bool, countBackground: bool, memory: HostMemory, required: int, reserve: int,
                          maxPressure: Pressure, others: seq<OtherReservation>, waiting: seq<Pid>)
    ensures var d := CheckDecision(live, countBackground, memory, required, reserve, maxPressure, others, waiting);
            var tooHigh := memory.pressure == Critical || (memory.pressure == Warn && maxPressure == Normal);
            var heldBack := !live && waiting != [];
            && (d.cause == Some(PressureTooHigh) <==> tooHigh)
            && (d.cause == Some(LiveServerWaiting) <==> !tooHigh && heldBack)
            && (d.cause == Some(NotEnoughMemory) <==>
                  !tooHigh && !heldBack
                  && memory.freeBytes + memory.inactiveBytes + memory.speculativeBytes
                       < required + reserve + SumFirm(live, countBackground, others))
            && d.cause != Some(Unmeasured)
  {
    CountedIsFirm(live, countBackground, others);
  }

  /** Where background promises count, none gives way. */
  lemma {:induction false} AllFirm(others: seq<OtherReservation>)
    ensures SumFirm(true, true, others) == SumPromised(others)
  {
    if others != [] {
      AllFirm(others[..|others| - 1]);
    }
  }

  // ------------------------------------------------------- reservation files

  /** `<pid>.json`, or any other `*.json` in the directory (a writer's
      temporary file left by a crash, say). */
  datatype FileName = PidFile(pid: Pid) | Stray(id: nat)

  /** A directory of reservation files; `None` is a file that does not parse. */
  type Files = map<FileName, Option<Reservation>>

  predicate Stale(content: Option<Reservation>, own: Pid, running: set<Pid>) {
    content == None || (content.value.pid != own && content.value.pid !in running)
  }

  /** What looking at one file reports. */
  function Seen(content: Option<Reservation>, own: Pid, running: set<Pid>,
                held: map<Pid, nat>): Option<OtherReservation>
  {
    if Stale(content, own, running) || content.value.pid == own then None
    else
      var r := content.value;
      Some(OtherReservation(r, if r.pid in held then Some(held[r.pid]) else None))
  }

  /** What `others` reports for the listed files, in listing order. */
  function SeenOthers(files: Files, listing: seq<FileName>, own: Pid, running: set<Pid>,
                      held: map<Pid, nat>): seq<OtherReservation>
    requires forall n :: n in listing ==> n in files
  {
    if listing == [] then []
    else
      var before := SeenOthers(files, listing[..|listing| - 1], own, running, held);
      var last := Seen(files[listing[|listing| - 1]], own, running, held);
      if last.Some? then before + [last.value] else before
  }

  lemma SeenOne(files: Files, before: seq<FileName>, name: FileName, own: Pid, running: set<Pid>, held: map<Pid, nat>)
    requires name in files && forall n :: n in before ==> n in files
    ensures var content, found := files[name], SeenOthers(files, before, own, running, held);
            var one := Seen(content, own, running, held);
            SeenOthers(files, before + [name], own, running, held) == if one.Some? then found + [one.value] else found
  {
    assert (before + [name])[..|before|] == before;
  }

  /** Of the files looked at so far, the stale ones have gone where the
      filesystem lets them, and nothing else has changed. */
  predicate Swept(before: Files, now: Files, done: seq<FileName>, own: Pid, running: set<Pid>, stuck: set<FileName>) {
    && (forall n :: n in now ==> n in before && now[n] == before[n])
    && (forall n :: n in before && n !in done ==> n in now)
    && (forall n :: n in before && n in done ==> (n in now <==> !Stale(before[n], own, running) || n in stuck))
  }

  /** What looking at one file leaves in the directory. */
  function Left(files: Files, name: FileName, own: Pid, running: set<Pid>, stuck: set<FileName>): Files
    requires name in files
  {
    if Stale(files[name], own, running) && name !in stuck then files - {name} else files
  }

  /** A listing looked at as far as `i`. */
  predicate LookedAt(before: Files, now: Files, listing: seq<FileName>, i: nat, found: seq<OtherReservation>, own: Pid,
                     running: set<Pid>, held: map<Pid, nat>, stuck: set<FileName>)
    requires i <= |listing| && forall n :: n in listing ==> n in before
  {
    && found == SeenOthers(before, listing[..i], own, running, held)
    && Swept(before, now, listing[..i], own, running, stuck)
  }

  lemma LookedAtOne(before: Files, now: Files, listing: seq<FileName>, i: nat, found: seq<OtherReservation>, own: Pid,
                    running: set<Pid>, held: map<Pid, nat>, stuck: set<FileName>)
    requires forall n :: n in listing ==> n in before
    requires forall i, j :: 0 <= i < j < |listing| ==> listing[i] != listing[j]
    requires i < |listing| && LookedAt(before, now, listing, i, found, own, running, held, stuck)
    ensures listing[i] in now
    ensures var one := Seen(now[listing[i]], own, running, held);
            LookedAt(before, Left(now, listing[i], own, running, stuck), listing, i + 1,
                     if one.Some? then found + [one.value] else found, own, running, held, stuck)
  {
    var name := listing[i];
    assert listing[..i + 1] == listing[..i] + [name] && name !in listing[..i];
    SeenOne(before, listing[..i], name, own, running, held);
  }

  /** The reservations directory, as the process holding the admission lock
      works on it. `stuck` names the files whose removal the filesystem
      refuses, an error the source suppresses. */
  class ReservationBook {
    var files: Files

    constructor ()
      ensures files == map[]
    {
      files := map[];
    }

    /** One listed file: swept, reported, or the process's own. */
    method Look(name: FileName, own: Pid, running: set<Pid>, held: map<Pid, nat>, stuck: set<FileName>)
      returns (other: Option<OtherReservation>)
      requires name in files
      modifies this
      ensures files == Left(old(files), name, own, running, stuck)
      ensures other == Seen(old(files)[name], own, running, held)
    {
      other := None;
      var content := files[name];
      if content == None || (content.value.pid != own && content.value.pid !in running) {
        if name !in stuck {
          files := files - {name};
        }
      } else if content.value.pid != own {
        var pid := content.value.pid;
        other := Some(OtherReservation(content.value, if pid in held then Some(held[pid]) else None));
      }
    }

    /** Reports every running process but `own`, and sweeps the files of
        processes that are gone and files nobody can read. */
    method Others(listing: seq<FileName>, own: Pid, running: set<Pid>, held: map<Pid, nat>, stuck: set<FileName>)
      returns (found: seq<OtherReservation>)
      requires forall i, j :: 0 <= i < j < |listing| ==> listing[i] != listing[j]
      requires forall n :: n in listing <==> n in files
      modifies this
      ensures found == SeenOthers(old(files), listing, own, running, held)
      ensures forall n :: n in files <==> n in old(files) && (!Stale(old(files)[n], own, running) || n in stuck)
      ensures forall n :: n in files ==> files[n] == old(files)[n]
    {
      found := [];
      ghost var before := files;
      for i := 0 to |listing|
        invariant LookedAt(before, files, listing, i, found, own, running, held, stuck)
      {
        LookedAtOne(before, files, listing, i, found, own, running, held, stuck);
        var other := Look(listing[i], own, running, held, stuck);
        if other.Some? {
          found := found + [other.value];
        }
      }
      assert listing[..|listing|] == listing;
    }

    /** Replaces this process's file in one step, or fails and leaves it be. */
    method Write(r: Reservation, fails: bool) returns (ok: bool)
      modifies this
      ensures ok == !fails
      ensures files == if ok then old(files)[PidFile(r.pid) := Some(r)] else old(files)
    {
      ok := !fails;
      if ok {
        files := files[PidFile(r.pid) := Some(r)];
      }
    }

    method Remove(pid: Pid, fails: bool)
      modifies this
      ensures files == if fails then old(files) else old(files) - {PidFile(pid)}
    {
      if !fails {
        files := files - {PidFile(pid)};
      }
    }
  }

  /** A readable file of a running process is always reported, with the promise
      that the process's footprint leaves. */
  lemma {:induction false} RunningFileIsSeen(files: Files, listing: seq<FileName>, own: Pid, running: set<Pid>,
                                             held: map<Pid, nat>, n: FileName)
    requires forall m :: m in listing ==> m in files
    requires n in listing && files[n].Some? && files[n].value.pid != own && files[n].value.pid in running
    ensures var r := files[n].value;
            exists o :: o in SeenOthers(files, listing, own, running, held) && o.reservation == r
                        && o.Promised() == Max(0, r.reserved - if r.pid in held then held[r.pid] else 0)
  {
    var init, last := listing[..|listing| - 1], listing[|listing| - 1];
    assert listing == init + [last];
    if last == n {
      var pid := files[n].value.pid;
      var o := OtherReservation(files[n].value, if pid in held then Some(held[pid]) else None);
      assert SeenOthers(files, listing, own, running, held)[|SeenOthers(files, init, own, running, held)|] == o;
    } else {
      RunningFileIsSeen(files, init, own, running, held, n);
      var r := files[n].value;
      var o :| o in SeenOthers(files, init, own, running, held) && o.reservation == r
               && o.Promised() == Max(0, r.reserved - if r.pid in held then held[r.pid] else 0);
      assert o in SeenOthers(files, listing, own, running, held);
    }
  }

  // ----------------------------------------------------------- one process

  /** One process's admission: the check that leaves a reservation on yes. */
  class Admission {
    const book: ReservationBook
    const pid: Pid
    const role: Role
    const live: bool
    const required: nat
    const reserve: nat
    const maxPressure: Pressure

    constructor (book: ReservationBook, pid: Pid, role: Role, live: bool, required: nat, reserve: nat,
                 maxPressure: Pressure)
      ensures this.book == book && this.pid == pid && this.role == role && this.live == live
      ensures this.required == required && this.reserve == reserve && this.maxPressure == maxPressure
    {
      this.book, this.pid, this.role, this.live := book, pid, role, live;
      this.required, this.reserve, this.maxPressure := required, reserve, maxPressure;
    }

    function Asked(countBackground: bool, memory: HostMemory, others: seq<OtherReservation>,
                   waiting: Option<seq<Pid>>): Decision {
      CheckDecision(live, countBackground, memory, required, reserve, maxPressure, others,
                    if waiting.Some? then waiting.value else [])
    }

    /** Decide now. `measured` is `None` when the host could not be measured,
        `waiting` is `None` when the notices could not be read; either, or a
        reservation that could not be written, is a refusal. */
    method Check(countBackground: bool, measured: Option<HostMemory>, listing: seq<FileName>, running: set<Pid>,
                 held: map<Pid, nat>, stuck: set<FileName>, waiting: Option<seq<Pid>>, writeFails: bool)
      returns (decision: Decision, settled: bool)
      requires forall i, j :: 0 <= i < j < |listing| ==> listing[i] != listing[j]
      requires forall n :: n in listing <==> n in book.files
      modifies book
      ensures settled <==>
                && measured.Some? && (live || waiting.Some?)
                && var others := SeenOthers(old(book.files), listing, pid, running, held);
                   !(writeFails && Asked(countBackground, measured.value, others, waiting).admitted)
      ensures decision == if settled
                          then var others := SeenOthers(old(book.files), listing, pid, running, held);
                               Asked(countBackground, measured.value, others, waiting)
                          else Refused()
      ensures !settled ==> !decision.admitted && decision.cause == Some(Unmeasured)
      ensures decision.admitted ==>
                && PidFile(pid) in book.files
                && book.files[PidFile(pid)] == Some(Reservation(pid, role, required, Some(live)))
      ensures forall n :: n in book.files && !(decision.admitted && n == PidFile(pid)) ==>
                n in old(book.files) && book.files[n] == old(book.files)[n]
      ensures forall n :: n in old(book.files) && !Stale(old(book.files)[n], pid, running) ==> n in book.files
    {
      if measured == None {
        return Refused(), false;
      }
      var others := book.Others(listing, pid, running, held, stuck);
      if !live && waiting == None {
        return Refused(), false;
      }
      decision := CheckDecision(live, countBackground, measured.value, required, reserve, maxPressure, others,
                                if waiting.Some? then waiting.value else []);
      settled := true;
      if decision.admitted {
        var ok := book.Write(Reservation(pid, role, required, Some(live)), writeFails);
        if !ok {
          return Refused(), false;
        }
      }
    }
  }
}
