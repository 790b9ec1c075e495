/** The host-wide heavy-model lock, system call by system call: the lock file,
    the waiting file a command holds while it waits, commands that queue,
    commands that yield, `imsg status` looking on, and kills. */
module HeavyLock {
  import opened Common

  type Pid = nat

  /** Where a command is. Queueing commands go Trying, Announcing, InRoom,
      LeavingRoom, Writing, Holding; yielding ones Looking, LookShared, Clear,
      Rechecking, RecheckShared (or HandingBack), Writing, Holding. A holder
      asks for waiters between units of work; `imsg status` inspects. */
  datatype Phase =
    | Idle
    | Trying | Announcing | InRoom | LeavingRoom
    | Looking | LookShared | Clear | Rechecking | RecheckShared | HandingBack | Sleeping
    | Writing | Holding | Asking | AskShared | Releasing
    | InspectShared
  {
    predicate HasMain() {
      || LeavingRoom? || Rechecking? || RecheckShared? || HandingBack?
      || Writing? || Holding? || Asking? || AskShared? || Releasing?
    }

    predicate HasRoom() {
      InRoom? || LeavingRoom?
    }

    predicate SharesRoom() {
      LookShared? || RecheckShared? || AskShared?
    }

    predicate SharesMain() {
      InspectShared?
    }

    /** The holder has written its own details. */
    predicate HasWritten() {
      Holding? || Asking? || AskShared?
    }
  }

  datatype Command = Command(stepsAside: bool, waits: bool, phase: Phase)

  /** What the kernel knows of one file's `flock`s. */
  datatype FileLock = FileLock(exclusive: Option<Pid>, shared: set<Pid>) {
    predicate CanExclude() {
      exclusive == None && shared == {}
    }

    predicate CanShare() {
      exclusive == None
    }

    function Without(p: Pid): FileLock {
      FileLock(if exclusive == Some(p) then None else exclusive, shared - {p})
    }
  }

  /** `text` is whose details the lock file carries. */
  datatype Host = Host(commands: map<Pid, Command>, main: FileLock, room: FileLock, text: Option<Pid>)

  datatype Event =
    | Start(pid: Pid, stepsAside: bool, waits: bool)
    | Die(pid: Pid)
    | Acquire(pid: Pid)
    | TryMain(pid: Pid)
    | TakeRoom(pid: Pid)
    | TakeMain(pid: Pid)
    | LeaveRoom(pid: Pid)
    | Interrupt(pid: Pid)
    | Look(pid: Pid)
    | EndLook(pid: Pid)
    | Recheck(pid: Pid)
    | EndRecheck(pid: Pid)
    | HandBack(pid: Pid)
    | Wake(pid: Pid)
    | WriteHolder(pid: Pid, fails: bool, truncated: bool)
    | Ask(pid: Pid)
    | AskLook(pid: Pid)
    | EndAsk(pid: Pid)
    | BeginRelease(pid: Pid, blankFails: bool)
    | EndRelease(pid: Pid)
    | Inspect(pid: Pid)
    | EndInspect(pid: Pid)

  predicate At(h: Host, p: Pid, phase: Phase) {
    p in h.commands && h.commands[p].phase == phase
  }

  /** A blocking `flock` is enabled when the kernel would grant it. */
  predicate Enabled(h: Host, e: Event) {
    match e
    case Start(p, _, _) => p !in h.commands
    case Die(p) => p in h.commands
    case Acquire(p) => At(h, p, Idle)
    case TryMain(p) => At(h, p, Trying) || At(h, p, Clear)
    case TakeRoom(p) => At(h, p, Announcing) && h.room.CanExclude()
    case TakeMain(p) => At(h, p, InRoom) && h.main.CanExclude()
    case LeaveRoom(p) => At(h, p, LeavingRoom)
    case Interrupt(p) => At(h, p, Announcing) || At(h, p, InRoom) || At(h, p, Sleeping)
    case Look(p) => At(h, p, Looking)
    case EndLook(p) => At(h, p, LookShared)
    case Recheck(p) => At(h, p, Rechecking)
    case EndRecheck(p) => At(h, p, RecheckShared)
    case HandBack(p) => At(h, p, HandingBack)
    case Wake(p) => At(h, p, Sleeping)
    case WriteHolder(p, _, _) => At(h, p, Writing)
    case Ask(p) => At(h, p, Holding)
    case AskLook(p) => At(h, p, Asking)
    case EndAsk(p) => At(h, p, AskShared)
    case BeginRelease(p, _) => At(h, p, Holding)
    case EndRelease(p) => At(h, p, Releasing)
    case Inspect(p) => At(h, p, Idle)
    case EndInspect(p) => At(h, p, InspectShared)
  }

  function Go(h: Host, p: Pid, phase: Phase): Host
    requires p in h.commands
  {
    h.(commands := h.commands[p := h.commands[p].(phase := phase)])
  }

  function TakesMain(h: Host, p: Pid): Host {
    h.(main := h.main.(exclusive := Some(p)))
  }

  function SharesRoomNow(h: Host, p: Pid): Host {
    h.(room := h.room.(shared := h.room.shared + {p}))
  }

  /** After a failed attempt a command waits its own way, or reports busy. */
  function NotNow(h: Host, p: Pid): Host
    requires p in h.commands
  {
    var c := h.commands[p];
    Go(h, p, if !c.waits then Idle else if c.stepsAside then Sleeping else Announcing)
  }

  function Apply(h: Host, e: Event): Host
    requires Enabled(h, e)
  {
    match e
    case Start(p, stepsAside, waits) => h.(commands := h.commands[p := Command(stepsAside, waits, Idle)])
    case Die(p) => h.(commands := h.commands - {p}, main := h.main.Without(p), room := h.room.Without(p))
    case Acquire(p) => Go(h, p, if h.commands[p].stepsAside then Looking else Trying)
    case TryMain(p) =>
      if !h.main.CanExclude() then NotNow(h, p)
      else TakesMain(Go(h, p, if h.commands[p].stepsAside then Rechecking else Writing), p)
    case TakeRoom(p) => Go(h, p, InRoom).(room := h.room.(exclusive := Some(p)))
    case TakeMain(p) => TakesMain(Go(h, p, LeavingRoom), p)
    case LeaveRoom(p) => Go(h, p, Writing).(room := h.room.Without(p))
    case Interrupt(p) => Go(h, p, Idle).(room := h.room.Without(p))
    case Look(p) => if h.room.CanShare() then SharesRoomNow(Go(h, p, LookShared), p) else NotNow(h, p)
    case EndLook(p) => Go(h, p, Clear).(room := h.room.Without(p))
    case Recheck(p) => if h.room.CanShare() then SharesRoomNow(Go(h, p, RecheckShared), p) else Go(h, p, HandingBack)
    case EndRecheck(p) => Go(h, p, Writing).(room := h.room.Without(p))
    case HandBack(p) => NotNow(h, p).(main := h.main.Without(p))
    case Wake(p) => Go(h, p, Looking)
    case WriteHolder(p, fails, truncated) =>
      if !fails then Go(h, p, Holding).(text := Some(p))
      else Go(h, p, Idle).(main := h.main.Without(p), text := if truncated then None else h.text)
    case Ask(p) => Go(h, p, Asking)
    case AskLook(p) => if h.room.CanShare() then SharesRoomNow(Go(h, p, AskShared), p) else Go(h, p, Holding)
    case EndAsk(p) => Go(h, p, Holding).(room := h.room.Without(p))
    case BeginRelease(p, blankFails) => Go(h, p, Releasing).(text := if blankFails then h.text else None)
    case EndRelease(p) => Go(h, p, Idle).(main := h.main.Without(p))
    case Inspect(p) =>
      if h.main.CanShare() then Go(h, p, InspectShared).(main := h.main.(shared := h.main.shared + {p})) else h
    case EndInspect(p) => Go(h, p, Idle).(main := h.main.Without(p))
  }

  predicate Run(h: Host, events: seq<Event>)
    decreases |events|
  {
    events == [] || (Enabled(h, events[0]) && Run(Apply(h, events[0]), events[1..]))
  }

  function After(h: Host, events: seq<Event>): Host
    requires Run(h, events)
    decreases |events|
  {
    if events == [] then h else After(Apply(h, events[0]), events[1..])
  }

  lemma RunCons(h: Host, e: Event, rest: seq<Event>)
    requires Enabled(h, e) && Run(Apply(h, e), rest)
    ensures Run(h, [e] + rest) && After(h, [e] + rest) == After(Apply(h, e), rest)
  {
    assert ([e] + rest)[1..] == rest;
  }

  lemma {:induction false} RunSnoc(h: Host, events: seq<Event>, e: Event)
    requires Run(h, events) && Enabled(After(h, events), e)
    ensures Run(h, events + [e]) && After(h, events + [e]) == Apply(After(h, events), e)
    decreases |events|
  {
    if events == [] {
      assert Run(Apply(h, e), []);
    } else {
      assert (events + [e])[1..] == events[1..] + [e];
      RunSnoc(Apply(h, events[0]), events[1..], e);
    }
  }

  /** Nothing runs; the file may carry a dead holder's details. */
  predicate Start0(h: Host) {
    h.commands == map[] && h.main == FileLock(None, {}) && h.room == FileLock(None, {})
  }

  // -------------------------------------------------- belief is what the kernel has

  /** `p` is right about which locks it holds. */
  predicate Right(h: Host, p: Pid) {
    && (h.main.exclusive == Some(p) <==> p in h.commands && h.commands[p].phase.HasMain())
    && (p in h.main.shared <==> p in h.commands && h.commands[p].phase.SharesMain())
    && (h.room.exclusive == Some(p) <==> p in h.commands && h.commands[p].phase.HasRoom())
    && (p in h.room.shared <==> p in h.commands && h.commands[p].phase.SharesRoom())
  }

  predicate Apart(l: FileLock) {
    l.exclusive.Some? ==> l.shared == {}
  }

  /** Every command is right about which locks it holds, and the kernel keeps
      shared and exclusive apart. */
  ghost predicate Inv(h: Host) {
    (forall p :: Right(h, p)) && Apart(h.main) && Apart(h.room)
  }

  /** The steps of a command that wants no lock yet, or only looks at it. */
  predicate LooksAround(e: Event) {
    e.Start? || e.Acquire? || e.Wake? || e.Inspect? || e.EndInspect?
  }

  /** The steps of a command queueing for the waiting file and in it. */
  predicate Queues(e: Event) {
    e.TakeRoom? || e.Interrupt? || e.TakeMain? || e.LeaveRoom?
  }

  /** The steps that look whether somebody waits. */
  predicate Peeks(e: Event) {
    e.Look? || e.EndLook? || e.AskLook? || e.EndAsk?
  }

  /** The steps that may get the lock at once, or settle whether to keep it. */
  predicate Tries(e: Event) {
    e.TryMain? || e.Recheck? || e.EndRecheck?
  }

  lemma LookerStaysRight(h: Host, e: Event)
    requires Right(h, e.pid) && Enabled(h, e) && LooksAround(e)
    ensures Right(Apply(h, e), e.pid)
  {
  }

  lemma QueuerStaysRight(h: Host, e: Event)
    requires Right(h, e.pid) && Enabled(h, e) && Queues(e)
    ensures Right(Apply(h, e), e.pid)
  {
  }

  lemma PeekerStaysRight(h: Host, e: Event)
    requires Right(h, e.pid) && Enabled(h, e) && Peeks(e)
    ensures Right(Apply(h, e), e.pid)
  {
  }

  lemma TrierStaysRight(h: Host, e: Event)
    requires Right(h, e.pid) && Enabled(h, e) && Tries(e)
    ensures Right(Apply(h, e), e.pid)
  {
  }

  lemma DeadAreRight(h: Host, p: Pid)
    requires Right(h, p) && p in h.commands
    ensures Right(Apply(h, Die(p)), p)
  {
  }

  /** The steps of a holder. */
  lemma HolderStaysRight(h: Host, e: Event)
    requires Right(h, e.pid) && Enabled(h, e) && !e.Die?
    requires !LooksAround(e) && !Queues(e) && !Peeks(e) && !Tries(e)
    ensures Right(Apply(h, e), e.pid)
  {
  }

  lemma ActorStaysRight(h: Host, e: Event)
    requires Right(h, e.pid) && Enabled(h, e)
    ensures Right(Apply(h, e), e.pid)
  {
    if LooksAround(e) {
      LookerStaysRight(h, e);
    } else if Queues(e) {
      QueuerStaysRight(h, e);
    } else if Peeks(e) {
      PeekerStaysRight(h, e);
    } else if Tries(e) {
      TrierStaysRight(h, e);
    } else if e.Die? {
      DeadAreRight(h, e.pid);
    } else {
      HolderStaysRight(h, e);
    }
  }

  /** Only the acting command's phase changes. */
  predicate OnlyActs(h: Host, h': Host, p: Pid) {
    p in h'.commands && h'.commands == h.commands[p := h'.commands[p]]
  }

  lemma QueuersActAlone(h: Host, e: Event)
    requires Enabled(h, e) && Queues(e)
    ensures OnlyActs(h, Apply(h, e), e.pid)
  {
  }

  lemma PeekersActAlone(h: Host, e: Event)
    requires Enabled(h, e) && Peeks(e)
    ensures OnlyActs(h, Apply(h, e), e.pid)
  {
  }

  lemma TriersActAlone(h: Host, e: Event)
    requires Enabled(h, e) && Tries(e)
    ensures OnlyActs(h, Apply(h, e), e.pid)
  {
  }

  lemma LookersActAlone(h: Host, e: Event)
    requires Enabled(h, e) && LooksAround(e)
    ensures OnlyActs(h, Apply(h, e), e.pid)
  {
  }

  lemma HoldersActAlone(h: Host, e: Event)
    requires Enabled(h, e) && !LooksAround(e) && !Queues(e) && !Peeks(e) && !Tries(e)
    ensures if e.Die? then Apply(h, e).commands == h.commands - {e.pid} else OnlyActs(h, Apply(h, e), e.pid)
  {
  }

  lemma OthersAreLeftAlone(h: Host, e: Event, p: Pid)
    requires Enabled(h, e) && e.pid != p
    ensures p in Apply(h, e).commands <==> p in h.commands
    ensures p in h.commands ==> Apply(h, e).commands[p] == h.commands[p]
  {
    if Queues(e) {
      QueuersActAlone(h, e);
    } else if Peeks(e) {
      PeekersActAlone(h, e);
    } else if Tries(e) {
      TriersActAlone(h, e);
    } else if LooksAround(e) {
      LookersActAlone(h, e);
    } else {
      HoldersActAlone(h, e);
    }
  }

  /** A step moves no lock but its own command's. */
  predicate MovesOnly(l: FileLock, l': FileLock, p: Pid) {
    && l'.shared - {p} == l.shared - {p}
    && (|| l'.exclusive == l.exclusive
        || (l.exclusive == None && l'.exclusive == Some(p))
        || (l.exclusive == Some(p) && l'.exclusive == None))
  }

  lemma RoomMovesByActor(h: Host, e: Event)
    requires Enabled(h, e)
    ensures MovesOnly(h.room, Apply(h, e).room, e.pid)
  {
  }

  lemma MainMovesByActor(h: Host, e: Event)
    requires Enabled(h, e)
    ensures MovesOnly(h.main, Apply(h, e).main, e.pid)
  {
  }

  lemma OthersStayRight(h: Host, e: Event, p: Pid)
    requires Right(h, p) && Enabled(h, e) && p != e.pid
    ensures Right(Apply(h, e), p)
  {
    OthersAreLeftAlone(h, e, p);
    RoomMovesByActor(h, e);
    MainMovesByActor(h, e);
    assert forall l: FileLock :: p in l.shared <==> p in l.shared - {e.pid};
  }

  lemma MainStaysApart(h: Host, e: Event)
    requires Right(h, e.pid) && Apart(h.main) && Enabled(h, e)
    ensures Apart(Apply(h, e).main)
  {
  }

  lemma RoomStaysApart(h: Host, e: Event)
    requires Right(h, e.pid) && Apart(h.room) && Enabled(h, e)
    ensures Apart(Apply(h, e).room)
  {
  }

  lemma StepKeepsInv(h: Host, e: Event)
    requires Inv(h) && Enabled(h, e)
    ensures Inv(Apply(h, e))
  {
    assert Right(h, e.pid);
    ActorStaysRight(h, e);
    MainStaysApart(h, e);
    RoomStaysApart(h, e);
    forall p | p != e.pid ensures Right(Apply(h, e), p) {
      assert Right(h, p);
      OthersStayRight(h, e, p);
    }
  }

  lemma {:induction false} RunKeepsInv(h: Host, events: seq<Event>)
    requires Inv(h) && Run(h, events)
    ensures Inv(After(h, events))
    decreases |events|
  {
    if events != [] {
      StepKeepsInv(h, events[0]);
      RunKeepsInv(Apply(h, events[0]), events[1..]);
    }
  }

  lemma StartIsRight(h: Host)
    requires Start0(h)
    ensures Inv(h)
  {
  }

  /** At most one command holds the lock, in every run, kills included. */
  lemma MutualExclusion(start: Host, events: seq<Event>, p: Pid, q: Pid)
    requires Start0(start) && Run(start, events)
    requires var h := After(start, events);
             && p in h.commands && h.commands[p].phase.HasMain()
             && q in h.commands && h.commands[q].phase.HasMain()
    ensures p == q && After(start, events).main == FileLock(Some(p), {})
  {
    StartIsRight(start);
    RunKeepsInv(start, events);
    var h := After(start, events);
    assert Right(h, p) && Right(h, q);
  }

  // ------------------------------------------------------------ deadlock freedom

  predicate Blocked(h: Host, p: Pid) {
    At(h, p, Announcing) || At(h, p, InRoom)
  }

  /** `q` holds, in either mode, what `p` is blocked on. */
  predicate WaitsFor(h: Host, p: Pid, q: Pid) {
    || (At(h, p, Announcing) && (h.room.exclusive == Some(q) || q in h.room.shared))
    || (At(h, p, InRoom) && (h.main.exclusive == Some(q) || q in h.main.shared))
  }

  function Rank(h: Host, p: Pid): nat {
    if At(h, p, Announcing) then 2 else if At(h, p, InRoom) then 1 else 0
  }

  /** The queue for the room, then its holder, then the lock's holder: every
      wait goes strictly down that order, so no holder of the lock ever waits. */
  lemma WaitsGoDown(h: Host, p: Pid, q: Pid)
    requires Inv(h) && WaitsFor(h, p, q)
    ensures Rank(h, q) < Rank(h, p)
  {
    assert Right(h, q);
  }

  lemma {:induction false} ChainsGoDown(h: Host, path: seq<Pid>)
    requires Inv(h) && |path| > 0 && forall i :: 0 <= i < |path| - 1 ==> WaitsFor(h, path[i], path[i + 1])
    ensures Rank(h, path[|path| - 1]) + |path| - 1 <= Rank(h, path[0])
    decreases |path|
  {
    if |path| > 1 {
      WaitsGoDown(h, path[0], path[1]);
      var rest := path[1..];
      forall i | 0 <= i < |rest| - 1 ensures WaitsFor(h, rest[i], rest[i + 1]) {
        assert WaitsFor(h, path[i + 1], path[i + 2]);
      }
      ChainsGoDown(h, rest);
    }
  }

  /** No reachable state has a cycle of waits, and no chain has more than three
      commands in it. */
  lemma NoDeadlock(start: Host, events: seq<Event>, path: seq<Pid>)
    requires Start0(start) && Run(start, events) && |path| > 1
    requires forall i :: 0 <= i < |path| - 1 ==> WaitsFor(After(start, events), path[i], path[i + 1])
    ensures path[0] != path[|path| - 1] && |path| <= 3
  {
    StartIsRight(start);
    RunKeepsInv(start, events);
    ChainsGoDown(After(start, events), path);
  }

  /** What a command that is not blocked does next, of its own accord. */
  function NextStep(h: Host, p: Pid): Event
    requires p in h.commands && !Blocked(h, p)
  {
    match h.commands[p].phase
    case Idle => Acquire(p)
    case Trying => TryMain(p)
    case LeavingRoom => LeaveRoom(p)
    case Looking => Look(p)
    case LookShared => EndLook(p)
    case Clear => TryMain(p)
    case Rechecking => Recheck(p)
    case RecheckShared => EndRecheck(p)
    case HandingBack => HandBack(p)
    case Sleeping => Wake(p)
    case Writing => WriteHolder(p, false, true)
    case Holding => BeginRelease(p, false)
    case Asking => AskLook(p)
    case AskShared => EndAsk(p)
    case Releasing => EndRelease(p)
    case InspectShared => EndInspect(p)
  }

  /** A blocked command is granted what it waits for, or the chain of waits
      from it ends at a command that can take a step by itself. */
  lemma SomeoneCanMove(h: Host, p: Pid) returns (path: seq<Pid>)
    requires Inv(h) && Blocked(h, p)
    ensures |path| > 0 && path[0] == p && forall i :: 0 <= i < |path| - 1 ==> WaitsFor(h, path[i], path[i + 1])
    ensures CanMove(h, path[|path| - 1])
    decreases Rank(h, p)
  {
    path := [p];
    var l := if At(h, p, Announcing) then h.room else h.main;
    if !l.CanExclude() {
      var q :| l.exclusive == Some(q) || q in l.shared;
      assert Right(h, q);
      WaitsGoDown(h, p, q);
      if Blocked(h, q) {
        var rest := SomeoneCanMove(h, q);
        path := [p] + rest;
        forall i | 0 <= i < |path| - 1 ensures WaitsFor(h, path[i], path[i + 1]) {
          assert i > 0 ==> WaitsFor(h, rest[i - 1], rest[i]);
        }
      } else {
        path := [p, q];
        UnblockedCanStep(h, q);
      }
    }
  }

  /** `q` is granted what it waits for, or waits for nothing. */
  predicate CanMove(h: Host, q: Pid) {
    q in h.commands
    && if Blocked(h, q) then Enabled(h, TakeRoom(q)) || Enabled(h, TakeMain(q)) else Enabled(h, NextStep(h, q))
  }

  lemma UnblockedCanStep(h: Host, q: Pid)
    requires q in h.commands && !Blocked(h, q)
    ensures CanMove(h, q)
  {
  }

  // ------------------------------------------------- being refused, and waiting

  /** Somebody holds the lock, or is looking at it. */
  predicate Busy(h: Host) {
    exists q :: q in h.commands && (h.commands[q].phase.HasMain() || h.commands[q].phase.InspectShared?)
  }

  /** Somebody is in the waiting file. */
  predicate SomebodyWaits(h: Host) {
    exists q :: q in h.commands && h.commands[q].phase.HasRoom()
  }

  lemma BusyIsLocked(h: Host)
    requires Inv(h)
    ensures Busy(h) <==> !h.main.CanExclude()
  {
    if h.main.exclusive.Some? {
      assert Right(h, h.main.exclusive.value);
    } else if h.main.shared != {} {
      var q :| q in h.main.shared;
      assert Right(h, q);
    } else {
      forall q | q in h.commands ensures !h.commands[q].phase.HasMain() && !h.commands[q].phase.InspectShared? {
        assert Right(h, q);
      }
    }
  }

  lemma WaitingIsLocked(h: Host)
    requires Inv(h)
    ensures SomebodyWaits(h) <==> !h.room.CanShare()
  {
    if h.room.exclusive.Some? {
      assert Right(h, h.room.exclusive.value);
    } else {
      forall q | q in h.commands ensures !h.commands[q].phase.HasRoom() {
        assert Right(h, q);
      }
    }
  }

  /** After a failed attempt: refused if it does not wait, else in its own way
      of waiting. */
  predicate TurnedAway(h: Host, p: Pid, c: Command) {
    At(h, p, if !c.waits then Idle else if c.stepsAside then Sleeping else Announcing)
  }

  /** A command's attempt at the lock fails exactly when somebody holds it, or
      somebody is looking at it: `imsg status` alone makes a `--no-wait` command
      report busy. One that waits is never refused: it announces itself or, if
      it yields, sleeps. */
  lemma BusyExactlyWhen(h: Host, p: Pid)
    requires Inv(h) && Enabled(h, TryMain(p))
    ensures var c, h' := h.commands[p], Apply(h, TryMain(p));
            && (Busy(h) ==> TurnedAway(h', p, c))
            && (!Busy(h) ==> At(h', p, if c.stepsAside then Rechecking else Writing))
  {
    BusyIsLocked(h);
  }

  /** A yielding command looks for waiters before it tries: it is turned away
      exactly when somebody is in the waiting file. */
  lemma LooksExactly(h: Host, p: Pid)
    requires Inv(h) && Enabled(h, Look(p))
    ensures var c, h' := h.commands[p], Apply(h, Look(p));
            if SomebodyWaits(h) then TurnedAway(h', p, c) else At(h', p, LookShared)
  {
    WaitingIsLocked(h);
  }

  /** ... and again once it has the lock, which it hands back exactly then. */
  lemma RechecksExactly(h: Host, p: Pid)
    requires Inv(h) && Enabled(h, Recheck(p))
    ensures At(Apply(h, Recheck(p)), p, if SomebodyWaits(h) then HandingBack else RecheckShared)
  {
    WaitingIsLocked(h);
  }

  lemma HandsBackExactly(h: Host, p: Pid)
    requires Inv(h) && Enabled(h, HandBack(p))
    ensures TurnedAway(Apply(h, HandBack(p)), p, h.commands[p]) && Apply(h, HandBack(p)).main.exclusive == None
  {
    assert Right(h, p);
  }

  /** Between units a holder learns exactly whether somebody is in the waiting
      file, and goes on holding the lock. */
  lemma AsksExactly(h: Host, p: Pid)
    requires Inv(h) && Enabled(h, Ask(p))
    ensures Enabled(Apply(h, Ask(p)), AskLook(p))
    ensures var h' := Apply(Apply(h, Ask(p)), AskLook(p));
            if SomebodyWaits(h) then h' == h else Enabled(h', EndAsk(p)) && Apply(h', EndAsk(p)) == h
  {
    WaitingIsLocked(h);
    assert Right(h, p);
    var h' := Apply(Apply(h, Ask(p)), AskLook(p));
    if SomebodyWaits(h) {
      assert h'.commands == h.commands;
    } else {
      assert Apply(h', EndAsk(p)).commands == h.commands;
      assert Apply(h', EndAsk(p)).room.shared == h.room.shared;
    }
  }

  /** A process starts with no lock and as it was asked to wait. */
  lemma StartsIdle(h: Host, p: Pid, stepsAside: bool, waits: bool)
    requires Inv(h) && Enabled(h, Start(p, stepsAside, waits))
    ensures var h' := Apply(h, Start(p, stepsAside, waits));
            && At(h', p, Idle) && h'.commands[p].stepsAside == stepsAside && h'.commands[p].waits == waits
            && h'.main == h.main && h'.room == h.room
  {
  }

  /** An interrupted command has let go of everything it had. */
  lemma InterruptLetsGo(h: Host, p: Pid)
    requires Inv(h) && Enabled(h, Interrupt(p))
    ensures var h' := Apply(h, Interrupt(p));
            At(h', p, Idle) && h'.main == h.main && h'.room == h.room.Without(p) && h'.main.exclusive != Some(p)
  {
    assert Right(h, p);
  }

  /** A release ends with the lock free. */
  lemma ReleaseFrees(h: Host, p: Pid, blankFails: bool)
    requires Inv(h) && Enabled(h, BeginRelease(p, blankFails))
    ensures Enabled(Apply(h, BeginRelease(p, blankFails)), EndRelease(p))
    ensures var h' := Apply(Apply(h, BeginRelease(p, blankFails)), EndRelease(p));
            At(h', p, Idle) && h'.main.CanExclude() && h'.room == h.room
  {
    assert Right(h, p);
  }

  predicate Acquiring(phase: Phase) {
    || phase.Trying? || phase.Announcing? || phase.InRoom? || phase.LeavingRoom?
    || phase.Looking? || phase.LookShared? || phase.Clear? || phase.Rechecking? || phase.RecheckShared?
    || phase.HandingBack? || phase.Sleeping? || phase.Writing?
  }

  /** A command that waits has begun to acquire the lock. */
  predicate IsWaiting(h: Host, p: Pid) {
    p in h.commands && h.commands[p].waits && Acquiring(h.commands[p].phase)
  }

  /** The ways out of acquiring: the details are written, or not, or it is
      interrupted or killed. */
  predicate EndsWait(e: Event, p: Pid) {
    e.pid == p && (e.Die? || e.Interrupt? || e.WriteHolder?)
  }

  lemma OwnStepKeepsWaiting(h: Host, e: Event)
    requires Enabled(h, e) && IsWaiting(h, e.pid) && !EndsWait(e, e.pid)
    ensures IsWaiting(Apply(h, e), e.pid)
  {
  }

  lemma StepKeepsWaiting(h: Host, e: Event, p: Pid)
    requires Enabled(h, e) && IsWaiting(h, p) && !EndsWait(e, p)
    ensures IsWaiting(Apply(h, e), p)
  {
    if e.pid == p {
      OwnStepKeepsWaiting(h, e);
    } else {
      OthersAreLeftAlone(h, e, p);
    }
  }

  /** A command that waits goes on waiting, whatever others do, until it gets to
      write its details in the lock it has taken, is interrupted or is killed:
      it never reports busy. */
  lemma {:induction false} WaitsUntilServed(h: Host, events: seq<Event>, p: Pid)
    requires Run(h, events) && IsWaiting(h, p) && forall k :: 0 <= k < |events| ==> !EndsWait(events[k], p)
    ensures IsWaiting(After(h, events), p)
    decreases |events|
  {
    if events != [] {
      StepKeepsWaiting(h, events[0], p);
      WaitsUntilServed(Apply(h, events[0]), events[1..], p);
    }
  }

  /** What `WriteHolder` makes of it: the command holds the lock with its own
      details in the file, or has let it go and left the file as it was, or
      blank. */
  lemma WritingEndsIt(h: Host, p: Pid, fails: bool, truncated: bool)
    requires Inv(h) && At(h, p, Writing)
    ensures var h' := Apply(h, WriteHolder(p, fails, truncated));
            if fails then At(h', p, Idle) && h'.main.exclusive == None && (h'.text == h.text || h'.text == None)
              && (!truncated ==> h'.text == h.text)
            else At(h', p, Holding) && h'.main.exclusive == Some(p) && h'.text == Some(p)
  {
    assert Right(h, p);
  }

  // ---------------------------------------------------- the waits do come about

  lemma TriesAndAnnounces(h: Host, p: Pid, q: Pid) returns (h': Host)
    requires Inv(h) && h.main.exclusive == Some(p) && At(h, q, Trying)
    requires h.commands[q].waits && !h.commands[q].stepsAside
    ensures Enabled(h, TryMain(q)) && h' == Apply(h, TryMain(q)) && h' == Go(h, q, Announcing)
  {
    h' := Apply(h, TryMain(q));
  }

  /** The longest chain of waits there can be does come about: with the lock
      held, the second of two commands queues behind the first, which waits for
      the holder. */
  lemma ChainOfThree(h: Host, p: Pid, r: Pid, q: Pid) returns (events: seq<Event>)
    requires Inv(h) && h.main.exclusive == Some(p) && h.room.CanExclude()
    requires q != r && At(h, q, Trying) && At(h, r, Trying)
    requires h.commands[q].waits && !h.commands[q].stepsAside && h.commands[r].waits && !h.commands[r].stepsAside
    ensures Run(h, events) && WaitsFor(After(h, events), q, r) && WaitsFor(After(h, events), r, p)
  {
    var h1 := TriesAndAnnounces(h, p, r);
    StepKeepsInv(h, TryMain(r));
    var h2 := Apply(h1, TakeRoom(r));
    StepKeepsInv(h1, TakeRoom(r));
    var h3 := TriesAndAnnounces(h2, p, q);
    assert Run(h3, []);
    RunCons(h2, TryMain(q), []);
    RunCons(h1, TakeRoom(r), [TryMain(q)] + []);
    RunCons(h, TryMain(r), [TakeRoom(r)] + ([TryMain(q)] + []));
    events := [TryMain(r)] + ([TakeRoom(r)] + ([TryMain(q)] + []));
  }
}
