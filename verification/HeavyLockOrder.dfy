/** Waiting commands go first, and exactly when: a yielding command gets past a
    waiting one if and only if that one is not in the waiting file. */
module HeavyLockOrder {
  import opened HeavyLock

  // ------------------------------------------------- in the waiting file: never

  predicate BeforeRecheck(h: Host, p: Pid) {
    p in h.commands && h.commands[p].stepsAside ==>
      var phase := h.commands[p].phase;
      || phase.Idle? || phase.Looking? || phase.LookShared? || phase.Clear? || phase.Rechecking?
      || phase.HandingBack? || phase.Sleeping? || phase.InspectShared?
  }

  /** `q` is at `phase` before and after every event of the run. */
  predicate StaysAt(h: Host, events: seq<Event>, q: Pid, phase: Phase)
    requires Run(h, events)
    decreases |events|
  {
    At(h, q, phase) && (events == [] || StaysAt(Apply(h, events[0]), events[1..], q, phase))
  }

  lemma NotPastRecheck(h: Host, e: Event, p: Pid, q: Pid)
    requires Inv(h) && Enabled(h, e) && BeforeRecheck(h, p) && At(h, q, InRoom)
    ensures BeforeRecheck(Apply(h, e), p)
  {
    if e.pid != p {
      OthersAreLeftAlone(h, e, p);
    } else {
      assert Right(h, q);
    }
  }

  /** While a command holds the waiting file and waits, no yielding command that
      has not passed its re-check gets past it: whatever it takes in that time
      it hands straight back. */
  lemma {:induction false} NeverOvertaken(h: Host, events: seq<Event>, p: Pid, q: Pid)
    requires Inv(h) && Run(h, events) && StaysAt(h, events, q, InRoom) && BeforeRecheck(h, p)
    ensures BeforeRecheck(After(h, events), p)
    decreases |events|
  {
    if events != [] {
      NotPastRecheck(h, events[0], p, q);
      StepKeepsInv(h, events[0]);
      NeverOvertaken(Apply(h, events[0]), events[1..], p, q);
    }
  }

  // ------------------------------------------ not in it yet: it can be overtaken

  lemma {:induction false} StaysSnoc(h: Host, events: seq<Event>, e: Event, q: Pid, phase: Phase)
    requires Run(h, events) && StaysAt(h, events, q, phase) && Enabled(After(h, events), e) && e.pid != q
    ensures Run(h, events + [e]) && StaysAt(h, events + [e], q, phase)
    decreases |events|
  {
    RunSnoc(h, events, e);
    if events == [] {
      OthersAreLeftAlone(h, e, q);
      assert StaysAt(Apply(h, e), [], q, phase);
    } else {
      assert (events + [e])[1..] == events[1..] + [e];
      StaysSnoc(Apply(h, events[0]), events[1..], e, q, phase);
    }
  }

  /** A run to `h` through which `q` announces itself. */
  predicate Comes(start: Host, events: seq<Event>, h: Host, q: Pid) {
    Run(start, events) && After(start, events) == h && StaysAt(start, events, q, Announcing)
  }

  lemma Goes(start: Host, events: seq<Event>, h: Host, q: Pid, e: Event, h': Host)
    requires Comes(start, events, h, q) && Enabled(h, e) && Apply(h, e) == h' && e.pid != q
    ensures Comes(start, events + [e], h', q)
  {
    RunSnoc(start, events, e);
    StaysSnoc(start, events, e, q, Announcing);
  }

  /** `p` yields, and `q` announces itself. */
  predicate Yields(h: Host, p: Pid, q: Pid) {
    p in h.commands && h.commands[p].stepsAside && At(h, q, Announcing) && p != q
  }

  /** Whatever other commands do, they may be killed. */
  lemma {:induction false} OthersMayDie(start: Host, before: seq<Event>, h: Host, p: Pid, q: Pid)
      returns (events: seq<Event>, h': Host)
    requires Comes(start, before, h, q) && Inv(h) && Yields(h, p, q)
    ensures Comes(start, events, h', q) && Inv(h') && h'.commands.Keys == {p, q}
    ensures h'.commands[p] == h.commands[p] && h'.commands[q] == h.commands[q]
    decreases h.commands.Keys
  {
    if r :| r in h.commands && r != p && r != q {
      var h1 := Apply(h, Die(r));
      Goes(start, before, h, q, Die(r), h1);
      StepKeepsInv(h, Die(r));
      events, h' := OthersMayDie(start, before + [Die(r)], h1, p, q);
    } else {
      events, h' := before, h;
      assert h.commands.Keys == {p, q};
    }
  }

  /** With nobody else about, `p` holds whatever is held. */
  lemma LocksWhenAlone(h: Host, p: Pid, q: Pid)
    requires Inv(h) && h.commands.Keys == {p, q} && At(h, q, Announcing)
    ensures h.room.exclusive.Some? ==> h.room.exclusive.value == p
    ensures h.main.exclusive.Some? ==> h.main.exclusive.value == p
    ensures h.main.shared <= {p}
  {
    if h.room.exclusive.Some? {
      assert Right(h, h.room.exclusive.value);
    }
    if h.main.exclusive.Some? {
      assert Right(h, h.main.exclusive.value);
    }
    forall r | r in h.main.shared ensures r == p {
      assert Right(h, r);
    }
  }

  /** How many steps `p` is from having passed. */
  function Distance(phase: Phase): nat {
    match phase
    case HandingBack => 7
    case InspectShared => 7
    case Idle => 6
    case Sleeping => 6
    case Looking => 5
    case LookShared => 4
    case Clear => 3
    case Rechecking => 2
    case RecheckShared => 1
    case _ => 0
  }

  /** Before it looks, a command finds its way back to looking by itself. */
  lemma ComesToLook(h: Host, p: Pid)
    requires p in h.commands && h.commands[p].stepsAside && Distance(h.commands[p].phase) >= 6
    ensures !Blocked(h, p) && Enabled(h, NextStep(h, p))
    ensures var h' := Apply(h, NextStep(h, p));
            && p in h'.commands && h'.commands[p].stepsAside
            && Distance(h.commands[p].phase) > Distance(h'.commands[p].phase) > 2
  {
  }

  /** ... and with both files free of others it passes every check. */
  lemma PassesNext(h: Host, p: Pid)
    requires p in h.commands && h.commands[p].stepsAside && 0 < Distance(h.commands[p].phase) < 6
    requires h.room.CanShare() && (h.commands[p].phase.Clear? ==> h.main.CanExclude())
    ensures !Blocked(h, p) && Enabled(h, NextStep(h, p))
    ensures var h' := Apply(h, NextStep(h, p));
            && p in h'.commands && h'.commands[p].stepsAside
            && Distance(h'.commands[p].phase) == Distance(h.commands[p].phase) - 1
            && (h.commands[p].phase.RecheckShared? ==> h'.commands[p].phase.Writing?)
  {
  }

  /** `p` is alone with `q`, and on its way or just past its last check. */
  ghost predicate OnItsWay(h: Host, p: Pid, q: Pid) {
    && Inv(h) && h.commands.Keys == {p, q} && Yields(h, p, q)
    && (Distance(h.commands[p].phase) > 0 || h.commands[p].phase.Writing?)
  }

  lemma OneStepOn(h: Host, p: Pid, q: Pid)
    requires OnItsWay(h, p, q) && Distance(h.commands[p].phase) > 0
    ensures !Blocked(h, p) && Enabled(h, NextStep(h, p)) && NextStep(h, p).pid == p
    ensures var h' := Apply(h, NextStep(h, p));
            OnItsWay(h', p, q) && Distance(h'.commands[p].phase) < Distance(h.commands[p].phase)
  {
    LocksWhenAlone(h, p, q);
    assert Right(h, p);
    if Distance(h.commands[p].phase) >= 6 {
      ComesToLook(h, p);
    } else {
      PassesNext(h, p);
    }
    KeepsCompany(h, NextStep(h, p), p, q);
  }

  lemma KeepsCompany(h: Host, e: Event, p: Pid, q: Pid)
    requires Inv(h) && h.commands.Keys == {p, q} && At(h, q, Announcing) && p != q
    requires Enabled(h, e) && e.pid == p && p in Apply(h, e).commands
    ensures var h' := Apply(h, e);
            Inv(h') && h'.commands.Keys == {p, q} && At(h', q, Announcing)
  {
    StepKeepsInv(h, e);
    OthersAreLeftAlone(h, e, q);
    forall r | r in Apply(h, e).commands ensures r == p || r == q {
      if r != p {
        OthersAreLeftAlone(h, e, r);
      }
    }
  }

  lemma {:induction false} PassesAll(start: Host, before: seq<Event>, h: Host, p: Pid, q: Pid)
      returns (events: seq<Event>, h': Host)
    requires Comes(start, before, h, q) && OnItsWay(h, p, q)
    ensures Comes(start, events, h', q) && OnItsWay(h', p, q) && h'.commands[p].phase.Writing?
    decreases Distance(h.commands[p].phase)
  {
    events, h' := before, h;
    if Distance(h.commands[p].phase) > 0 {
      OneStepOn(h, p, q);
      var e := NextStep(h, p);
      Goes(start, before, h, q, e, Apply(h, e));
      events, h' := PassesAll(start, before + [e], Apply(h, e), p, q);
    }
  }

  /** `p` has taken the lock as a yielding command. */
  predicate HasPassed(h: Host, p: Pid) {
    At(h, p, Writing) && h.commands[p].stepsAside
  }

  /** A run in which `p` passes while `q` stays where it is. */
  predicate Overtakes(h: Host, events: seq<Event>, p: Pid, q: Pid)
    requires q in h.commands
  {
    Run(h, events) && StaysAt(h, events, q, h.commands[q].phase) && HasPassed(After(h, events), p)
  }

  /** A command that waits without the waiting file, queued behind another or
      not yet in it, has no protection: from every state, wherever a yielding
      command is before its re-check and whatever others do, there is a run in
      which it takes the lock while the other still announces itself. */
  lemma QueuedCommandCanBeOvertaken(h: Host, p: Pid, q: Pid) returns (events: seq<Event>)
    requires Inv(h) && At(h, q, Announcing)
    requires p in h.commands && h.commands[p].stepsAside && BeforeRecheck(h, p)
    ensures Run(h, events) && StaysAt(h, events, q, Announcing) && HasPassed(After(h, events), p)
  {
    var h';
    assert Comes(h, [], h, q);
    events, h' := OthersMayDie(h, [], h, p, q);
    events, h' := PassesAll(h, events, h', p, q);
  }

  /** A waiting command is protected exactly while it is in the waiting file:
      while it stays where it is, a yielding command that has not passed its
      re-check can take the lock if and only if it is not in there yet. */
  lemma OvertakenExactlyWhenQueued(h: Host, p: Pid, q: Pid)
    requires Inv(h) && Blocked(h, q)
    requires p in h.commands && h.commands[p].stepsAside && BeforeRecheck(h, p)
    ensures (exists events :: Overtakes(h, events, p, q)) <==> At(h, q, Announcing)
  {
    if At(h, q, Announcing) {
      var events := QueuedCommandCanBeOvertaken(h, p, q);
      assert Overtakes(h, events, p, q);
    } else {
      forall events ensures !Overtakes(h, events, p, q) {
        if Run(h, events) && StaysAt(h, events, q, InRoom) {
          NeverOvertaken(h, events, p, q);
        }
      }
    }
  }

  // ----------------------------------------------- every wait can be ended

  /** A run to `h` with nothing in it that ends `p`'s attempt but success. */
  predicate Serves(start: Host, events: seq<Event>, h: Host, p: Pid) {
    && Run(start, events) && After(start, events) == h
    && forall e :: e in events ==> e != Die(p) && e != Interrupt(p) && !(e.WriteHolder? && e.pid == p && e.fails)
  }

  lemma ServesOn(start: Host, events: seq<Event>, h: Host, p: Pid, e: Event, h': Host)
    requires Serves(start, events, h, p) && Enabled(h, e) && Apply(h, e) == h'
    requires e != Die(p) && e != Interrupt(p) && !(e.WriteHolder? && e.pid == p && e.fails)
    ensures Serves(start, events + [e], h', p)
  {
    RunSnoc(start, events, e);
  }

  lemma {:induction false} AllOthersMayDie(start: Host, before: seq<Event>, h: Host, p: Pid)
      returns (events: seq<Event>, h': Host)
    requires Serves(start, before, h, p) && Inv(h) && p in h.commands
    ensures Serves(start, events, h', p) && Inv(h') && h'.commands == map[p := h.commands[p]]
    decreases h.commands.Keys
  {
    if r :| r in h.commands && r != p {
      var h1 := Apply(h, Die(r));
      ServesOn(start, before, h, p, Die(r), h1);
      StepKeepsInv(h, Die(r));
      events, h' := AllOthersMayDie(start, before + [Die(r)], h1, p);
    } else {
      events, h' := before, h;
      assert h.commands.Keys == {p};
    }
  }

  /** How many steps `p` is from holding the lock, with nobody in its way. */
  function StepsToHold(phase: Phase): nat {
    match phase
    case Announcing => 4
    case InRoom => 3
    case Trying => 2
    case LeavingRoom => 2
    case Writing => 1
    case Holding => 0
    case _ => if Distance(phase) > 0 then Distance(phase) + 1 else 0
  }

  /** `p` is on a queueing or a yielding command's way to the lock. */
  predicate OnTheWay(c: Command) {
    if c.stepsAside then Distance(c.phase) > 0 || c.phase.Writing? || c.phase.Holding?
    else
      || c.phase.Idle? || c.phase.Trying? || c.phase.Announcing? || c.phase.InRoom? || c.phase.LeavingRoom?
      || c.phase.Writing? || c.phase.Holding? || c.phase.InspectShared?
  }

  /** A step of `p`'s own that ends no attempt, and brings it nearer. */
  predicate Nearer(h: Host, p: Pid, e: Event)
    requires p in h.commands && Enabled(h, e)
  {
    && e.pid == p && e != Die(p) && e != Interrupt(p) && !(e.WriteHolder? && e.fails)
    && var h' := Apply(h, e);
       && p in h'.commands && OnTheWay(h'.commands[p])
       && StepsToHold(h'.commands[p].phase) < StepsToHold(h.commands[p].phase)
  }

  lemma QueuerMovesOn(h: Host, p: Pid) returns (e: Event)
    requires p in h.commands && !h.commands[p].stepsAside && OnTheWay(h.commands[p])
    requires !At(h, p, Holding) && !At(h, p, Writing)
    requires At(h, p, Announcing) ==> h.room.CanExclude()
    requires At(h, p, InRoom) || At(h, p, Trying) ==> h.main.CanExclude()
    ensures Enabled(h, e) && Nearer(h, p, e)
  {
    e := match h.commands[p].phase
      case Idle => Acquire(p)
      case Trying => TryMain(p)
      case Announcing => TakeRoom(p)
      case InRoom => TakeMain(p)
      case LeavingRoom => LeaveRoom(p)
      case _ => EndInspect(p);
  }

  lemma YielderFarMovesOn(h: Host, p: Pid) returns (e: Event)
    requires p in h.commands && h.commands[p].stepsAside && Distance(h.commands[p].phase) >= 6
    ensures Enabled(h, e) && Nearer(h, p, e)
  {
    e := match h.commands[p].phase
      case HandingBack => HandBack(p)
      case InspectShared => EndInspect(p)
      case Idle => Acquire(p)
      case _ => Wake(p);
  }

  lemma YielderNearMovesOn(h: Host, p: Pid) returns (e: Event)
    requires p in h.commands && h.commands[p].stepsAside && 0 < Distance(h.commands[p].phase) < 6
    requires h.room.CanShare() && (At(h, p, Clear) ==> h.main.CanExclude())
    ensures Enabled(h, e) && Nearer(h, p, e)
  {
    e := match h.commands[p].phase
      case Looking => Look(p)
      case LookShared => EndLook(p)
      case Clear => TryMain(p)
      case Rechecking => Recheck(p)
      case _ => EndRecheck(p);
  }

  lemma WriterHolds(h: Host, p: Pid) returns (e: Event)
    requires At(h, p, Writing)
    ensures Enabled(h, e) && Nearer(h, p, e)
  {
    e := WriteHolder(p, false, true);
  }

  /** Alone, a command finds free what it does not hold itself. */
  lemma FreeWhenAlone(h: Host, p: Pid)
    requires Inv(h) && h.commands.Keys == {p}
    ensures !h.commands[p].phase.HasRoom() && !h.commands[p].phase.SharesRoom() ==> h.room.CanExclude()
    ensures !h.commands[p].phase.HasRoom() ==> h.room.CanShare()
    ensures !h.commands[p].phase.HasMain() && !h.commands[p].phase.SharesMain() ==> h.main.CanExclude()
  {
    if h.room.exclusive.Some? {
      assert Right(h, h.room.exclusive.value);
    }
    if h.main.exclusive.Some? {
      assert Right(h, h.main.exclusive.value);
    }
    forall r | r in h.room.shared ensures r == p && h.commands[p].phase.SharesRoom() {
      assert Right(h, r);
    }
    forall r | r in h.main.shared ensures r == p && h.commands[p].phase.SharesMain() {
      assert Right(h, r);
    }
  }

  lemma StaysAlone(h: Host, e: Event, p: Pid)
    requires Inv(h) && h.commands.Keys == {p} && Enabled(h, e) && e.pid == p && p in Apply(h, e).commands
    ensures Inv(Apply(h, e)) && Apply(h, e).commands.Keys == {p}
  {
    StepKeepsInv(h, e);
    forall r | r in Apply(h, e).commands ensures r == p {
      if r != p {
        OthersAreLeftAlone(h, e, r);
      }
    }
  }

  lemma MovesOnce(h: Host, p: Pid) returns (e: Event)
    requires Inv(h) && h.commands.Keys == {p} && OnTheWay(h.commands[p]) && !At(h, p, Holding)
    ensures Enabled(h, e) && Nearer(h, p, e)
  {
    FreeWhenAlone(h, p);
    if At(h, p, Writing) {
      e := WriterHolds(h, p);
    } else if !h.commands[p].stepsAside {
      e := QueuerMovesOn(h, p);
    } else if Distance(h.commands[p].phase) >= 6 {
      e := YielderFarMovesOn(h, p);
    } else {
      e := YielderNearMovesOn(h, p);
    }
  }

  lemma {:induction false} MovesOn(start: Host, before: seq<Event>, h: Host, p: Pid)
      returns (events: seq<Event>, h': Host)
    requires Serves(start, before, h, p) && Inv(h) && h.commands.Keys == {p} && OnTheWay(h.commands[p])
    ensures Serves(start, events, h', p) && At(h', p, Holding)
    decreases StepsToHold(h.commands[p].phase)
  {
    events, h' := before, h;
    if !At(h, p, Holding) {
      var e := MovesOnce(h, p);
      StaysAlone(h, e, p);
      ServesOn(start, before, h, p, e, Apply(h, e));
      events, h' := MovesOn(start, before + [e], Apply(h, e), p);
    }
  }

  /** Every wait can end well: from every state, wherever a command is on its
      way to the lock, there is a run in which it comes to hold it without
      giving up. */
  lemma EveryWaitCanBeServed(h: Host, p: Pid) returns (events: seq<Event>)
    requires Inv(h) && p in h.commands && OnTheWay(h.commands[p])
    ensures Run(h, events) && Serves(h, events, After(h, events), p) && At(After(h, events), p, Holding)
  {
    var h';
    assert Serves(h, [], h, p);
    events, h' := AllOthersMayDie(h, [], h, p);
    events, h' := MovesOn(h, events, h', p);
  }
}
