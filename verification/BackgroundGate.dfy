/** What a heavy background command asks before its models load and between
    units of work. The process's dealings with the host are a trace; every
    answer it gets from outside is arbitrary. */
module BackgroundGate {
  import opened Common
  import opened MemoryAdmission

  /** What reading the notices directory gave. */
  datatype Notices = NonePosted | SomePosted | Unreadable

  datatype Act =
    | AskedPause(paused: bool)
    | AskedNotices(notices: Notices)
    | AskedPressure(level: Option<Pressure>)
    | Checked(admitted: bool)
    | Slept(seconds: real)
    | TookLock
    | LockRefused
    | DroppedLock
    | DroppedReservation
    | LoadedModels
    | DroppedModels
    | DidUnit(failed: bool)

  type Trace = seq<Act>

  datatype StopReason = Paused | Memory

  /** Whether the process holds the heavy lock after `t`, from not holding it. */
  ghost predicate Locked(t: Trace) {
    t != [] && var last := t[|t| - 1];
               if last == TookLock then true else if last == DroppedLock then false else Locked(t[..|t| - 1])
  }

  /** Whether its memory reservation is in force after `t`. */
  ghost predicate Reserved(t: Trace) {
    t != [] && var last := t[|t| - 1];
               if last == Checked(true) then true
               else if last == DroppedReservation then false else Reserved(t[..|t| - 1])
  }

  /** Whether its models are in memory after `t`. */
  ghost predicate Loaded(t: Trace) {
    t != [] && var last := t[|t| - 1];
               if last == LoadedModels then true else if last == DroppedModels then false else Loaded(t[..|t| - 1])
  }

  ghost function Checks(t: Trace): nat {
    if t == [] then 0 else Checks(t[..|t| - 1]) + if t[|t| - 1].Checked? then 1 else 0
  }

  ghost function TotalSlept(t: Trace): real {
    if t == [] then 0.0 else TotalSlept(t[..|t| - 1]) + if t[|t| - 1].Slept? then t[|t| - 1].seconds else 0.0
  }

  predicate Below(level: Pressure, limit: Pressure) {
    (level == Normal && limit != Normal) || (level == Warn && limit == Critical)
  }

  /** One process. The methods are its calls to the outside. */
  class Process {
    var now: real
    var lockHeld: bool
    var reserved: bool
    var loaded: bool
    ghost var trace: Trace

    ghost predicate Valid()
      reads this
    {
      lockHeld == Locked(trace) && reserved == Reserved(trace) && loaded == Loaded(trace)
    }

    constructor ()
      ensures Valid() && trace == [] && !lockHeld && !reserved && !loaded
    {
      now, lockHeld, reserved, loaded, trace := 0.0, false, false, false, [];
    }

    method AskPause() returns (paused: bool)
      requires Valid()
      modifies this
      ensures Valid() && trace == old(trace) + [AskedPause(paused)]
      ensures lockHeld == old(lockHeld) && reserved == old(reserved) && loaded == old(loaded) && now >= old(now)
    {
      paused := *;
      PassTime();
      trace := trace + [AskedPause(paused)];
    }

    method AskNotices() returns (notices: Notices)
      requires Valid()
      modifies this
      ensures Valid() && trace == old(trace) + [AskedNotices(notices)]
      ensures lockHeld == old(lockHeld) && reserved == old(reserved) && loaded == old(loaded) && now >= old(now)
    {
      notices := *;
      PassTime();
      trace := trace + [AskedNotices(notices)];
    }

    method AskPressure() returns (level: Option<Pressure>)
      requires Valid()
      modifies this
      ensures Valid() && trace == old(trace) + [AskedPressure(level)]
      ensures lockHeld == old(lockHeld) && reserved == old(reserved) && loaded == old(loaded) && now >= old(now)
    {
      level := *;
      PassTime();
      trace := trace + [AskedPressure(level)];
    }

    /** `MemoryAdmission.check`: a yes leaves the reservation in force. */
    method Check() returns (admitted: bool)
      requires Valid()
      modifies this
      ensures Valid() && trace == old(trace) + [Checked(admitted)]
      ensures lockHeld == old(lockHeld) && reserved == (admitted || old(reserved)) && loaded == old(loaded)
                && now >= old(now)
    {
      admitted := *;
      PassTime();
      reserved := admitted || reserved;
      trace := trace + [Checked(admitted)];
    }

    /** Sleeps at least as long as asked. */
    method Sleep(seconds: real)
      requires Valid()
      modifies this
      ensures Valid() && trace == old(trace) + [Slept(seconds)]
      ensures lockHeld == old(lockHeld) && reserved == old(reserved) && loaded == old(loaded)
                && now >= old(now) + seconds
    {
      now := now + seconds;
      PassTime();
      trace := trace + [Slept(seconds)];
    }

    /** The heavy lock's `acquire` and `release`, both idempotent. */
    method TakeLock() returns (ok: bool)
      requires Valid()
      modifies this
      ensures Valid() && ok == lockHeld && reserved == old(reserved) && loaded == old(loaded)
      ensures old(lockHeld) ==> ok
      ensures trace == if old(lockHeld) then old(trace) else old(trace) + [if ok then TookLock else LockRefused]
    {
      if lockHeld {
        return true;
      }
      ok := *;
      lockHeld := ok;
      trace := trace + [if ok then TookLock else LockRefused];
    }

    method DropLock()
      requires Valid()
      modifies this
      ensures Valid() && !lockHeld && reserved == old(reserved) && loaded == old(loaded)
      ensures trace == if old(lockHeld) then old(trace) + [DroppedLock] else old(trace)
    {
      if lockHeld {
        lockHeld := false;
        trace := trace + [DroppedLock];
      }
    }

    method DropReservation()
      requires Valid()
      modifies this
      ensures Valid() && !reserved && lockHeld == old(lockHeld) && loaded == old(loaded)
      ensures trace == old(trace) + [DroppedReservation]
    {
      reserved := false;
      trace := trace + [DroppedReservation];
    }

    /** The weights load lazily, with the first unit that needs them. */
    method LoadModels()
      requires Valid()
      modifies this
      ensures Valid() && loaded && trace == old(trace) + [LoadedModels]
      ensures lockHeld == old(lockHeld) && reserved == old(reserved)
    {
      PassTime();
      loaded := true;
      trace := trace + [LoadedModels];
    }

    method DropModels()
      requires Valid()
      modifies this
      ensures Valid() && !loaded && lockHeld == old(lockHeld) && reserved == old(reserved)
      ensures trace == if old(loaded) then old(trace) + [DroppedModels] else old(trace)
    {
      if loaded {
        loaded := false;
        trace := trace + [DroppedModels];
      }
    }

    /** One unit of heavy work: a chat segmented, a batch embedded. */
    method DoUnit() returns (fails: bool)
      requires Valid()
      modifies this
      ensures Valid() && trace == old(trace) + [DidUnit(fails)]
      ensures lockHeld == old(lockHeld) && reserved == old(reserved) && loaded == old(loaded)
    {
      fails := *;
      PassTime();
      trace := trace + [DidUnit(fails)];
    }

    method PassTime()
      modifies this`now
      ensures now >= old(now)
    {
      var later: real := *;
      if later > now {
        now := later;
      }
    }
  }

  class Gate {
    const process: Process
    const maxWait: real
    const poll: real
    const stopAt: Pressure
    const warnConfirm: real
    var modelsAdmitted: bool

    constructor (process: Process, maxWait: real, poll: real, stopAt: Pressure, warnConfirm: real)
      ensures this.process == process && this.maxWait == maxWait && this.poll == poll
      ensures this.stopAt == stopAt && this.warnConfirm == warnConfirm && !modelsAdmitted
    {
      this.process, this.maxWait, this.poll, this.stopAt, this.warnConfirm :=
          process, maxWait, poll, stopAt, warnConfirm;
      this.modelsAdmitted := false;
    }

    /** Waits for a yes, at most `maxWait`; `None` is go. Whatever the answers
        and however late the sleeps, it asks for no more than `maxWait` of
        sleep, checks no more often than `poll` allows, never checks past a
        pause it was just told of, and says go exactly when its last act was a
        check that left a reservation. */
    method Admit() returns (reason: Option<StopReason>, ghost t: Trace)
      requires process.Valid() && poll > 0.0 && maxWait >= 0.0
      modifies this, process
      ensures process.Valid() && process.lockHeld == old(process.lockHeld) && process.loaded == old(process.loaded)
      ensures process.trace == old(process.trace) + t && Answered(t, reason, poll, maxWait)
      ensures reason == Some(Memory) ==> process.now >= old(process.now) + maxWait
      ensures process.reserved <==> old(process.reserved) || reason == None
      ensures modelsAdmitted == (old(modelsAdmitted) || reason == None)
    {
      ghost var before, had := process.trace, process.reserved;
      var paused := process.AskPause();
      t := [AskedPause(paused)];
      if paused {
        PausedAtOnce(poll, maxWait);
        return Some(Paused), t;
      }
      var started := process.now;
      var admitted := process.Check();
      FirstCheck(admitted, process.now - started, poll, maxWait);
      assert process.trace == before + ([AskedPause(false)] + [Checked(admitted)]);
      reason, t := Wait(started, admitted, had, before, [AskedPause(false)] + [Checked(admitted)]);
      if reason == None {
        modelsAdmitted := true;
      }
    }

    /** Re-checks until a yes, a pause, or the end of the wait. */
    method Wait(started: real, first: bool, ghost had: bool, ghost before: Trace, ghost t0: Trace)
        returns (reason: Option<StopReason>, ghost t: Trace)
      requires process.Valid() && poll > 0.0 && maxWait >= 0.0 && process.reserved == (had || first)
      requires process.trace == before + t0 && started <= process.now
      requires Waiting(t0, first, 0, process.now - started, poll, maxWait)
      modifies process
      ensures process.Valid() && process.lockHeld == old(process.lockHeld) && process.loaded == old(process.loaded)
      ensures process.trace == before + t && Answered(t, reason, poll, maxWait)
      ensures reason == Some(Memory) ==> process.now >= started + maxWait
      ensures process.reserved <==> had || reason == None
    {
      var admitted := first;
      t := t0;
      ghost var sleeps: nat := 0;
      ghost var limit := SleepLimit(maxWait, poll);
      while !admitted
        invariant process.Valid() && process.lockHeld == old(process.lockHeld) && process.loaded == old(process.loaded)
        invariant process.trace == before + t && process.reserved == (had || admitted) && started <= process.now
        invariant Waiting(t, admitted, sleeps, process.now - started, poll, maxWait)
        decreases limit - sleeps
      {
        var waited := process.now - started;
        if waited >= maxWait {
          EndsWaiting(t, admitted, sleeps, waited, poll, maxWait);
          return Some(Memory), t;
        }
        StillTime(t, sleeps, waited, limit, poll, maxWait);
        var paused;
        paused, admitted, t := AnotherRound(started, waited, sleeps, before, t);
        if paused {
          return Some(Paused), t;
        }
        sleeps := sleeps + 1;
      }
      EndsWaiting(t, admitted, sleeps, process.now - started, poll, maxWait);
      reason := None;
    }

    /** One sleep, one look at the pause and, unless paused, one more check. */
    method AnotherRound(started: real, waited: real, ghost sleeps: nat, ghost before: Trace, ghost t0: Trace)
        returns (paused: bool, admitted: bool, ghost t: Trace)
      requires process.Valid() && poll > 0.0
      requires process.trace == before + t0 && waited == process.now - started && 0.0 <= waited < maxWait
      requires Waiting(t0, false, sleeps, waited, poll, maxWait)
      modifies process
      ensures process.Valid() && process.lockHeld == old(process.lockHeld) && process.loaded == old(process.loaded)
      ensures process.trace == before + t && process.reserved == (old(process.reserved) || admitted)
                && started <= process.now
      ensures paused ==> !admitted && Answered(t, Some(Paused), poll, maxWait)
      ensures !paused ==> Waiting(t, admitted, sleeps + 1, process.now - started, poll, maxWait)
    {
      var wait := if poll < maxWait - waited then poll else maxWait - waited;
      paused := SleepThenAskPause(wait);
      NextRound(t0, sleeps, waited, wait, paused, poll, maxWait);
      t := t0 + [Slept(wait)] + [AskedPause(paused)];
      admitted := false;
      if !paused {
        admitted := process.Check();
        NextCheck(t0, sleeps, waited, wait, admitted, process.now - started, poll, maxWait);
        t := t + [Checked(admitted)];
      }
    }

    /** What `stop_at_once` asked and what it makes of the answers: the pause
        first, and a notice only of a command whose models were admitted. */
    ghost predicate AtOnce(t: Trace, reason: Option<StopReason>)
      reads this`modelsAdmitted
    {
      if t == [AskedPause(true)] then reason == Some(Paused)
      else if t == [AskedPause(false)] then !modelsAdmitted && reason == None
      else
        && modelsAdmitted && |t| == 2 && t[0] == AskedPause(false) && t[1].AskedNotices?
        && reason == if t[1].notices == NonePosted then None else Some(Memory)
    }

    /** The checks that need no confirmation: paused, or, once models have been
        admitted, a live server's notice posted or not readable. */
    method StopAtOnce() returns (reason: Option<StopReason>, ghost t: Trace)
      requires process.Valid()
      modifies process
      ensures process.Valid() && process.trace == old(process.trace) + t && AtOnce(t, reason)
      ensures process.lockHeld == old(process.lockHeld) && process.reserved == old(process.reserved)
      ensures process.loaded == old(process.loaded)
    {
      var paused := process.AskPause();
      t := [AskedPause(paused)];
      if paused {
        return Some(Paused), t;
      }
      if modelsAdmitted {
        var notices := process.AskNotices();
        t := t + [AskedNotices(notices)];
        return (if notices == NonePosted then None else Some(Memory)), t;
      }
      reason := None;
    }

    predicate Bad(level: Option<Pressure>) {
      level == None || level.value.Severity() >= stopAt.Severity()
    }

    /** The pressure readings and what they say. One below `stopAt` lets work go
        on. Pressure that cannot be read or is critical stops it at once, and so
        does any other when there is nothing to wait for; else the second
        reading, `warnConfirm` later, decides. */
    ghost predicate Readings(t: Trace, stop: bool) {
      && t != [] && t[0].AskedPressure?
      && match t[0].level
         case None => |t| == 1 && stop
         case Some(level) =>
           if Below(level, stopAt) then |t| == 1 && !stop
           else if level == Critical || warnConfirm <= 0.0 then |t| == 1 && stop
           else
             && |t| == 3 && t[1] == Slept(warnConfirm) && t[2].AskedPressure?
             && (stop <==> t[2].level == None || !Below(t[2].level.value, stopAt))
    }

    method ReadPressure() returns (stop: bool, ghost t: Trace)
      requires process.Valid()
      modifies process
      ensures process.Valid() && process.trace == old(process.trace) + t && Readings(t, stop)
      ensures process.lockHeld == old(process.lockHeld) && process.reserved == old(process.reserved)
      ensures process.loaded == old(process.loaded)
    {
      var level := process.AskPressure();
      t := [AskedPressure(level)];
      if level == None {
        return true, t;
      }
      if !Bad(level) {
        return false, t;
      }
      if level == Some(Critical) || warnConfirm <= 0.0 {
        return true, t;
      }
      process.Sleep(warnConfirm);
      var again := process.AskPressure();
      t := t + [Slept(warnConfirm)] + [AskedPressure(again)];
      stop := Bad(again);
    }

    /** Asked between units: what stops at once, and then the pressure. */
    method BetweenUnits() returns (reason: Option<StopReason>, ghost asked: Trace, ghost read: Trace)
      requires process.Valid()
      modifies process
      ensures process.Valid() && process.trace == old(process.trace) + (asked + read)
      ensures process.lockHeld == old(process.lockHeld) && process.reserved == old(process.reserved)
      ensures process.loaded == old(process.loaded)
      ensures if read == [] then reason.Some? && AtOnce(asked, reason)
              else AtOnce(asked, None) && Readings(read, reason.Some?) && reason != Some(Paused)
    {
      ghost var before := process.trace;
      reason, asked := StopAtOnce();
      if reason.Some? {
        assert before + asked == before + (asked + []);
        return reason, asked, [];
      }
      var stop;
      stop, read := ReadPressure();
      assert before + asked + read == before + (asked + read);
      reason := if stop then Some(Memory) else None;
    }

    method SleepThenAskPause(wait: real) returns (paused: bool)
      requires process.Valid()
      modifies process
      ensures process.Valid() && process.trace == old(process.trace) + [Slept(wait)] + [AskedPause(paused)]
      ensures process.lockHeld == old(process.lockHeld) && process.reserved == old(process.reserved)
      ensures process.loaded == old(process.loaded)
      ensures process.now >= old(process.now) + wait
    {
      process.Sleep(wait);
      paused := process.AskPause();
    }
  }

  // ------------------------------------------------ any calls on one gate

  datatype Call = AdmitCall | BetweenUnitsCall

  /** What one call asked, and what it answered. */
  datatype Answer =
    | Admitted(reason: Option<StopReason>, t: Trace)
    | Between(reason: Option<StopReason>, asked: Trace, read: Trace)

  function ActsOf(a: Answer): Trace {
    if a.Admitted? then a.t else a.asked + a.read
  }

  function Acts(answers: seq<Answer>): Trace {
    if answers == [] then [] else Acts(answers[..|answers| - 1]) + ActsOf(answers[|answers| - 1])
  }

  function CallsOf(answers: seq<Answer>): seq<Call> {
    if answers == [] then []
    else CallsOf(answers[..|answers| - 1]) + [if answers[|answers| - 1].Between? then BetweenUnitsCall else AdmitCall]
  }

  /** One of these calls said go. */
  predicate SaidGo(answers: seq<Answer>) {
    answers != []
    && (SaidGo(answers[..|answers| - 1]) || (answers[|answers| - 1].Admitted? && answers[|answers| - 1].reason == None))
  }

  /** What `between_units` does with a live server's notice: before any
      admission it does not look; from one on it looks whenever it is not
      paused, and stops at once exactly for a notice posted or unreadable. */
  ghost predicate HeedsNotices(a: Answer, admitted: bool)
    requires a.Between?
  {
    var paused := a.asked == [AskedPause(true)];
    && (paused ==> a.reason == Some(Paused) && a.read == [])
    && (!paused && !admitted ==> a.asked == [AskedPause(false)] && a.read != [])
    && (!paused && admitted ==>
          && |a.asked| == 2 && a.asked[0] == AskedPause(false) && a.asked[1].AskedNotices?
          && (a.read == [] <==> a.asked[1].notices != NonePosted)
          && (a.read == [] ==> a.reason == Some(Memory)))
  }

  ghost predicate AllHeed(answers: seq<Answer>) {
    answers == []
    || (var init, last := answers[..|answers| - 1], answers[|answers| - 1];
        AllHeed(init) && (last.Between? ==> HeedsNotices(last, SaidGo(init))))
  }

  /** From an admission on, and only then, a posted or unreadable notice stops
      work: so at every `between_units` of the sequence. */
  lemma {:induction false} HeedThroughout(answers: seq<Answer>, k: nat)
    requires AllHeed(answers) && k < |answers| && answers[k].Between?
    ensures HeedsNotices(answers[k], SaidGo(answers[..k]))
    ensures SaidGo(answers[..k]) <==> exists j :: 0 <= j < k && answers[j].Admitted? && answers[j].reason == None
    decreases |answers|
  {
    var init := answers[..|answers| - 1];
    if k < |init| {
      assert init[..k] == answers[..k] && init[k] == answers[k];
      HeedThroughout(init, k);
      assert forall j :: 0 <= j < k ==> init[j] == answers[j];
    } else {
      SaidGoSometime(init);
    }
  }

  lemma {:induction false} SaidGoSometime(answers: seq<Answer>)
    ensures SaidGo(answers) <==> exists j :: 0 <= j < |answers| && answers[j].Admitted? && answers[j].reason == None
  {
    if answers != [] {
      var init := answers[..|answers| - 1];
      SaidGoSometime(init);
      assert forall j :: 0 <= j < |init| ==> init[j] == answers[j];
    }
  }

  /** The gate has given these answers since `start`: its process did what they
      say, each heeded the notices as it should, and the gate remembers whether
      any of them said go. */
  ghost predicate CalledSoFar(gate: Gate, start: Trace, answers: seq<Answer>)
    reads gate, gate.process
  {
    && gate.process.Valid() && gate.process.trace == start + Acts(answers)
    && AllHeed(answers) && (gate.modelsAdmitted <==> SaidGo(answers))
  }

  /** Any sequence of `admit` and `between_units` calls on one gate. */
  method AnyCalls(gate: Gate, calls: seq<Call>) returns (ghost answers: seq<Answer>)
    requires gate.process.Valid() && gate.poll > 0.0 && gate.maxWait >= 0.0 && !gate.modelsAdmitted
    modifies gate, gate.process
    ensures CallsOf(answers) == calls && CalledSoFar(gate, old(gate.process.trace), answers)
  {
    answers := [];
    ghost var start := gate.process.trace;
    assert start + [] == start;
    for i := 0 to |calls|
      invariant CallsOf(answers) == calls[..i] && CalledSoFar(gate, start, answers)
    {
      answers := OneMoreCall(gate, calls[i], start, answers);
      assert calls[..i] + [calls[i]] == calls[..i + 1];
    }
    assert calls[..|calls|] == calls;
  }

  method OneCall(gate: Gate, call: Call) returns (ghost a: Answer)
    requires gate.process.Valid() && gate.poll > 0.0 && gate.maxWait >= 0.0
    modifies gate, gate.process
    ensures gate.process.Valid() && gate.process.trace == old(gate.process.trace) + ActsOf(a)
    ensures a.Between? <==> call == BetweenUnitsCall
    ensures a.Between? ==> HeedsNotices(a, old(gate.modelsAdmitted))
    ensures gate.modelsAdmitted <==> old(gate.modelsAdmitted) || (a.Admitted? && a.reason == None)
  {
    if call == AdmitCall {
      var reason, t := gate.Admit();
      a := Admitted(reason, t);
    } else {
      var reason, asked, read := gate.BetweenUnits();
      a := Between(reason, asked, read);
    }
  }

  lemma OneMoreAnswer(answers: seq<Answer>, a: Answer, start: Trace)
    requires AllHeed(answers) && (a.Between? ==> HeedsNotices(a, SaidGo(answers)))
    ensures AllHeed(answers + [a])
    ensures SaidGo(answers + [a]) <==> SaidGo(answers) || (a.Admitted? && a.reason == None)
    ensures start + Acts(answers) + ActsOf(a) == start + Acts(answers + [a])
  {
    assert (answers + [a])[..|answers|] == answers;
    assert start + Acts(answers) + ActsOf(a) == start + (Acts(answers) + ActsOf(a));
  }

  method OneMoreCall(gate: Gate, call: Call, ghost start: Trace, ghost before: seq<Answer>)
      returns (ghost answers: seq<Answer>)
    requires gate.poll > 0.0 && gate.maxWait >= 0.0
    requires CalledSoFar(gate, start, before)
    modifies gate, gate.process
    ensures CallsOf(answers) == CallsOf(before) + [call] && CalledSoFar(gate, start, answers)
  {
    ghost var a := OneCall(gate, call);
    OneMoreAnswer(before, a, start);
    answers := before + [a];
    assert answers[..|before|] == before;
  }

  // ---------------------------------------------------- the laws of a wait

  /** It asks for no more sleep than the wait, and checks no more often than
      `poll` allows. */
  ghost predicate WellPaced(t: Trace, poll: real, maxWait: real) {
    && TotalSlept(t) <= maxWait
    && (Checks(t) > 2 ==> (Checks(t) - 2) as real * poll < maxWait)
  }

  /** Whether the pause is asked about, a check, and a sleep of at most `poll`,
      by turns; a sleep only after a no, and nothing after a yes or a pause. */
  ghost predicate Orderly(t: Trace, poll: real) {
    t == [] || (Orderly(t[..|t| - 1], poll) && MayFollow(t[..|t| - 1], t[|t| - 1], poll))
  }

  ghost predicate MayFollow(t: Trace, a: Act, poll: real) {
    match a
    case AskedPause(_) => t == [] || t[|t| - 1].Slept?
    case Checked(_) => t != [] && t[|t| - 1] == AskedPause(false)
    case Slept(seconds) => t != [] && t[|t| - 1] == Checked(false) && 0.0 < seconds <= poll
    case _ => false
  }

  lemma {:induction false} OrderlyThroughout(t: Trace, poll: real, k: nat)
    requires Orderly(t, poll) && k < |t|
    ensures t[k].AskedPause? || t[k].Checked? || t[k].Slept?
    ensures t[k].Checked? ==> k > 0 && t[k - 1] == AskedPause(false)
    ensures t[k].Slept? ==> k > 0 && t[k - 1] == Checked(false) && 0.0 < t[k].seconds <= poll
    ensures t[k] == AskedPause(true) || t[k] == Checked(true) ==> k == |t| - 1
    decreases |t|
  {
    if k < |t| - 1 {
      OrderlyThroughout(t[..|t| - 1], poll, k);
    }
  }

  /** What `admit` did and why it ended: on a yes, a pause, or a last refusal. */
  ghost predicate Answered(t: Trace, reason: Option<StopReason>, poll: real, maxWait: real) {
    && t != [] && WellPaced(t, poll, maxWait) && Orderly(t, poll)
    && t[|t| - 1] == match reason
                     case None => Checked(true)
                     case Some(Paused) => AskedPause(true)
                     case Some(Memory) => Checked(false)
  }

  /** A wait so far: it has just checked, after `sleeps` sleeps, `elapsed` in. */
  ghost predicate Waiting(t: Trace, admitted: bool, sleeps: nat, elapsed: real, poll: real, maxWait: real) {
    && t != [] && t[|t| - 1] == Checked(admitted) && Orderly(t, poll)
    && Checks(t) == sleeps + 1 && TotalSlept(t) <= elapsed && TotalSlept(t) <= maxWait
    && (elapsed >= maxWait || elapsed >= sleeps as real * poll)
    && (sleeps > 0 ==> (sleeps - 1) as real * poll < maxWait)
  }

  lemma PausedAtOnce(poll: real, maxWait: real)
    requires maxWait >= 0.0
    ensures Answered([AskedPause(true)], Some(Paused), poll, maxWait)
  {
    Appended([], AskedPause(true), poll);
    assert [] + [AskedPause(true)] == [AskedPause(true)];
  }

  lemma FirstCheck(admitted: bool, elapsed: real, poll: real, maxWait: real)
    requires maxWait >= 0.0 && elapsed >= 0.0
    ensures Waiting([AskedPause(false)] + [Checked(admitted)], admitted, 0, elapsed, poll, maxWait)
  {
    Appended([], AskedPause(false), poll);
    Appended([AskedPause(false)], Checked(admitted), poll);
    assert [] + [AskedPause(false)] == [AskedPause(false)];
  }

  lemma EndsWaiting(t: Trace, admitted: bool, sleeps: nat, elapsed: real, poll: real, maxWait: real)
    requires Waiting(t, admitted, sleeps, elapsed, poll, maxWait)
    ensures WellPaced(t, poll, maxWait) && Orderly(t, poll) && t != [] && t[|t| - 1] == Checked(admitted)
  {
    if sleeps > 0 {
      assert Checks(t) - 2 == sleeps - 1;
    }
  }

  /** Another sleep and another pause question. */
  lemma NextRound(t: Trace, sleeps: nat, waited: real, wait: real, paused: bool, poll: real, maxWait: real)
    requires Waiting(t, false, sleeps, waited, poll, maxWait) && waited < maxWait && poll > 0.0
    requires wait == if poll < maxWait - waited then poll else maxWait - waited
    ensures var t' := t + [Slept(wait)] + [AskedPause(paused)];
            && Orderly(t', poll) && Checks(t') == sleeps + 1 && TotalSlept(t') == TotalSlept(t) + wait
            && WellPaced(t', poll, maxWait)
  {
    Appended(t, Slept(wait), poll);
    Appended(t + [Slept(wait)], AskedPause(paused), poll);
    EndsWaiting(t, false, sleeps, waited, poll, maxWait);
  }

  /** ... and another check. */
  lemma NextCheck(t: Trace, sleeps: nat, waited: real, wait: real, admitted: bool, elapsed: real, poll: real,
                  maxWait: real)
    requires Waiting(t, false, sleeps, waited, poll, maxWait) && waited < maxWait && poll > 0.0
    requires wait == if poll < maxWait - waited then poll else maxWait - waited
    requires elapsed >= waited + wait
    ensures Waiting(t + [Slept(wait)] + [AskedPause(false)] + [Checked(admitted)],
                    admitted, sleeps + 1, elapsed, poll, maxWait)
  {
    NextRound(t, sleeps, waited, wait, false, poll, maxWait);
    var t' := t + [Slept(wait)] + [AskedPause(false)];
    Appended(t', Checked(admitted), poll);
    assert (sleeps + 1) as real * poll == sleeps as real * poll + poll;
  }

  lemma Appended(t: Trace, a: Act, poll: real)
    ensures Checks(t + [a]) == Checks(t) + if a.Checked? then 1 else 0
    ensures TotalSlept(t + [a]) == TotalSlept(t) + if a.Slept? then a.seconds else 0.0
    ensures Orderly(t + [a], poll) <==> Orderly(t, poll) && MayFollow(t, a, poll)
  {
    assert (t + [a])[..|t|] == t;
  }

  lemma TimesGrows(a: real, b: real, c: real)
    requires a <= b && c >= 0.0
    ensures a * c <= b * c
  {
    assert (b - a) * c >= 0.0;
  }

  /** A number of sleeps of `poll` that covers the whole wait. */
  ghost function SleepLimit(maxWait: real, poll: real): (n: nat)
    requires poll > 0.0 && maxWait >= 0.0
    ensures n as real * poll >= maxWait
  {
    var q := maxWait / poll;
    assert q * poll == maxWait;
    assert q >= 0.0;
    var n := q.Floor + 1;
    TimesGrows(q, n as real, poll);
    n
  }

  lemma FewerThan(sleeps: nat, limit: nat, poll: real, maxWait: real)
    requires poll > 0.0 && sleeps as real * poll < maxWait <= limit as real * poll
    ensures sleeps < limit
  {
    if sleeps >= limit {
      assert limit as real <= sleeps as real;
      TimesGrows(limit as real, sleeps as real, poll);
    }
  }

  /** While there is time left there are sleeps left. */
  lemma StillTime(t: Trace, sleeps: nat, waited: real, limit: nat, poll: real, maxWait: real)
    requires Waiting(t, false, sleeps, waited, poll, maxWait) && waited < maxWait && poll > 0.0
    requires limit == SleepLimit(maxWait, poll)
    ensures sleeps < limit
  {
    FewerThan(sleeps, limit, poll, maxWait);
  }
}
