/** `segment`, `embed` and `sync`: in what order each takes and lets go of the
    heavy lock and its memory reservation, on every path out. */
module HeavySteps {
  import opened Common
  import opened BackgroundGate
  import opened HeavyUnits

  // ------------------------------------------------------------ the discipline

  /** A reservation is held only under the heavy lock, and models are loaded
      and heavy work is done only under both. */
  ghost predicate Disciplined(t: Trace) {
    t == []
    || (var init := t[..|t| - 1];
        && Disciplined(init)
        && (Reserved(t) ==> Locked(t))
        && (Heavy(t[|t| - 1]) ==> Locked(init) && Reserved(init)))
  }

  /** At every moment models in memory are covered by both the lock and the
      reservation. */
  ghost predicate Covered(t: Trace) {
    t == [] || (Covered(t[..|t| - 1]) && (Loaded(t) ==> Locked(t) && Reserved(t)))
  }

  /** How often models have been loaded. */
  ghost function Loads(t: Trace): nat {
    if t == [] then 0 else Loads(t[..|t| - 1]) + if t[|t| - 1] == LoadedModels then 1 else 0
  }

  /** Neither lets go of anything nor does anything heavy. */
  predicate Asking(t: Trace) {
    forall k :: 0 <= k < |t| ==>
        !LetsGo(t[k]) && !Heavy(t[k])
  }

  lemma Snoc(t: Trace, a: Act)
    ensures Locked(t + [a]) == if a == TookLock then true else if a == DroppedLock then false else Locked(t)
    ensures Reserved(t + [a]) == if a == Checked(true) then true else if a == DroppedReservation then false
              else Reserved(t)
    ensures Loaded(t + [a]) == if a == LoadedModels then true else if a == DroppedModels then false else Loaded(t)
    ensures Loads(t + [a]) == Loads(t) + if a == LoadedModels then 1 else 0
    ensures Doings(t + [a]) == Doings(t) + if LetsGo(a) then [] else [a]
    ensures Disciplined(t + [a]) ==
              (Disciplined(t) && (Reserved(t + [a]) ==> Locked(t + [a])) && (Heavy(a) ==> Locked(t) && Reserved(t)))
    ensures Covered(t + [a]) == (Covered(t) && (Loaded(t + [a]) ==> Locked(t + [a]) && Reserved(t + [a])))
  {
    assert (t + [a])[..|t|] == t;
  }

  /** Under the lock, asking keeps the discipline. */
  lemma {:induction false} AskingKeepsDiscipline(s: Trace, t: Trace)
    requires Disciplined(s) && Locked(s) && Asking(t)
    ensures Disciplined(s + t) && Locked(s + t) && (Reserved(s) ==> Reserved(s + t))
    ensures Loaded(s + t) == Loaded(s) && Loads(s + t) == Loads(s)
    ensures Covered(s) && (Loaded(s) ==> Reserved(s)) ==> Covered(s + t)
    decreases |t|
  {
    if t == [] {
      assert s + t == s;
    } else {
      var init, a := t[..|t| - 1], t[|t| - 1];
      AskingKeepsDiscipline(s, init);
      Snoc(s + init, a);
      assert s + t == (s + init) + [a];
    }
  }

  lemma {:induction false} AskingIsDone(s: Trace, t: Trace)
    requires Asking(t)
    ensures Doings(s + t) == Doings(s) + t
    decreases |t|
  {
    if t == [] {
      assert s + t == s;
    } else {
      var init, a := t[..|t| - 1], t[|t| - 1];
      AskingIsDone(s, init);
      Snoc(s + init, a);
      assert s + t == (s + init) + [a];
      assert t == init + [a];
    }
  }

  /** ... and so does waiting for memory. */
  lemma WaitingKeepsDiscipline(s: Trace, t: Trace, poll: real)
    requires Disciplined(s) && Locked(s) && Orderly(t, poll)
    ensures Disciplined(s + t) && Locked(s + t) && Doings(s + t) == Doings(s) + t
    ensures Loaded(s + t) == Loaded(s) && Loads(s + t) == Loads(s)
    ensures Covered(s) && (Loaded(s) ==> Reserved(s)) ==> Covered(s + t)
  {
    forall k | 0 <= k < |t| ensures !LetsGo(t[k]) && !Heavy(t[k]) {
      OrderlyThroughout(t, poll, k);
    }
    AskingKeepsDiscipline(s, t);
    AskingIsDone(s, t);
  }

  /** What the discipline says of every moment of the trace. */
  lemma {:induction false} DisciplineThroughout(t: Trace, k: nat)
    requires Disciplined(t) && k <= |t|
    ensures Reserved(t[..k]) ==> Locked(t[..k])
    ensures k < |t| && Heavy(t[k]) ==> Locked(t[..k]) && Reserved(t[..k])
    ensures Covered(t) && Loaded(t[..k]) ==> Locked(t[..k]) && Reserved(t[..k])
    decreases |t|
  {
    assert t[..|t|] == t;
    if k < |t| {
      assert t[..|t| - 1][..k] == t[..k];
      DisciplineThroughout(t[..|t| - 1], k);
    }
  }

  /** Since the trace was `n` long, neither the lock nor memory was asked for,
      and nothing heavy was done. */
  ghost predicate LightSince(t: Trace, n: nat) {
    |t| <= n
    || (var init, last := t[..|t| - 1], t[|t| - 1];
        LightSince(init, n) && last != TookLock && last != LockRefused && !last.Checked? && !Heavy(last))
  }

  lemma {:induction false} LightThroughout(t: Trace, n: nat, k: nat)
    requires LightSince(t, n) && n <= k < |t|
    ensures t[k] != TookLock && t[k] != LockRefused && !t[k].Checked? && !Heavy(t[k])
    decreases |t|
  {
    if k < |t| - 1 {
      LightThroughout(t[..|t| - 1], n, k);
    }
  }

  // ------------------------------------------------------- sync's heavy steps

  /** Under lock and reservation, with any models in memory covered. */
  ghost predicate Working(process: Process)
    reads process
  {
    process.Valid() && process.lockHeld && process.reserved && Disciplined(process.trace) && Covered(process.trace)
  }

  /** One thing after another, after `start`. */
  lemma InTurn(start: Trace, first: Trace, second: Trace)
    ensures start + first + second == start + (first + second)
  {
  }

  lemma BeginningIs(start: Trace, tookLock: bool, asked: Trace)
    ensures start + [AskedPause(false)] + (if tookLock then [TookLock] else []) + asked
              == start + BeginningActs(Waited(tookLock, asked))
    ensures start + [AskedPause(false)] + [LockRefused] == start + BeginningActs(LockBusy)
  {
  }

  lemma NotBegunIs(start: Trace, b: Beginning)
    ensures start + BeginningActs(b) == start + StepActs(Step(b, None))
  {
  }

  /** After `i` units, none of them failed. */
  ghost predicate DidSoFar(gate: Gate, start: Trace, doings: Trace, turns: seq<Turn>, i: nat) {
    doings == start + AllActs(turns) && AllOnGo(gate, turns) && NoneFailed(turns) && |turns| == i
  }

  lemma OneMoreTurn(gate: Gate, start: Trace, doings: Trace, turns: seq<Turn>, i: nat, turn: Turn, units: nat)
    requires DidSoFar(gate, start, doings, turns, i) && i < units && SaysGo(gate, turn.asked, turn.read)
    ensures var w := Work(turns + [turn], [], []);
            && doings + TurnActs(turn) == start + WorkActs(w)
            && if turn.fails then DidUnits(gate, w, units, Failed)
               else DidSoFar(gate, start, doings + TurnActs(turn), turns + [turn], i + 1)
  {
    assert (turns + [turn])[..|turns|] == turns;
  }

  /** The units of one step, asking between them; the models load with the
      first unit that needs them. */
  method RunUnits(process: Process, gate: Gate, units: nat) returns (r: Outcome, ghost w: Work)
    requires Working(process) && gate.process == process && gate.modelsAdmitted && !process.loaded
    modifies process
    ensures Working(process)
    ensures Loads(process.trace) == Loads(old(process.trace)) + if process.loaded then 1 else 0
    ensures Doings(process.trace) == Doings(old(process.trace)) + WorkActs(w) && DidUnits(gate, w, units, r)
  {
    ghost var start, turns := Doings(process.trace), [];
    for i := 0 to units
      invariant Working(process)
      invariant Loads(process.trace) == Loads(old(process.trace)) + if process.loaded then 1 else 0
      invariant DidSoFar(gate, start, Doings(process.trace), turns, i)
    {
      ghost var doings, asked, read, loads := Doings(process.trace), [], [], false;
      var reason;
      reason, asked, read := AskBetween(process, gate);
      if reason.Some? {
        InTurn(start, AllActs(turns), asked + read);
        return Deferred(reason.value), Work(turns, asked, read);
      }
      var fails;
      fails, loads := OneUnit(process);
      ghost var turn := Turn(asked, read, loads, fails);
      OneMoreTurn(gate, start, doings, turns, i, turn, units);
      InTurn(doings, asked + read, (if loads then [LoadedModels] else []) + [DidUnit(fails)]);
      turns := turns + [turn];
      if fails {
        return Failed, Work(turns, [], []);
      }
    }
    r, w := Done, Work(turns, [], []);
    assert AllActs(turns) == WorkActs(w);
  }

  method AskBetween(process: Process, gate: Gate)
      returns (reason: Option<StopReason>, ghost asked: Trace, ghost read: Trace)
    requires Working(process) && gate.process == process && gate.modelsAdmitted
    modifies process
    ensures Working(process) && process.loaded == old(process.loaded)
              && Loads(process.trace) == Loads(old(process.trace))
    ensures Doings(process.trace) == Doings(old(process.trace)) + (asked + read)
    ensures if reason == None then SaysGo(gate, asked, read) else SaysStop(gate, asked, read, reason.value)
  {
    ghost var before := process.trace;
    reason, asked, read := gate.BetweenUnits();
    assert process.trace == before + (asked + read);
    AskingKeepsDiscipline(before, asked + read);
    AskingIsDone(before, asked + read);
  }

  method OneUnit(process: Process) returns (fails: bool, ghost loads: bool)
    requires Working(process)
    modifies process
    ensures Working(process) && (old(process.loaded) ==> process.loaded)
    ensures loads <==> process.loaded && !old(process.loaded)
    ensures Loads(process.trace) == Loads(old(process.trace)) + if loads then 1 else 0
    ensures Doings(process.trace) ==
              Doings(old(process.trace)) + ((if loads then [LoadedModels] else []) + [DidUnit(fails)])
  {
    ghost var start := Doings(process.trace);
    loads := LoadIfNeeded(process);
    ghost var before := process.trace;
    fails := process.DoUnit();
    Snoc(before, DidUnit(fails));
    assert start + (if loads then [LoadedModels] else []) + [DidUnit(fails)] ==
           start + ((if loads then [LoadedModels] else []) + [DidUnit(fails)]);
  }

  method LoadIfNeeded(process: Process) returns (ghost loads: bool)
    requires Working(process)
    modifies process
    ensures Working(process) && (old(process.loaded) ==> process.loaded)
    ensures loads <==> process.loaded && !old(process.loaded)
    ensures Loads(process.trace) == Loads(old(process.trace)) + if loads then 1 else 0
    ensures Doings(process.trace) == Doings(old(process.trace)) + if loads then [LoadedModels] else []
  {
    var needsModels: bool := *;
    loads := needsModels && !process.loaded;
    if needsModels && !process.loaded {
      Snoc(process.trace, LoadedModels);
      process.LoadModels();
    }
  }

  // ---------------------------------------------- before a step has its reservation

  /** `after` has kept what is kept while no reservation is held. */
  ghost predicate StillDisciplined(before: Trace, after: Trace) {
    && (Disciplined(before) ==> Disciplined(after)) && (Covered(before) ==> Covered(after))
    && Loads(after) == Loads(before)
  }

  method AskWhetherPaused(process: Process) returns (paused: bool)
    requires process.Valid() && !process.reserved && !process.loaded
    modifies process
    ensures process.Valid() && !process.reserved && !process.loaded && process.lockHeld == old(process.lockHeld)
    ensures StillDisciplined(old(process.trace), process.trace)
    ensures Doings(process.trace) == Doings(old(process.trace)) + [AskedPause(paused)]
  {
    ghost var before := process.trace;
    paused := process.AskPause();
    Snoc(before, AskedPause(paused));
  }

  /** `HeavyModelLock.acquire`. */
  method TakeTheLock(process: Process) returns (ok: bool)
    requires process.Valid() && !process.reserved && !process.loaded
    modifies process
    ensures process.Valid() && !process.reserved && !process.loaded && ok == process.lockHeld
    ensures old(process.lockHeld) ==> ok
    ensures StillDisciplined(old(process.trace), process.trace)
    ensures Doings(process.trace) == Doings(old(process.trace))
              + if old(process.lockHeld) then [] else [if ok then TookLock else LockRefused]
  {
    ghost var before := process.trace;
    ok := process.TakeLock();
    Snoc(before, if ok then TookLock else LockRefused);
  }


  class SyncHeavySteps {
    const process: Process
    const gate: Gate
    var admission: bool
    var deferred: Option<StopReason>
    /** How long the trace was when the first deferral had released everything. */
    ghost var deferredAt: nat

    /** No step has taken the lock or asked for memory since a deferral, neither
        is held after one, and until one models in memory are covered. */
    ghost predicate Valid()
      reads this, process, gate
    {
      && process.Valid() && gate.process == process
      && gate.poll > 0.0 && gate.maxWait >= 0.0
      && Disciplined(process.trace) && (deferred == None ==> Covered(process.trace))
      && (process.reserved ==> admission)
      && (deferred.Some? ==>
            && !process.lockHeld && !process.reserved && !admission && deferredAt <= |process.trace|
            && !Locked(process.trace[..deferredAt]) && !Reserved(process.trace[..deferredAt])
            && LightSince(process.trace, deferredAt))
    }

    constructor (process: Process, gate: Gate)
      requires process.Valid() && gate.process == process && gate.poll > 0.0 && gate.maxWait >= 0.0
      requires Disciplined(process.trace) && Covered(process.trace) && !process.reserved
      ensures this.process == process && this.gate == gate && deferred == None && !admission && Valid()
    {
      this.process, this.gate := process, gate;
      this.admission, this.deferred, this.deferredAt := false, None, 0;
    }

    /** A late act changes nothing of what was so at the deferral. */
    lemma StillDeferred(t: Trace, a: Act)
      requires deferredAt <= |t|
      ensures (t + [a])[..deferredAt] == t[..deferredAt]
      ensures LightSince(t + [a], deferredAt) <==>
        LightSince(t, deferredAt) && a != TookLock && a != LockRefused && !a.Checked? && !Heavy(a)
    {
      assert (t + [a])[..|t|] == t;
    }

    /** The reservation, if this step has asked for one. */
    method DropAdmission()
      requires process.Valid() && Disciplined(process.trace) && (process.reserved ==> admission)
      modifies this`admission, process
      ensures process.Valid() && Disciplined(process.trace) && !admission && !process.reserved
      ensures process.lockHeld == old(process.lockHeld) && process.loaded == old(process.loaded)
      ensures Loads(process.trace) == Loads(old(process.trace))
      ensures Doings(process.trace) == Doings(old(process.trace))
      ensures !old(admission) ==> process.trace == old(process.trace)
      ensures Covered(process.trace) <==> Covered(old(process.trace)) && !(old(admission) && process.loaded)
    {
      if admission {
        Snoc(process.trace, DroppedReservation);
        process.DropReservation();
        admission := false;
      }
    }

    method ReleaseAdmission()
      requires Valid() && (process.loaded ==> deferred.Some?)
      modifies this`admission, process
      ensures Valid() && !admission && !process.reserved
      ensures process.lockHeld == old(process.lockHeld) && process.loaded == old(process.loaded)
      ensures Loads(process.trace) == Loads(old(process.trace))
      ensures Doings(process.trace) == Doings(old(process.trace))
      ensures !process.loaded ==> (Covered(process.trace) <==> Covered(old(process.trace)))
    {
      DropAdmission();
    }

    /** `_release_models`. */
    method ReleaseModels()
      requires Valid()
      modifies process
      ensures Valid() && !process.loaded
      ensures process.lockHeld == old(process.lockHeld) && process.reserved == old(process.reserved)
      ensures Loads(process.trace) == Loads(old(process.trace))
      ensures Doings(process.trace) == Doings(old(process.trace))
      ensures Covered(process.trace) <==> Covered(old(process.trace))
    {
      if process.loaded {
        Snoc(process.trace, DroppedModels);
        if deferred.Some? {
          StillDeferred(process.trace, DroppedModels);
        }
        process.DropModels();
      }
    }

    /** Makes a deferral stick: lock and reservation are let go, at once. Models
        still in memory are then covered by neither. */
    method NoteStopped(reason: StopReason)
      requires Valid()
      modifies this, process
      ensures Valid() && deferred == Some(reason) && process.loaded == old(process.loaded)
      ensures Loads(process.trace) == Loads(old(process.trace))
      ensures Doings(process.trace) == Doings(old(process.trace))
      ensures old(process.lockHeld) ==>
                (Covered(process.trace) <==> Covered(old(process.trace)) && !process.loaded)
      ensures !process.loaded ==> (Covered(process.trace) <==> Covered(old(process.trace)))
    {
      deferred := Some(reason);
      DropAdmission();
      Snoc(process.trace, DroppedLock);
      process.DropLock();
      deferredAt := |process.trace|;
      assert process.trace[..deferredAt] == process.trace;
    }

    /** Before a heavy step. After a deferral it refuses without a question
        asked; otherwise it ends with the lock held and a reservation in force,
        or with neither and the deferral recorded, or (the lock busy and not to
        be waited for) with no reservation. */
    method Begin() returns (r: Outcome, ghost b: Beginning)
      requires Valid() && !admission && !process.loaded
      modifies this, process, gate
      ensures Valid() && !process.loaded && Loads(process.trace) == Loads(old(process.trace))
      ensures Covered(old(process.trace)) ==> Covered(process.trace)
      ensures old(deferred).Some? ==>
                && r == Deferred(old(deferred).value) && process.trace == old(process.trace)
                && deferred == old(deferred)
      ensures old(deferred) == None ==>
                && Begun(r) && Began(gate, old(process.lockHeld), b, r)
                && Doings(process.trace) == Doings(old(process.trace)) + BeginningActs(b)
    {
      b := SawPause;
      if deferred.Some? {
        return Deferred(deferred.value), b;
      }
      ghost var start, locked := Doings(process.trace), process.lockHeld;
      var paused := AskWhetherPaused(process);
      if paused {
        NoteStopped(Paused);
        return Deferred(Paused), SawPause;
      }
      var ok := TakeTheLock(process);
      if !ok {
        BeginningIs(start, true, []);
        return Failed, LockBusy;
      }
      admission := true;
      ghost var t;
      r, t := AskForMemory();
      b := Waited(!locked, t);
      BeginningIs(start, !locked, t);
    }

    /** How a step that was not deferred before may begin. */
    ghost predicate Begun(r: Outcome)
      reads this, process, gate
    {
      match r
      case Done => process.lockHeld && process.reserved && admission && deferred == None && gate.modelsAdmitted
      case Deferred(reason) => deferred == Some(reason)
      case Failed => !process.reserved && !admission && deferred == None
    }

    /** Under the lock: the wait for memory, and what a refusal lets go of. */
    method AskForMemory() returns (r: Outcome, ghost t: Trace)
      requires Valid() && admission && deferred == None && process.lockHeld && !process.reserved && !process.loaded
      modifies this, process, gate
      ensures Valid() && !process.loaded && Loads(process.trace) == Loads(old(process.trace))
      ensures Covered(process.trace) && r != Failed && Begun(r)
      ensures Doings(process.trace) == Doings(old(process.trace)) + t
      ensures Answered(t, ReasonOf(r), gate.poll, gate.maxWait)
    {
      ghost var before := process.trace;
      var reason;
      reason, t := gate.Admit();
      WaitingKeepsDiscipline(before, t, gate.poll);
      if reason.Some? {
        NoteStopped(reason.value);
        return Deferred(reason.value), t;
      }
      r := Done;
    }

    /** S4: a stop is noted, and lock and reservation let go, before the models
        go: models in memory are covered throughout unless, and only unless, the
        step is deferred after loading them. */
    method SegmentStep(units: nat) returns (r: Outcome, ghost step: Step)
      requires Valid() && !admission && !process.loaded
      modifies this, process, gate
      ensures Valid() && !admission && !process.reserved && !process.loaded
      ensures deferred == ReasonOf(r) && (r == Done ==> process.lockHeld)
      ensures old(deferred).Some? ==> process.trace == old(process.trace) && r == Deferred(old(deferred).value)
      ensures old(deferred) == None ==>
                && Stepped(gate, old(process.lockHeld), step, units, r)
                && Doings(process.trace) == Doings(old(process.trace)) + StepActs(step)
      ensures old(deferred) == None ==>
                (Covered(process.trace) <==> !(r.Deferred? && Loads(process.trace) > Loads(old(process.trace))))
    {
      ghost var start, b := Doings(process.trace), SawPause;
      r, b := Begin();
      step := Step(b, None);
      if r != Done {
        return;
      }
      ghost var w;
      r, w := RunUnits(process, gate, units);
      step := Step(b, Some(w));
      InTurn(start, BeginningActs(b), WorkActs(w));
      if r.Deferred? {
        NoteStopped(r.reason);
      }
      ReleaseModels();
      ReleaseAdmission();
    }

    /** S6: the models go first, then the reservation, and only then is a stop
        noted: its models are covered throughout. A dry run holds nothing. */
    method EmbedStep(units: nat, dryRun: bool) returns (r: Outcome, ghost step: Option<Step>)
      requires Valid() && !admission && !process.loaded
      modifies this, process, gate
      ensures Valid() && !admission && !process.reserved && !process.loaded
      ensures old(deferred).Some? ==> process.trace == old(process.trace) && deferred == old(deferred)
      ensures dryRun ==>
                process.trace == old(process.trace) && deferred == old(deferred) && r == Done && step == None
      ensures !dryRun ==> deferred == ReasonOf(r) && (old(deferred).Some? ==> r == Deferred(old(deferred).value))
      ensures old(deferred) == None && !dryRun ==>
                && step.Some? && Stepped(gate, old(process.lockHeld), step.value, units, r)
                && (r == Done ==> process.lockHeld)
                && Doings(process.trace) == Doings(old(process.trace)) + StepActs(step.value)
      ensures old(deferred) == None ==> Covered(process.trace)
    {
      if dryRun {
        return Done, None;
      }
      ghost var start, b := Doings(process.trace), SawPause;
      r, b := Begin();
      step := Some(Step(b, None));
      if r != Done {
        return;
      }
      ghost var w;
      r, w := RunUnits(process, gate, units);
      step := Some(Step(b, Some(w)));
      InTurn(start, BeginningActs(b), WorkActs(w));
      ReleaseModels();
      ReleaseAdmission();
      if r.Deferred? {
        NoteStopped(r.reason);
      }
    }
  }

  /** `sync` over its sources. On every path it ends with no lock, reservation
      or models, and once a step was deferred nothing heavy was tried again.
      Its models are covered throughout, or a step was deferred. */
  method Sync(process: Process, gate: Gate, sources: seq<Source>, dryRun: bool)
    returns (deferred: Option<StopReason>, failed: bool, ghost deferredAt: nat, ghost visits: seq<Visit>)
    requires process.Valid() && process.trace == [] && gate.process == process && gate.poll > 0.0 && gate.maxWait >= 0.0
    modifies process, gate
    ensures process.Valid() && !process.lockHeld && !process.reserved && !process.loaded
    ensures Disciplined(process.trace) && (Covered(process.trace) || deferred.Some?)
    ensures failed ==> deferred == None
    ensures SyncWent(gate, visits, sources, dryRun, EndOf(deferred, failed))
    ensures Doings(process.trace) == AllVisits(visits)
    ensures deferred.Some? ==>
              && deferredAt <= |process.trace|
              && !Locked(process.trace[..deferredAt]) && !Reserved(process.trace[..deferredAt])
              && LightSince(process.trace, deferredAt)
  {
    var steps := new SyncHeavySteps(process, gate);
    failed, visits := VisitAll(steps, sources, dryRun);
    steps.ReleaseAdmission();
    Snoc(process.trace, DroppedLock);
    process.DropLock();
    deferred, deferredAt := steps.deferred, steps.deferredAt;
  }

  method VisitAll(steps: SyncHeavySteps, sources: seq<Source>, dryRun: bool)
      returns (failed: bool, ghost visits: seq<Visit>)
    requires steps.Valid() && !steps.admission && !steps.process.loaded && !steps.process.reserved
    requires steps.process.trace == [] && steps.deferred == None
    modifies steps, steps.process, steps.gate
    ensures steps.Valid() && !steps.admission && !steps.process.loaded && !steps.process.reserved
    ensures failed ==> steps.deferred == None
    ensures SyncWent(steps.gate, visits, sources, dryRun, EndOf(steps.deferred, failed))
    ensures Doings(steps.process.trace) == AllVisits(visits)
  {
    failed, visits := false, [];
    for i := 0 to |sources|
      invariant steps.Valid() && !steps.admission && !steps.process.loaded && !steps.process.reserved
      invariant SyncSoFar(steps.gate, Doings(steps.process.trace), visits, sources, i, dryRun, steps.process.lockHeld,
                          steps.deferred)
    {
      ghost var before, held, was := Doings(steps.process.trace), steps.process.lockHeld, steps.deferred;
      ghost var v;
      var r;
      r, v := OneSource(steps, sources[i], dryRun);
      if was == None {
        OneMoreVisit(steps.gate, before, visits, sources, i, dryRun, held, v, r);
        visits := visits + [v];
      }
      if r == Failed {
        return true, visits;
      }
    }
  }

  function EndOf(deferred: Option<StopReason>, failed: bool): Outcome {
    if failed then Failed else if deferred.Some? then Deferred(deferred.value) else Done
  }

  /** After `i` sources, none of which failed. */
  ghost predicate SyncSoFar(gate: Gate, t: Trace, visits: seq<Visit>, sources: seq<Source>, i: nat, dryRun: bool,
                            locked: bool, deferred: Option<StopReason>) {
    && i <= |sources| && t == AllVisits(visits)
    && if deferred == None then |visits| == i && AllDone(gate, visits, sources, dryRun) && (locked <==> i > 0)
       else SyncWent(gate, visits, sources, dryRun, Deferred(deferred.value))
  }

  lemma OneMoreVisit(gate: Gate, t: Trace, visits: seq<Visit>, sources: seq<Source>, i: nat, dryRun: bool,
                     locked: bool, v: Visit, r: Outcome)
    requires SyncSoFar(gate, t, visits, sources, i, dryRun, locked, None) && i < |sources|
    requires Visited(gate, locked, v, sources[i], dryRun, r)
    ensures t + VisitActs(v) == AllVisits(visits + [v])
    ensures if r == Done then AllDone(gate, visits + [v], sources, dryRun)
            else SyncWent(gate, visits + [v], sources, dryRun, r)
  {
    assert (visits + [v])[..|visits|] == visits;
  }

  method OneSource(steps: SyncHeavySteps, source: Source, dryRun: bool) returns (r: Outcome, ghost v: Visit)
    requires steps.Valid() && !steps.admission && !steps.process.reserved && !steps.process.loaded
    modifies steps, steps.process, steps.gate
    ensures steps.Valid() && !steps.admission && !steps.process.reserved && !steps.process.loaded
    ensures steps.deferred == ReasonOf(r) && (r == Done ==> steps.process.lockHeld)
    ensures old(steps.deferred) == None ==>
              && Visited(steps.gate, old(steps.process.lockHeld), v, source, dryRun, r)
              && Doings(steps.process.trace) == Doings(old(steps.process.trace)) + VisitActs(v)
    ensures old(steps.deferred).Some? ==>
              steps.process.trace == old(steps.process.trace) && r == Deferred(old(steps.deferred).value)
  {
    ghost var start, embed := Doings(steps.process.trace), None;
    ghost var segment;
    r, segment := steps.SegmentStep(source.segmentUnits);
    if r == Done {
      r, embed := steps.EmbedStep(source.embedUnits, dryRun);
    }
    v := Visit(segment, embed);
    InTurn(start, StepActs(segment), if embed == None then [] else StepActs(embed.value));
  }

  // ------------------------------------------------------------ segment and embed

  /** `segment`, and `embed` when it is not a dry run. The command never drops
      its models: they are covered until its very end, where it lets go of
      reservation and lock and exits. */
  method HeavyCommand(process: Process, gate: Gate, units: nat) returns (r: Outcome, ghost step: Step)
    requires process.Valid() && process.trace == [] && gate.process == process && gate.poll > 0.0 && gate.maxWait >= 0.0
    modifies process, gate
    ensures process.Valid() && !process.lockHeld && !process.reserved
    ensures Disciplined(process.trace) && (Covered(process.trace) <==> !process.loaded)
    ensures Stepped(gate, false, step, units, r)
    ensures Doings(process.trace) == Doings(old(process.trace)) + StepActs(step)
  {
    ghost var start := Doings(process.trace);
    var paused := AskWhetherPaused(process);
    if paused {
      NotBegunIs(start, SawPause);
      return Deferred(Paused), Step(SawPause, None);
    }
    var ok := TakeTheLock(process);
    if ok {
      r, step := WorkUnderLock(process, gate, units, start);
    } else {
      r, step := Failed, Step(LockBusy, None);
      BeginningIs(start, true, []);
      NotBegunIs(start, LockBusy);
    }
    LetGo(process);
  }

  /** `segment` and `embed` end by letting go of both. */
  method LetGo(process: Process)
    requires process.Valid() && Disciplined(process.trace) && Covered(process.trace)
    modifies process
    ensures process.Valid() && !process.lockHeld && !process.reserved
    ensures Disciplined(process.trace) && (Covered(process.trace) <==> !process.loaded)
    ensures Doings(process.trace) == Doings(old(process.trace))
  {
    Snoc(process.trace, DroppedReservation);
    process.DropReservation();
    Snoc(process.trace, DroppedLock);
    process.DropLock();
  }

  method WorkUnderLock(process: Process, gate: Gate, units: nat, ghost start: Trace)
      returns (r: Outcome, ghost step: Step)
    requires process.Valid() && process.lockHeld && !process.reserved && !process.loaded
    requires Disciplined(process.trace) && Covered(process.trace)
    requires Doings(process.trace) == start + [AskedPause(false)] + [TookLock]
    requires gate.process == process && gate.poll > 0.0 && gate.maxWait >= 0.0
    modifies process, gate
    ensures process.Valid() && Disciplined(process.trace) && Covered(process.trace)
    ensures Stepped(gate, false, step, units, r) && Doings(process.trace) == start + StepActs(step)
  {
    ghost var before := process.trace;
    var reason, t := gate.Admit();
    WaitingKeepsDiscipline(before, t, gate.poll);
    ghost var b := Waited(true, t);
    BeginningIs(start, true, t);
    if reason.Some? {
      Snoc(process.trace, DroppedLock);
      process.DropLock();
      r, step := Deferred(reason.value), Step(b, None);
      NotBegunIs(start, b);
    } else {
      ghost var w;
      r, w := RunUnits(process, gate, units);
      step := Step(b, Some(w));
      InTurn(start, BeginningActs(b), WorkActs(w));
    }
  }

  // ----------------------------------------------- many such commands at once

  type Pid = nat

  /** One process's act, or its death, among those of all processes. */
  datatype HostAct = By(pid: Pid, act: Act) | Killed(pid: Pid)

  /** What `p` has done since it was last killed. */
  ghost function Own(run: seq<HostAct>, p: Pid): Trace {
    if run == [] then []
    else
      var before, last := Own(run[..|run| - 1], p), run[|run| - 1];
      if last.pid != p then before else if last.Killed? then [] else before + [last.act]
  }

  /** The kernel grants the lock only while no other process holds it. */
  ghost predicate LockGrantedAlone(run: seq<HostAct>) {
    run == []
    || (var init, last := run[..|run| - 1], run[|run| - 1];
        && LockGrantedAlone(init)
        && (last.By? && last.act == TookLock ==> forall q :: q != last.pid ==> !Locked(Own(init, q))))
  }

  lemma {:induction false} OneLockHolder(run: seq<HostAct>, p: Pid, q: Pid)
    requires LockGrantedAlone(run) && Locked(Own(run, p)) && Locked(Own(run, q))
    ensures p == q
  {
    if run != [] {
      var init, last := run[..|run| - 1], run[|run| - 1];
      if last.By? {
        Snoc(Own(init, last.pid), last.act);
      }
      forall r
        ensures Own(run, r) ==
                  if last.pid != r then Own(init, r) else if last.Killed? then [] else Own(init, r) + [last.act]
      {
      }
      if p != q {
        OneLockHolder(init, p, q);
      }
    }
  }

  /** However `segment`, `embed` and `sync` processes interleave and die, at
      most one running one has a memory reservation. */
  lemma AtMostOneReservation(run: seq<HostAct>, p: Pid, q: Pid)
    requires LockGrantedAlone(run) && Disciplined(Own(run, p)) && Disciplined(Own(run, q))
    requires Reserved(Own(run, p)) && Reserved(Own(run, q))
    ensures p == q
  {
    DisciplineThroughout(Own(run, p), |Own(run, p)|);
    DisciplineThroughout(Own(run, q), |Own(run, q)|);
    assert Own(run, p)[..|Own(run, p)|] == Own(run, p) && Own(run, q)[..|Own(run, q)|] == Own(run, q);
    OneLockHolder(run, p, q);
  }

  /** ... and, while every process has its models covered, at most one has
      models in memory. */
  lemma AtMostOneModelSet(run: seq<HostAct>, p: Pid, q: Pid)
    requires LockGrantedAlone(run) && Covered(Own(run, p)) && Covered(Own(run, q))
    requires Loaded(Own(run, p)) && Loaded(Own(run, q))
    ensures p == q
  {
    OneLockHolder(run, p, q);
  }

  lemma OwnNext(run: seq<HostAct>, q: Pid, a: Act, p: Pid)
    ensures Own(run + [By(q, a)], p) == if p == q then Own(run, p) + [a] else Own(run, p)
    ensures LockGrantedAlone(run) && (a == TookLock ==> forall r :: !Locked(Own(run, r))) ==>
              LockGrantedAlone(run + [By(q, a)])
  {
    var run' := run + [By(q, a)];
    assert run'[..|run'| - 1] == run && run'[|run'| - 1] == By(q, a);
  }

  /** One process that has let go of the lock with its models in memory, as a
      deferred S4 has, is enough for two model sets at once: any other process
      may take the lock, be admitted and load, all within the discipline. */
  lemma TwoModelSets(run: seq<HostAct>, p: Pid, q: Pid) returns (run': seq<HostAct>)
    requires LockGrantedAlone(run) && p != q && Loaded(Own(run, p)) && Disciplined(Own(run, q))
    requires forall r :: !Locked(Own(run, r))
    ensures run <= run' && LockGrantedAlone(run') && Disciplined(Own(run', q))
    ensures Own(run', p) == Own(run, p) && Loaded(Own(run', p)) && Loaded(Own(run', q))
  {
    var t := Own(run, q);
    var run1 := run + [By(q, TookLock)];
    var run2 := run1 + [By(q, Checked(true))];
    run' := run2 + [By(q, LoadedModels)];
    OwnNext(run, q, TookLock, p);
    OwnNext(run, q, TookLock, q);
    OwnNext(run1, q, Checked(true), p);
    OwnNext(run1, q, Checked(true), q);
    OwnNext(run2, q, LoadedModels, p);
    OwnNext(run2, q, LoadedModels, q);
    Snoc(t, TookLock);
    Snoc(t + [TookLock], Checked(true));
    Snoc(t + [TookLock] + [Checked(true)], LoadedModels);
  }
}
