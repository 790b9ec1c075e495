/** What a heavy step does, from its trace: it begins, and then does its units
    one by one, each only on a go. */
module HeavyUnits {
  import opened Common
  import opened BackgroundGate

  datatype Outcome = Done | Deferred(reason: StopReason) | Failed

  predicate Heavy(a: Act) {
    a.DidUnit? || a == LoadedModels
  }

  predicate LetsGo(a: Act) {
    a == DroppedLock || a == DroppedReservation || a == DroppedModels
  }

  /** What a process did, except for letting go of things. */
  ghost function Doings(t: Trace): Trace {
    if t == [] then []
    else Doings(t[..|t| - 1]) + if LetsGo(t[|t| - 1]) then [] else [t[|t| - 1]]
  }

  // -------------------------------------------------------- asking between units

  /** Not paused, no live server's notice, and readings that let work go on. */
  ghost predicate SaysGo(gate: Gate, asked: Trace, read: Trace) {
    asked == [AskedPause(false), AskedNotices(NonePosted)] && gate.Readings(read, false)
  }

  /** Paused; or a notice posted or not readable; or the readings. */
  ghost predicate SaysStop(gate: Gate, asked: Trace, read: Trace, reason: StopReason) {
    || (reason == Paused && asked == [AskedPause(true)] && read == [])
    || (reason == Memory && read == [] && |asked| == 2 && asked[0] == AskedPause(false)
        && asked[1].AskedNotices? && asked[1].notices != NonePosted)
    || (reason == Memory && asked == [AskedPause(false), AskedNotices(NonePosted)] && gate.Readings(read, true))
  }

  /** One unit: what was asked before it, whether the models were loaded for it,
      and whether it failed. */
  datatype Turn = Turn(asked: Trace, read: Trace, loads: bool, fails: bool)

  function TurnActs(turn: Turn): Trace {
    (turn.asked + turn.read) + ((if turn.loads then [LoadedModels] else []) + [DidUnit(turn.fails)])
  }

  function AllActs(turns: seq<Turn>): Trace {
    if turns == [] then [] else AllActs(turns[..|turns| - 1]) + TurnActs(turns[|turns| - 1])
  }

  /** Each on a go, and none after a failed one. */
  ghost predicate AllOnGo(gate: Gate, turns: seq<Turn>) {
    turns == []
    || (var init, last := turns[..|turns| - 1], turns[|turns| - 1];
        AllOnGo(gate, init) && NoneFailed(init) && SaysGo(gate, last.asked, last.read))
  }

  ghost predicate NoneFailed(turns: seq<Turn>) {
    turns == [] || (NoneFailed(turns[..|turns| - 1]) && !turns[|turns| - 1].fails)
  }

  /** The work of a step: its turns, and what was asked after them, if it was
      then told to stop. */
  datatype Work = Work(turns: seq<Turn>, asked: Trace, read: Trace)

  function WorkActs(w: Work): Trace {
    AllActs(w.turns) + (w.asked + w.read)
  }

  /** The work of a step of `units` units that ended as `r`: all of them; or up to
      a failed one; or up to an answer to stop, before another. */
  ghost predicate DidUnits(gate: Gate, w: Work, units: nat, r: Outcome) {
    && AllOnGo(gate, w.turns) && (!r.Deferred? ==> w.asked == [] && w.read == [])
    && match r
       case Done => |w.turns| == units && NoneFailed(w.turns)
       case Failed => 0 < |w.turns| <= units && w.turns[|w.turns| - 1].fails
       case Deferred(reason) =>
         |w.turns| < units && NoneFailed(w.turns) && SaysStop(gate, w.asked, w.read, reason)
  }

  // ---------------------------------------------------------- what follows of it

  ghost function UnitsIn(t: Trace): nat {
    if t == [] then 0 else UnitsIn(t[..|t| - 1]) + if t[|t| - 1].DidUnit? then 1 else 0
  }

  lemma {:induction false} UnitsAdd(s: Trace, t: Trace)
    ensures UnitsIn(s + t) == UnitsIn(s) + UnitsIn(t)
    decreases |t|
  {
    if t == [] {
      assert s + t == s;
    } else {
      UnitsAdd(s, t[..|t| - 1]);
      assert (s + t)[..|s + t| - 1] == s + t[..|t| - 1];
    }
  }

  predicate Quiet(t: Trace) {
    forall k :: 0 <= k < |t| ==> !Heavy(t[k])
  }

  lemma GoIsQuiet(gate: Gate, asked: Trace, read: Trace)
    requires SaysGo(gate, asked, read)
    ensures Quiet(asked + read)
  {
  }

  lemma StopIsQuiet(gate: Gate, asked: Trace, read: Trace, reason: StopReason)
    requires SaysStop(gate, asked, read, reason)
    ensures Quiet(asked + read) && asked + read != []
  {
  }

  lemma {:induction false} NoUnits(t: Trace)
    requires Quiet(t)
    ensures UnitsIn(t) == 0
  {
    if t != [] {
      NoUnits(t[..|t| - 1]);
    }
  }

  lemma UnitsInTurn(gate: Gate, turn: Turn)
    requires SaysGo(gate, turn.asked, turn.read)
    ensures UnitsIn(TurnActs(turn)) == 1
  {
    var asking, doing := turn.asked + turn.read, [DidUnit(turn.fails)];
    var loading := if turn.loads then [LoadedModels] else [];
    GoIsQuiet(gate, turn.asked, turn.read);
    NoUnits(asking);
    UnitsAdd(asking, loading + doing);
    UnitsAdd(loading, doing);
  }

  lemma {:induction false} UnitsInTurns(gate: Gate, turns: seq<Turn>)
    requires AllOnGo(gate, turns)
    ensures UnitsIn(AllActs(turns)) == |turns|
  {
    if turns != [] {
      UnitsInTurns(gate, turns[..|turns| - 1]);
      UnitsInTurn(gate, turns[|turns| - 1]);
      UnitsAdd(AllActs(turns[..|turns| - 1]), TurnActs(turns[|turns| - 1]));
    }
  }

  /** A step is done exactly when it has done all its units, the last without
      failing; it is deferred exactly when the last thing it did was to ask. */
  lemma EndsExactly(gate: Gate, w: Work, units: nat, r: Outcome)
    requires DidUnits(gate, w, units, r)
    ensures var t := WorkActs(w);
            && (r == Done ==> UnitsIn(t) == units)
            && (r.Deferred? ==> UnitsIn(t) < units)
            && (r == Failed ==> 0 < UnitsIn(t) <= units)
            && (r.Deferred? <==> t != [] && !t[|t| - 1].DidUnit?)
            && (r == Failed <==> t != [] && t[|t| - 1] == DidUnit(true))
  {
    UnitsInTurns(gate, w.turns);
    if r.Deferred? {
      StopIsQuiet(gate, w.asked, w.read, r.reason);
    }
    EndsLike(AllActs(w.turns), w.asked + w.read);
    if w.turns != [] {
      LastOfTurns(w.turns);
    }
  }

  lemma EndsLike(acts: Trace, rest: Trace)
    requires Quiet(rest)
    ensures UnitsIn(acts + rest) == UnitsIn(acts)
    ensures rest != [] ==> !(acts + rest)[|acts + rest| - 1].DidUnit?
    ensures rest == [] ==> acts + rest == acts
  {
    UnitsAdd(acts, rest);
    NoUnits(rest);
    if rest != [] {
      assert (acts + rest)[|acts + rest| - 1] == rest[|rest| - 1];
    }
  }

  lemma LastOfTurns(turns: seq<Turn>)
    requires turns != []
    ensures AllActs(turns) != [] && AllActs(turns)[|AllActs(turns)| - 1] == DidUnit(turns[|turns| - 1].fails)
  {
  }

  /** Models are loaded and units done only after an answer that says go, with no
      other unit in between. */
  lemma HeavyOnlyOnGo(gate: Gate, w: Work, units: nat, r: Outcome, k: nat)
    requires DidUnits(gate, w, units, r) && k < |WorkActs(w)| && Heavy(WorkActs(w)[k])
    ensures AllowedAt(gate, WorkActs(w), k)
  {
    if r.Deferred? {
      StopIsQuiet(gate, w.asked, w.read, r.reason);
    }
    HeavyIsBefore(AllActs(w.turns), w.asked + w.read, k);
    OnGoInTurns(gate, w.turns, k);
    StillAllowed(gate, AllActs(w.turns), WorkActs(w), k);
  }

  lemma HeavyIsBefore(acts: Trace, rest: Trace, k: nat)
    requires Quiet(rest) && k < |acts + rest| && Heavy((acts + rest)[k])
    ensures k < |acts| && acts[k] == (acts + rest)[k]
  {
  }

  /** The last answer before the `k`-th act, from `i` to `j`, says go, and
      nothing but the loading of models has happened since. */
  ghost predicate GoBetween(gate: Gate, t: Trace, i: nat, m: nat, j: nat, k: nat) {
    && i <= m <= j <= k < |t| && SaysGo(gate, t[i..m], t[m..j])
    && forall l :: j <= l < k ==> t[l] == LoadedModels
  }

  ghost predicate AllowedAt(gate: Gate, t: Trace, k: nat) {
    exists i: nat, m: nat, j: nat :: GoBetween(gate, t, i, m, j, k)
  }

  lemma StillAllowed(gate: Gate, t: Trace, longer: Trace, k: nat)
    requires AllowedAt(gate, t, k) && t <= longer
    ensures AllowedAt(gate, longer, k)
  {
    var i: nat, m: nat, j: nat :| GoBetween(gate, t, i, m, j, k);
    assert longer[i..m] == t[i..m] && longer[m..j] == t[m..j];
    assert GoBetween(gate, longer, i, m, j, k);
  }

  lemma {:induction false} OnGoInTurns(gate: Gate, turns: seq<Turn>, k: nat)
    requires AllOnGo(gate, turns)
    requires k < |AllActs(turns)| && Heavy(AllActs(turns)[k])
    ensures AllowedAt(gate, AllActs(turns), k)
  {
    var init, last := turns[..|turns| - 1], turns[|turns| - 1];
    if k < |AllActs(init)| {
      OnGoInTurns(gate, init, k);
      StillAllowed(gate, AllActs(init), AllActs(turns), k);
    } else {
      OnGoInTurn(gate, AllActs(init), last, k);
    }
  }

  lemma QuietSoFar(before: Trace, turn: Turn, k: nat)
    requires Quiet(turn.asked + turn.read)
    requires |before| <= k < |before + TurnActs(turn)| && Heavy((before + TurnActs(turn))[k])
    ensures k >= |before| + |turn.asked| + |turn.read|
  {
  }

  lemma OnGoInTurn(gate: Gate, before: Trace, turn: Turn, k: nat)
    requires SaysGo(gate, turn.asked, turn.read)
    requires |before| <= k < |before + TurnActs(turn)| && Heavy((before + TurnActs(turn))[k])
    ensures AllowedAt(gate, before + TurnActs(turn), k)
  {
    var t, i := before + TurnActs(turn), |before|;
    var m := i + |turn.asked|;
    var j := m + |turn.read|;
    assert t[i..m] == turn.asked && t[m..j] == turn.read;
    GoIsQuiet(gate, turn.asked, turn.read);
    QuietSoFar(before, turn, k);
    assert GoBetween(gate, t, i, m, j, k);
  }

  // ------------------------------------------------------------- a step's beginning

  /** How a step begins: it asks for the pause, takes the lock unless it has it,
      and waits for memory. */
  datatype Beginning = SawPause | LockBusy | Waited(tookLock: bool, asked: Trace)

  function BeginningActs(b: Beginning): Trace {
    match b
    case SawPause => [AskedPause(true)]
    case LockBusy => [AskedPause(false), LockRefused]
    case Waited(tookLock, asked) => [AskedPause(false)] + (if tookLock then [TookLock] else []) + asked
  }

  ghost predicate Began(gate: Gate, locked: bool, b: Beginning, r: Outcome) {
    match b
    case SawPause => r == Deferred(Paused)
    case LockBusy => !locked && r == Failed
    case Waited(tookLock, asked) =>
      tookLock == !locked && r != Failed && Answered(asked, ReasonOf(r), gate.poll, gate.maxWait)
  }

  function ReasonOf(r: Outcome): Option<StopReason> {
    if r.Deferred? then Some(r.reason) else None
  }

  /** A heavy step: how it began and, if that was a go, its work. */
  datatype Step = Step(beginning: Beginning, work: Option<Work>)

  function StepActs(step: Step): Trace {
    BeginningActs(step.beginning) + if step.work == None then [] else WorkActs(step.work.value)
  }

  ghost predicate Stepped(gate: Gate, locked: bool, step: Step, units: nat, r: Outcome) {
    match step.work
    case None => r != Done && Began(gate, locked, step.beginning, r)
    case Some(w) => Began(gate, locked, step.beginning, Done) && DidUnits(gate, w, units, r)
  }

  // ------------------------------------------------------------------ all of a sync

  datatype Source = Source(segmentUnits: nat, embedUnits: nat)

  /** One source: S4 and, if that is done, S6; a dry run leaves S6 out. */
  datatype Visit = Visit(segment: Step, embed: Option<Step>)

  function VisitActs(v: Visit): Trace {
    StepActs(v.segment) + if v.embed == None then [] else StepActs(v.embed.value)
  }

  ghost predicate Visited(gate: Gate, locked: bool, v: Visit, source: Source, dryRun: bool, r: Outcome) {
    match v.embed
    case None => (r == Done ==> dryRun) && Stepped(gate, locked, v.segment, source.segmentUnits, r)
    case Some(embed) =>
      && !dryRun && Stepped(gate, locked, v.segment, source.segmentUnits, Done)
      && Stepped(gate, true, embed, source.embedUnits, r)
  }

  function AllVisits(visits: seq<Visit>): Trace {
    if visits == [] then [] else AllVisits(visits[..|visits| - 1]) + VisitActs(visits[|visits| - 1])
  }

  /** One source after another was done; after the first the lock is held. */
  ghost predicate AllDone(gate: Gate, visits: seq<Visit>, sources: seq<Source>, dryRun: bool) {
    && |visits| <= |sources|
    && (visits == []
        || (var n := |visits| - 1;
            && AllDone(gate, visits[..n], sources, dryRun)
            && Visited(gate, n > 0, visits[n], sources[n], dryRun, Done)))
  }

  /** All sources were done; or those before one that was deferred or failed, and
      after it none was begun. */
  ghost predicate SyncWent(gate: Gate, visits: seq<Visit>, sources: seq<Source>, dryRun: bool, r: Outcome) {
    if r == Done then |visits| == |sources| && AllDone(gate, visits, sources, dryRun)
    else
      && 0 < |visits| <= |sources|
      && var n := |visits| - 1;
         AllDone(gate, visits[..n], sources, dryRun) && Visited(gate, n > 0, visits[n], sources[n], dryRun, r)
  }
}
