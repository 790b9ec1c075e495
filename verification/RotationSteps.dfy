/** One log through any number of rotations, step by step: writers append at any
    moment, and a rotation may be killed, or fail, between any two steps. */
module RotationSteps {
  import opened Common

  type Byte = bv8

  /** `_copy_then_truncate`: the staging file opened and filled from the log,
      the rest of the log taken, the log emptied, the staging file closed; the
      rename ends it. `sink` is what has been given to the staging file, and
      `missed` (history) what landed between the last read and the truncate. */
  datatype Phase =
    | Resting
    | Copying(sink: seq<Byte>)
    | Taken(sink: seq<Byte>)
    | Emptied(sink: seq<Byte>, missed: seq<Byte>)
    | Closed(sink: seq<Byte>, missed: seq<Byte>)
  {
    /** Past the truncate, and not yet renamed. */
    predicate Exposed() {
      Emptied? || Closed?
    }
  }

  /** A stretch of what was written, and whether a generation has it. */
  datatype Piece = Kept(bytes: seq<Byte>) | Lost(bytes: seq<Byte>)

  /** `generations` is oldest first; `staging` is the `.partial` file, of which
      an unclosed one may have any prefix on disk. History: all that was ever
      in the log, and what became of what is no longer in it. */
  datatype Disk = Disk(
    log: seq<Byte>,
    generations: seq<seq<Byte>>,
    staging: Option<seq<Byte>>,
    phase: Phase,
    written: seq<Byte>,
    ledger: seq<Piece>)

  datatype Step =
    | Append(bytes: seq<Byte>)
    | Open
    | Copy(n: nat)
    | Flush(n: nat)
    | TakeRest
    | Truncate
    | Close
    | Rename
    | Stop

  predicate Enabled(d: Disk, e: Step) {
    match e
    case Append(_) => true
    case Open => d.phase.Resting?
    case Copy(n) => d.phase.Copying? && |d.phase.sink| + n <= |d.log|
    case Flush(n) => (d.phase.Copying? || d.phase.Taken? || d.phase.Emptied?) && n <= |d.phase.sink|
    case TakeRest => d.phase.Copying? && |d.phase.sink| <= |d.log|
    case Truncate => d.phase.Taken? && |d.phase.sink| <= |d.log|
    case Close => d.phase.Emptied?
    case Rename => d.phase.Closed?
    case Stop => !d.phase.Resting?
  }

  function Apply(d: Disk, e: Step): Disk
    requires Enabled(d, e)
  {
    match e
    case Append(b) => d.(log := d.log + b, written := d.written + b)
    case Open => d.(staging := Some([]), phase := Copying([]))
    case Copy(n) => d.(phase := Copying(d.phase.sink + d.log[|d.phase.sink|..|d.phase.sink| + n]))
    case Flush(n) => d.(staging := Some(d.phase.sink[..n]))
    case TakeRest => d.(phase := Taken(d.phase.sink + d.log[|d.phase.sink|..]))
    case Truncate => d.(log := [], phase := Emptied(d.phase.sink, d.log[|d.phase.sink|..]))
    case Close => d.(staging := Some(d.phase.sink), phase := Closed(d.phase.sink, d.phase.missed))
    case Rename =>
      d.(staging := None, generations := d.generations + [d.phase.sink], phase := Resting,
         ledger := d.ledger + [Kept(d.phase.sink)] + [Lost(d.phase.missed)])
    case Stop =>
      d.(phase := Resting, ledger := d.ledger + if d.phase.Exposed() then [Lost(d.phase.sink + d.phase.missed)] else [])
  }

  predicate Run(d: Disk, steps: seq<Step>)
    decreases |steps|
  {
    steps == [] || (Enabled(d, steps[0]) && Run(Apply(d, steps[0]), steps[1..]))
  }

  function After(d: Disk, steps: seq<Step>): Disk
    requires Run(d, steps)
    decreases |steps|
  {
    if steps == [] then d else After(Apply(d, steps[0]), steps[1..])
  }

  lemma {:induction false} RunSnoc(d: Disk, steps: seq<Step>, e: Step)
    requires Run(d, steps) && Enabled(After(d, steps), e)
    ensures Run(d, steps + [e]) && After(d, steps + [e]) == Apply(After(d, steps), e)
    decreases |steps|
  {
    if steps == [] {
      assert Run(Apply(d, e), []);
    } else {
      assert (steps + [e])[1..] == steps[1..] + [e];
      RunSnoc(Apply(d, steps[0]), steps[1..], e);
    }
  }

  /** Before any rotation, with whatever a killed one may have left behind. */
  predicate Untouched(d: Disk) {
    d.generations == [] && d.phase == Resting && d.written == d.log && d.ledger == []
  }

  // ------------------------------------------------ where every byte is

  function Whole(ledger: seq<Piece>): seq<Byte> {
    if ledger == [] then [] else Whole(ledger[..|ledger| - 1]) + ledger[|ledger| - 1].bytes
  }

  function KeptOf(ledger: seq<Piece>): seq<seq<Byte>> {
    if ledger == [] then []
    else KeptOf(ledger[..|ledger| - 1]) + if ledger[|ledger| - 1].Kept? then [ledger[|ledger| - 1].bytes] else []
  }

  function LostBytes(ledger: seq<Piece>): nat {
    if ledger == [] then 0
    else LostBytes(ledger[..|ledger| - 1]) + if ledger[|ledger| - 1].Lost? then |ledger[|ledger| - 1].bytes| else 0
  }

  /** What a rotation past its truncate has and no generation does yet. */
  function InFlight(d: Disk): seq<Byte> {
    if d.phase.Exposed() then d.phase.sink + d.phase.missed else []
  }

  /** The written stream is, in order, the pieces of the ledger, what is in
      flight and the log; the generations are the pieces kept; until the
      truncate the staging file holds nothing the log does not. */
  ghost predicate Inv(d: Disk) {
    && d.written == Whole(d.ledger) + InFlight(d) + d.log
    && d.generations == KeptOf(d.ledger)
    && (d.phase.Copying? || d.phase.Taken? ==> d.phase.sink <= d.log)
  }

  lemma LedgerSnoc(ledger: seq<Piece>, p: Piece)
    ensures Whole(ledger + [p]) == Whole(ledger) + p.bytes
    ensures KeptOf(ledger + [p]) == KeptOf(ledger) + if p.Kept? then [p.bytes] else []
    ensures LostBytes(ledger + [p]) == LostBytes(ledger) + if p.Lost? then |p.bytes| else 0
  {
    assert (ledger + [p])[..|ledger|] == ledger;
  }

  lemma AppendKeepsInv(d: Disk, b: seq<Byte>)
    requires Inv(d)
    ensures Inv(Apply(d, Append(b)))
  {
    assert Whole(d.ledger) + InFlight(d) + (d.log + b) == Whole(d.ledger) + InFlight(d) + d.log + b;
  }

  lemma TruncateKeepsInv(d: Disk)
    requires Inv(d) && Enabled(d, Truncate)
    ensures Inv(Apply(d, Truncate))
  {
    var sink := d.phase.sink;
    assert d.log == sink + d.log[|sink|..];
    assert Whole(d.ledger) + [] + d.log == Whole(d.ledger) + (sink + d.log[|sink|..]) + [];
  }

  lemma RenameKeepsInv(d: Disk)
    requires Inv(d) && Enabled(d, Rename)
    ensures Inv(Apply(d, Rename))
  {
    LedgerSnoc(d.ledger, Kept(d.phase.sink));
    LedgerSnoc(d.ledger + [Kept(d.phase.sink)], Lost(d.phase.missed));
    assert Whole(d.ledger) + (d.phase.sink + d.phase.missed) + d.log
             == (Whole(d.ledger) + d.phase.sink) + d.phase.missed + [] + d.log;
  }

  lemma StopKeepsInv(d: Disk)
    requires Inv(d) && Enabled(d, Stop)
    ensures Inv(Apply(d, Stop))
  {
    if d.phase.Exposed() {
      LedgerSnoc(d.ledger, Lost(InFlight(d)));
      assert Whole(d.ledger) + InFlight(d) + d.log == (Whole(d.ledger) + InFlight(d)) + [] + d.log;
    } else {
      assert d.ledger + [] == d.ledger;
    }
  }

  lemma StepKeepsInv(d: Disk, e: Step)
    requires Inv(d) && Enabled(d, e)
    ensures Inv(Apply(d, e))
  {
    match e
    case Append(b) => AppendKeepsInv(d, b);
    case Truncate => TruncateKeepsInv(d);
    case Rename => RenameKeepsInv(d);
    case Stop => StopKeepsInv(d);
    case _ =>
  }

  lemma {:induction false} RunKeepsInv(d: Disk, steps: seq<Step>)
    requires Inv(d) && Run(d, steps)
    ensures Inv(After(d, steps))
    decreases |steps|
  {
    if steps != [] {
      StepKeepsInv(d, steps[0]);
      RunKeepsInv(Apply(d, steps[0]), steps[1..]);
    }
  }

  /** Conservation, in every run, at every moment and so at every kill point:
      all that was ever written is, in order, the pieces of the ledger (the
      generations being exactly the kept ones), what a rotation past its
      truncate still has in hand, and the log. */
  lemma EveryByteIsSomewhere(d: Disk, steps: seq<Step>)
    requires Untouched(d) && Run(d, steps)
    ensures var d' := After(d, steps);
            d'.written == Whole(d'.ledger) + InFlight(d') + d'.log && d'.generations == KeptOf(d'.ledger)
  {
    assert Whole([]) + [] + d.log == d.log;
    RunKeepsInv(d, steps);
  }

  // -------------------------------------------------- what a kill can lose

  /** All that a reader finds: the generations, oldest first, and the log. */
  function Found(d: Disk): seq<Byte> {
    Flat(d.generations) + d.log
  }

  function Flat(parts: seq<seq<Byte>>): seq<Byte> {
    if parts == [] then [] else Flat(parts[..|parts| - 1]) + parts[|parts| - 1]
  }

  lemma FlatSnoc(parts: seq<seq<Byte>>, last: seq<Byte>)
    ensures Flat(parts + [last]) == Flat(parts) + last
  {
    assert (parts + [last])[..|parts|] == parts;
  }

  lemma {:induction false} LedgerLengths(ledger: seq<Piece>)
    ensures |Whole(ledger)| == |Flat(KeptOf(ledger))| + LostBytes(ledger)
  {
    if ledger != [] {
      var init, last := ledger[..|ledger| - 1], ledger[|ledger| - 1];
      LedgerLengths(init);
      if last.Kept? {
        FlatSnoc(KeptOf(init), last.bytes);
      } else {
        assert KeptOf(init) + [] == KeptOf(init);
      }
    }
  }

  lemma {:induction false} NothingLostIsWhole(ledger: seq<Piece>)
    requires LostBytes(ledger) == 0
    ensures Flat(KeptOf(ledger)) == Whole(ledger)
  {
    if ledger != [] {
      var init, last := ledger[..|ledger| - 1], ledger[|ledger| - 1];
      NothingLostIsWhole(init);
      if last.Kept? {
        FlatSnoc(KeptOf(init), last.bytes);
      } else {
        assert last.bytes == [] && KeptOf(init) + [] == KeptOf(init);
        assert Whole(init) + [] == Whole(init);
      }
    }
  }

  /** The bytes a step puts out of every reader's reach for good: what landed
      unread before a truncate, once its rotation is through, and all that a
      rotation stopped between its truncate and its rename had in hand. */
  function Loses(d: Disk, e: Step): seq<Byte>
    requires Enabled(d, e)
  {
    match e
    case Rename => d.phase.missed
    case Stop => InFlight(d)
    case _ => []
  }

  predicate Harmless(d: Disk, steps: seq<Step>)
    requires Run(d, steps)
    decreases |steps|
  {
    steps == [] || (Loses(d, steps[0]) == [] && Harmless(Apply(d, steps[0]), steps[1..]))
  }

  lemma StepLoses(d: Disk, e: Step)
    requires Enabled(d, e)
    ensures LostBytes(Apply(d, e).ledger) == LostBytes(d.ledger) + |Loses(d, e)|
  {
    match e
    case Rename =>
      LedgerSnoc(d.ledger, Kept(d.phase.sink));
      LedgerSnoc(d.ledger + [Kept(d.phase.sink)], Lost(d.phase.missed));
    case Stop =>
      LedgerSnoc(d.ledger, Lost(InFlight(d)));
      assert d.ledger + [] == d.ledger;
    case _ =>
  }

  lemma {:induction false} RunLoses(d: Disk, steps: seq<Step>)
    requires Run(d, steps)
    ensures LostBytes(After(d, steps).ledger) >= LostBytes(d.ledger)
    ensures LostBytes(After(d, steps).ledger) == LostBytes(d.ledger) <==> Harmless(d, steps)
    decreases |steps|
  {
    if steps != [] {
      StepLoses(d, steps[0]);
      RunLoses(Apply(d, steps[0]), steps[1..]);
    }
  }

  /** Exactly when nothing is lost: after any run, whatever was killed and
      wherever, the generations and the log are all that was ever written if
      and only if no rotation was stopped with bytes in hand between its
      truncate and its rename, none completed that had missed bytes, and none
      is between those steps with bytes in hand now. */
  lemma NothingIsLostExactlyWhen(d: Disk, steps: seq<Step>)
    requires Untouched(d) && Run(d, steps)
    ensures var d' := After(d, steps);
            Found(d') == d'.written <==> Harmless(d, steps) && InFlight(d') == []
  {
    EveryByteIsSomewhere(d, steps);
    RunLoses(d, steps);
    var d' := After(d, steps);
    LedgerLengths(d'.ledger);
    if Harmless(d, steps) && InFlight(d') == [] {
      NothingLostIsWhole(d'.ledger);
      assert Whole(d'.ledger) + [] + d'.log == Whole(d'.ledger) + d'.log;
    }
  }

  /** A kill before the truncate, or after the rename, costs nothing: the log or
      the new generation has it all. In between it costs all that the log held,
      however much of it is in the staging file. */
  lemma KillLosesExactlyWhen(d: Disk, steps: seq<Step>)
    requires Untouched(d) && Run(d, steps) && Harmless(d, steps) && !After(d, steps).phase.Resting?
    ensures var d', killed := After(d, steps), Apply(After(d, steps), Stop);
            && (Found(killed) == killed.written <==> !d'.phase.Exposed() || d'.phase.sink + d'.phase.missed == [])
            && |killed.written| == |Found(killed)| + |InFlight(d')|
            && killed.staging == d'.staging
  {
    RunSnoc(d, steps, Stop);
    EveryByteIsSomewhere(d, steps);
    RunLoses(d, steps);
    var d' := After(d, steps);
    LedgerLengths(d'.ledger);
    NothingLostIsWhole(d'.ledger);
    StopKeepsFound(d');
    if InFlight(d') == [] {
      assert Whole(d'.ledger) + [] + d'.log == Whole(d'.ledger) + d'.log;
    }
  }

  lemma StopKeepsFound(d: Disk)
    requires Enabled(d, Stop)
    ensures Found(Apply(d, Stop)) == Found(d)
  {
  }

  /** Until it is closed the staging file has some prefix of what it was given,
      and then all of it. */
  predicate StagingKeepsUp(d: Disk) {
    match d.phase
    case Resting => true
    case Closed(sink, _) => d.staging == Some(sink)
    case _ => d.staging.Some? && d.staging.value <= d.phase.sink
  }

  /** So the generation that a rename puts in place is complete on disk, and a
      kill leaves as much of it as had got there. */
  lemma StagingStep(d: Disk, e: Step)
    requires StagingKeepsUp(d) && Enabled(d, e)
    ensures StagingKeepsUp(Apply(d, e))
    ensures e.Rename? ==>
      d.staging.Some? && Apply(d, e).generations == d.generations + [d.staging.value] && Apply(d, e).staging == None
    ensures e.Stop? ==> Apply(d, e).staging == d.staging
    ensures e.Flush? ==> Apply(d, e).staging == Some(d.phase.sink[..e.n])
  {
  }

  lemma {:induction false} StagingThroughout(d: Disk, steps: seq<Step>)
    requires StagingKeepsUp(d) && Run(d, steps)
    ensures StagingKeepsUp(After(d, steps))
    decreases |steps|
  {
    if steps != [] {
      StagingStep(d, steps[0]);
      StagingThroughout(Apply(d, steps[0]), steps[1..]);
    }
  }

  /** ... and what the staging file has is never looked at again: the next
      rotation starts it afresh. */
  lemma StagingIsNeverRecovered(d: Disk, left: Option<seq<Byte>>, steps: seq<Step>)
    requires d.phase.Resting? && Run(d, steps)
    ensures Run(d.(staging := left), steps)
    ensures Found(After(d.(staging := left), steps)) == Found(After(d, steps))
  {
    SameButStaging(d, d.(staging := left), steps);
  }

  lemma {:induction false} SameButStaging(d: Disk, other: Disk, steps: seq<Step>)
    requires other == d.(staging := other.staging) && Run(d, steps)
    ensures Run(other, steps) && After(other, steps) == After(d, steps).(staging := After(other, steps).staging)
    decreases |steps|
  {
    if steps != [] {
      SameButStaging(Apply(d, steps[0]), Apply(other, steps[0]), steps[1..]);
    }
  }
}
