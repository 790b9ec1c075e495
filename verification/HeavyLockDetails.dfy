/** Whose details the lock file carries, and what a reader is told by them. */
module HeavyLockDetails {
  import opened Common
  import opened HeavyLock

  /** What a reader is told: whether the lock is held, and by whom. */
  datatype Status = Status(held: bool, holder: Option<Pid>)

  function InspectNow(h: Host): Status {
    if h.main.CanShare() then Status(false, None) else Status(true, h.text)
  }

  /** `w` holds the lock and has written its details in this hold. */
  predicate HoldsAndWrote(h: Host, w: Pid) {
    w in h.commands && h.commands[w].phase.HasWritten()
  }

  /** A holder that has written its details is named by the file. */
  ghost predicate WrittenIsNamed(h: Host) {
    forall p: Pid :: HoldsAndWrote(h, p) ==> h.text == Some(p)
  }

  lemma WrittenStaysNamed(h: Host, e: Event)
    requires Inv(h) && WrittenIsNamed(h) && Enabled(h, e)
    ensures WrittenIsNamed(Apply(h, e))
  {
    var h' := Apply(h, e);
    forall p: Pid | HoldsAndWrote(h', p) ensures h'.text == Some(p) {
      assert Right(h, p) && Right(h, e.pid);
    }
  }

  lemma {:induction false} RunKeepsWrittenNamed(h: Host, events: seq<Event>)
    requires Inv(h) && WrittenIsNamed(h) && Run(h, events)
    ensures WrittenIsNamed(After(h, events))
    decreases |events|
  {
    if events != [] {
      StepKeepsInv(h, events[0]);
      WrittenStaysNamed(h, events[0]);
      RunKeepsWrittenNamed(Apply(h, events[0]), events[1..]);
    }
  }

  /** `imsg status` says that the lock is held exactly when somebody has it, and
      by whom once that command has written its details; while it looks at a
      free lock nobody else can take it. */
  lemma InspectsExactly(h: Host, p: Pid)
    requires Inv(h) && WrittenIsNamed(h) && Enabled(h, Inspect(p))
    ensures InspectNow(h).held <==> exists q :: q in h.commands && h.commands[q].phase.HasMain()
    ensures !InspectNow(h).held ==> InspectNow(h).holder == None
    ensures forall q :: HoldsAndWrote(h, q) ==> InspectNow(h) == Status(true, Some(q))
    ensures var h' := Apply(h, Inspect(p));
            if InspectNow(h).held then h' == h
            else HeavyLock.At(h', p, InspectShared) && !h'.main.CanExclude() && Apply(h', EndInspect(p)) == h
  {
    assert Right(h, p);
    if h.main.exclusive.Some? {
      assert Right(h, h.main.exclusive.value);
    } else {
      var h'' := Apply(Apply(h, Inspect(p)), EndInspect(p));
      assert h''.commands == h.commands && h''.main.shared == h.main.shared;
      forall q | q in h.commands ensures !h.commands[q].phase.HasMain() {
        assert Right(h, q);
      }
    }
  }

  /** Nothing is killed, and blanking the details never fails. */
  predicate KillFree(events: seq<Event>) {
    forall k :: 0 <= k < |events| ==> !events[k].Die? && (events[k].BeginRelease? ==> !events[k].blankFails)
  }

  predicate NamesHolder(h: Host) {
    h.text.Some? ==> HoldsAndWrote(h, h.text.value)
  }

  lemma {:induction false} KillFreeDetailsNameTheHolder(h: Host, events: seq<Event>)
    requires Inv(h) && NamesHolder(h) && Run(h, events) && KillFree(events)
    ensures NamesHolder(After(h, events))
    decreases |events|
  {
    if events != [] {
      StepKeepsInv(h, events[0]);
      KillFreeStep(h, events[0]);
      KillFreeDetailsNameTheHolder(Apply(h, events[0]), events[1..]);
    }
  }

  lemma KillFreeStep(h: Host, e: Event)
    requires Inv(h) && NamesHolder(h) && Enabled(h, e) && KillFree([e])
    ensures NamesHolder(Apply(h, e))
  {
    assert [e][0] == e;
    assert Right(h, e.pid);
    if h.text.Some? {
      assert Right(h, h.text.value);
    }
  }

  // ------------------------------------------- when the text names the holder

  predicate Writes(e: Event, w: Pid) {
    e.WriteHolder? && e.pid == w && !e.fails
  }

  /** `w` is killed, or fails to blank its details as it lets go. */
  predicate LeavesText(e: Event, w: Pid) {
    e == Die(w) || e == BeginRelease(w, true)
  }

  predicate NeverLeavesText(events: seq<Event>, w: Pid) {
    forall j :: 0 <= j < |events| ==> !LeavesText(events[j], w)
  }

  /** `w` wrote at `k`, and has since neither been killed nor failed to blank. */
  predicate StandsSince(events: seq<Event>, k: nat, w: Pid) {
    k < |events| && Writes(events[k], w) && NeverLeavesText(events[k + 1..], w)
  }

  lemma LookersHaveNotWritten(h: Host, e: Event)
    requires Enabled(h, e) && LooksAround(e)
    ensures !HoldsAndWrote(h, e.pid) && !HoldsAndWrote(Apply(h, e), e.pid)
  {
  }

  lemma QueuersHaveNotWritten(h: Host, e: Event)
    requires Enabled(h, e) && Queues(e)
    ensures !HoldsAndWrote(h, e.pid) && !HoldsAndWrote(Apply(h, e), e.pid)
  {
  }

  lemma TriersHaveNotWritten(h: Host, e: Event)
    requires Enabled(h, e) && Tries(e)
    ensures !HoldsAndWrote(h, e.pid) && !HoldsAndWrote(Apply(h, e), e.pid)
  {
  }

  lemma PeekersKeepWhatIsWritten(h: Host, e: Event)
    requires Enabled(h, e) && Peeks(e)
    ensures HoldsAndWrote(Apply(h, e), e.pid) <==> HoldsAndWrote(h, e.pid)
  {
  }

  lemma HoldersWrite(h: Host, e: Event)
    requires Enabled(h, e) && !LooksAround(e) && !Queues(e) && !Peeks(e) && !Tries(e)
    ensures HoldsAndWrote(Apply(h, e), e.pid) <==>
              Writes(e, e.pid) || (HoldsAndWrote(h, e.pid) && !e.Die? && !e.BeginRelease?)
  {
  }

  lemma HoldsAndWroteNext(h: Host, e: Event, w: Pid)
    requires Enabled(h, e)
    ensures HoldsAndWrote(Apply(h, e), w) <==>
              Writes(e, w) || (HoldsAndWrote(h, w) && e != Die(w) && !(e.BeginRelease? && e.pid == w))
  {
    if e.pid != w {
      OthersAreLeftAlone(h, e, w);
    } else if LooksAround(e) {
      LookersHaveNotWritten(h, e);
    } else if Queues(e) {
      QueuersHaveNotWritten(h, e);
    } else if Tries(e) {
      TriersHaveNotWritten(h, e);
    } else if Peeks(e) {
      PeekersKeepWhatIsWritten(h, e);
    } else {
      HoldersWrite(h, e);
    }
  }

  lemma TextNext(h: Host, e: Event, w: Pid)
    requires Enabled(h, e) && Apply(h, e).text == Some(w) && h.text != Some(w)
    ensures Writes(e, w)
  {
  }

  /** Details come into the file only by being written. */
  lemma {:induction false} WrittenLater(h: Host, events: seq<Event>, w: Pid) returns (k: nat)
    requires Run(h, events) && h.text != Some(w) && After(h, events).text == Some(w)
    ensures k < |events| && Writes(events[k], w)
    decreases |events|
  {
    if Apply(h, events[0]).text == Some(w) {
      TextNext(h, events[0], w);
      k := 0;
    } else {
      k := WrittenLater(Apply(h, events[0]), events[1..], w);
      k := k + 1;
    }
  }

  lemma StandsShift(e: Event, rest: seq<Event>, w: Pid)
    ensures (exists k :: StandsSince([e] + rest, k, w)) <==>
              (Writes(e, w) && NeverLeavesText(rest, w)) || exists k :: StandsSince(rest, k, w)
    ensures NeverLeavesText([e] + rest, w) <==> !LeavesText(e, w) && NeverLeavesText(rest, w)
  {
    var events := [e] + rest;
    assert events[1..] == rest;
    assert StandsSince(events, 0, w) <==> Writes(e, w) && NeverLeavesText(rest, w);
    forall k: nat | StandsSince(rest, k, w) ensures StandsSince(events, k + 1, w) {
      assert events[k + 2..] == rest[k + 1..];
    }
    forall k: nat | 0 < k && StandsSince(events, k, w) ensures StandsSince(rest, k - 1, w) {
      assert events[k + 1..] == rest[k..];
    }
    assert events[0] == e && forall j :: 0 <= j < |rest| ==> events[j + 1] == rest[j];
  }

  lemma {:induction false} NamedSince(h: Host, events: seq<Event>, w: Pid)
    requires Inv(h) && WrittenIsNamed(h) && Run(h, events) && After(h, events).text == Some(w)
    ensures HoldsAndWrote(After(h, events), w) <==>
              (exists k :: StandsSince(events, k, w)) || (HoldsAndWrote(h, w) && NeverLeavesText(events, w))
    decreases |events|
  {
    if events != [] {
      var e, rest, h1 := events[0], events[1..], Apply(h, events[0]);
      assert events == [e] + rest;
      StepKeepsInv(h, e);
      WrittenStaysNamed(h, e);
      NamedSince(h1, rest, w);
      HoldsAndWroteNext(h, e, w);
      StandsShift(e, rest, w);
      if e == BeginRelease(w, false) && NeverLeavesText(rest, w) {
        var k := WrittenLater(h1, rest, w);
        assert StandsSince(rest, k, w);
      }
    }
  }

  /** When the file carries `w`'s details, in any run, `w` holds the lock and
      they are of this hold if and only if it wrote them and has since neither
      been killed nor failed to blank them. */
  lemma TextNamesHolderExactlyWhen(start: Host, events: seq<Event>, w: Pid)
    requires Start0(start) && Run(start, events) && After(start, events).text == Some(w)
    ensures HoldsAndWrote(After(start, events), w) <==> exists k :: StandsSince(events, k, w)
    ensures HoldsAndWrote(After(start, events), w) ==> After(start, events).main.exclusive == Some(w)
  {
    StartIsRight(start);
    NamedSince(start, events, w);
    RunKeepsInv(start, events);
    assert Right(After(start, events), w);
  }

  /** After a kill the file names the dead holder until the next one writes, so
      a reader in between is told of a live holder by a dead one's name. */
  lemma KilledHolderIsStillNamed(h: Host, p: Pid, q: Pid)
    requires Inv(h) && WrittenIsNamed(h) && HoldsAndWrote(h, p)
    requires HeavyLock.At(h, q, Trying)
    ensures Run(h, [Die(p), TryMain(q)])
    ensures var h' := After(h, [Die(p), TryMain(q)]);
            h'.main.exclusive == Some(q) && p !in h'.commands && InspectNow(h') == Status(true, Some(p))
  {
    assert Right(h, p) && Right(h, q);
    var h1 := Apply(h, Die(p));
    assert h1.main.CanExclude();
    assert Run(Apply(h1, TryMain(q)), []);
    RunCons(h1, TryMain(q), []);
    RunCons(h, Die(p), [TryMain(q)] + []);
    assert [Die(p)] + ([TryMain(q)] + []) == [Die(p), TryMain(q)];
  }
}
