/** Rotation of the logs under `<data_root>/logs`: shifting generations, copying
    while writers append, truncating in place, and pruning. */
module LogRotation {
  import opened Common
  import opened S = RotationSteps

  type Log = string

  /** `<log>.<n>.gz`; its content is what it decompresses to. */
  datatype Generation = Generation(content: seq<Byte>, mtime: int)

  datatype Name = Name(log: Log, n: nat)

  const CATCH_UP_ROUNDS := 3

  /** The bytes writers append, in bursts: one burst lands before each read,
      and before the truncate. Bursts left over land afterwards. */
  function Flatten(bursts: seq<seq<Byte>>): seq<Byte> {
    if bursts == [] then [] else bursts[0] + Flatten(bursts[1..])
  }

  lemma {:induction false} FlattenSplit(bursts: seq<seq<Byte>>, k: nat)
    requires k <= |bursts|
    ensures Flatten(bursts) == Flatten(bursts[..k]) + Flatten(bursts[k..])
  {
    if k == 0 {
      assert bursts[..0] == [] && bursts[0..] == bursts;
    } else {
      FlattenSplit(bursts[1..], k - 1);
      assert bursts[..k][1..] == bursts[1..][..k - 1] && bursts[1..][k - 1..] == bursts[k..];
      assert bursts[0] + (Flatten(bursts[1..][..k - 1]) + Flatten(bursts[k..]))
          == (bursts[0] + Flatten(bursts[1..][..k - 1])) + Flatten(bursts[k..]);
    }
  }

  lemma LandMore(stream: seq<Byte>, bursts: seq<seq<Byte>>, a: nat, b: nat, c: nat)
    requires a <= b <= c <= |bursts|
    ensures stream + Flatten(bursts[a..b]) + Flatten(bursts[b..c]) == stream + Flatten(bursts[a..c])
  {
    var all := bursts[a..c];
    FlattenSplit(all, b - a);
    assert all[..b - a] == bursts[a..b];
    assert all[b - a..] == bursts[b..c];
    assert (stream + Flatten(bursts[a..b])) + Flatten(bursts[b..c])
             == stream + (Flatten(bursts[a..b]) + Flatten(bursts[b..c]));
  }

  /** Nothing more has landed. */
  lemma LandNone(stream: seq<Byte>, bursts: seq<seq<Byte>>, a: nat)
    requires a <= |bursts|
    ensures stream + Flatten(bursts[a..a]) == stream
  {
    assert bursts[a..a] == [];
  }

  /** One log file while its writers append to it. `landed` counts the bursts
      that have landed so far. */
  class LiveFile {
    const bursts: seq<seq<Byte>>
    var content: seq<Byte>
    var landed: nat

    ghost predicate Valid()
      reads this
    {
      landed <= |bursts|
    }

    constructor (content: seq<Byte>, bursts: seq<seq<Byte>>)
      ensures this.content == content && this.bursts == bursts && landed == 0 && Valid()
    {
      this.content, this.bursts, this.landed := content, bursts, 0;
    }

    /** The next burst, if any, lands. */
    method Land()
      requires Valid()
      modifies this
      ensures Valid()
      ensures landed == if old(landed) < |bursts| then old(landed) + 1 else old(landed)
      ensures content == old(content) + Flatten(bursts[old(landed)..landed])
    {
      if landed < |bursts| {
        assert bursts[landed..landed + 1] == [bursts[landed]];
        assert [bursts[landed]][1..] == [] && bursts[landed] + [] == bursts[landed];
        content := content + bursts[landed];
        landed := landed + 1;
      } else {
        LandNone(content, bursts, landed);
      }
    }

    /** Time passes, and any number of bursts land. */
    method Wait()
      requires Valid()
      modifies this
      ensures Valid() && old(landed) <= landed && content == old(content) + Flatten(bursts[old(landed)..landed])
    {
      LandNone(content, bursts, landed);
      var more: nat := *;
      while more > 0
        invariant Valid() && old(landed) <= landed && content == old(content) + Flatten(bursts[old(landed)..landed])
      {
        ghost var before := landed;
        Land();
        LandMore(old(content), bursts, old(landed), before, landed);
        more := more - 1;
      }
    }

    /** Reads up to `limit` bytes from `from`; a burst may land just before. */
    method Read(from: nat, limit: nat) returns (chunk: seq<Byte>)
      requires Valid() && from <= |content|
      modifies this
      ensures Valid() && old(landed) <= landed && content == old(content) + Flatten(bursts[old(landed)..landed])
      ensures |chunk| <= limit && from + |chunk| <= |content| && chunk == content[from..from + |chunk|]
      ensures chunk == [] ==> limit == 0 || from == |content|
      ensures landed == old(landed) ==> content == old(content)
    {
      Land();
      LandNone(content, bursts, landed);
      var end := if from + limit < |content| then from + limit else |content|;
      chunk := content[from..end];
    }
  }

  /** What one copy-then-truncate did to a file: the new generation took the
      old content and the bursts before `readUpTo`, the truncate came after
      `cutAt`, and the file holds what landed since. */
  predicate Cut(bursts: seq<seq<Byte>>, whole: seq<Byte>, start: nat, generation: seq<Byte>, readUpTo: nat, cutAt: nat,
                content: seq<Byte>, landed: nat) {
    && start <= readUpTo <= cutAt <= readUpTo + 1 && cutAt <= landed <= |bursts|
    && generation == whole + Flatten(bursts[start..readUpTo])
    && content == Flatten(bursts[cutAt..landed])
  }

  /** Everything ever written is, in order: the new generation, then what
      landed between the last read and the truncate (one burst at most, and
      lost), then what the file holds from then on. */
  lemma EverythingWrittenIsAccountedFor(bursts: seq<seq<Byte>>, whole: seq<Byte>, start: nat, generation: seq<Byte>,
                                        readUpTo: nat, cutAt: nat, content: seq<Byte>, landed: nat)
    requires Cut(bursts, whole, start, generation, readUpTo, cutAt, content, landed)
    ensures generation + Flatten(bursts[readUpTo..cutAt]) + content == whole + Flatten(bursts[start..landed])
  {
    LandMore(whole, bursts, start, readUpTo, cutAt);
    LandMore(whole, bursts, start, cutAt, landed);
  }

  /** A copy under way: what the file held and what had landed when it began,
      and every step since, the writers' included. */
  datatype CopySoFar = CopySoFar(whole: seq<Byte>, landed: nat, steps: seq<Step>) {
    /** The disk as the copy found it: its history starts there. */
    function Start(): Disk {
      Disk(whole, [], None, Resting, whole, [])
    }

    function And(e: Step): CopySoFar {
      this.(steps := steps + [e])
    }

    /** Its steps have come to `phase`, with `log` in the file. */
    ghost predicate Reaches(phase: Phase, log: seq<Byte>) {
      && Run(Start(), steps)
      && var d := After(Start(), steps);
         d.phase == phase && d.log == log && d.generations == [] && d.ledger == []
    }

    /** The same copy, further on. */
    predicate Follows(c: CopySoFar) {
      whole == c.whole && landed == c.landed && c.steps <= steps
    }

    ghost predicate In(file: LiveFile, phase: Phase)
      reads file
    {
      && file.Valid() && landed <= file.landed && file.content == whole + Flatten(file.bursts[landed..file.landed])
      && Reaches(phase, file.content)
    }
  }

  lemma Took(c: CopySoFar, phase: Phase, log: seq<Byte>, e: Step)
    requires c.Reaches(phase, log) && Enabled(After(c.Start(), c.steps), e) && !e.Rename? && !e.Stop?
    ensures var d := Apply(After(c.Start(), c.steps), e);
            Run(c.Start(), c.And(e).steps) && After(c.Start(), c.And(e).steps) == d && c.And(e).Reaches(d.phase, d.log)
  {
    S.RunSnoc(c.Start(), c.steps, e);
  }

  /** A burst may land. */
  method WriterMoves(file: LiveFile, ghost c: CopySoFar, ghost phase: Phase) returns (ghost c': CopySoFar)
    requires c.In(file, phase)
    modifies file
    ensures c'.In(file, phase) && c'.Follows(c)
    ensures old(file.landed) <= file.landed <= old(file.landed) + 1
    ensures file.content == old(file.content) + Flatten(file.bursts[old(file.landed)..file.landed])
  {
    ghost var before := file.landed;
    file.Land();
    LandMore(c.whole, file.bursts, c.landed, before, file.landed);
    c' := c.And(Append(Flatten(file.bursts[before..file.landed])));
    Took(c, phase, old(file.content), Append(Flatten(file.bursts[before..file.landed])));
  }

  /** Reads on; what lands meanwhile lands after what the copy began with. */
  method ReadOn(file: LiveFile, chunk: nat, sink: seq<Byte>, ghost c: CopySoFar)
      returns (bytes: seq<Byte>, ghost c': CopySoFar)
    requires c.In(file, Copying(sink)) && sink <= file.content
    modifies file
    ensures c'.In(file, Copying(sink)) && c'.Follows(c)
    ensures sink + bytes <= file.content
    ensures old(file.landed) <= file.landed && (file.landed == old(file.landed) ==> file.content == old(file.content))
  {
    ghost var before := file.landed;
    bytes := file.Read(|sink|, chunk);
    LandMore(c.whole, file.bursts, c.landed, before, file.landed);
    c' := c.And(Append(Flatten(file.bursts[before..file.landed])));
    Took(c, Copying(sink), old(file.content), Append(Flatten(file.bursts[before..file.landed])));
  }

  /** Writes and reads by turns until a read finds nothing. */
  method CopyUntilDry(file: LiveFile, chunk: nat, sink0: seq<Byte>, first: seq<Byte>, ghost c0: CopySoFar)
      returns (sink: seq<Byte>, ghost c: CopySoFar)
    requires c0.In(file, Copying(sink0)) && sink0 + first <= file.content
    modifies file
    ensures c.In(file, Copying(sink)) && c.Follows(c0)
    ensures sink <= file.content
  {
    sink, c := sink0, c0;
    var bytes := first;
    while bytes != []
      invariant c.In(file, Copying(sink)) && c.Follows(c0)
      invariant sink + bytes <= file.content
      decreases |file.bursts| - file.landed, |file.content| - |sink|
    {
      Took(c, Copying(sink), file.content, Step.Copy(|bytes|));
      c, sink := c.And(Step.Copy(|bytes|)), sink + bytes;
      bytes, c := ReadOn(file, chunk, sink, c);
    }
  }

  /** The catch-up rounds and the last read: all the file holds by then. */
  method CopyWhole(file: LiveFile, chunk: nat, ghost c0: CopySoFar) returns (sink: seq<Byte>, ghost c: CopySoFar)
    requires c0.In(file, Copying([])) && chunk > 0
    modifies file
    ensures c.In(file, Taken(sink)) && c.Follows(c0)
    ensures sink == file.content
  {
    sink, c := [], c0;
    var rounds := 0;
    while rounds < CATCH_UP_ROUNDS
      invariant c.In(file, Copying(sink)) && c.Follows(c0)
      invariant sink <= file.content
      decreases CATCH_UP_ROUNDS - rounds
    {
      var bytes;
      bytes, c := ReadOn(file, chunk, sink, c);
      if bytes == [] {
        break;
      }
      sink, c := CopyUntilDry(file, chunk, sink, bytes, c);
      rounds := rounds + 1;
    }
    sink, c := ReadRest(file, sink, c);
  }

  /** The last read, under which no writer is waited for. */
  method ReadRest(file: LiveFile, read: seq<Byte>, ghost c0: CopySoFar) returns (sink: seq<Byte>, ghost c: CopySoFar)
    requires c0.In(file, Copying(read)) && read <= file.content
    modifies file
    ensures c.In(file, Taken(sink)) && c.Follows(c0)
    ensures sink == file.content
  {
    c := WriterMoves(file, c0, Copying(read));
    Took(c, Copying(read), file.content, TakeRest);
    c := c.And(TakeRest);
    sink := read + file.content[|read|..];
  }

  /** The end of a copy: emptied, closed, renamed. */
  lemma Finishes(c: CopySoFar, sink: seq<Byte>, missed: seq<Byte>, rest: seq<Byte>)
    requires c.Reaches(Taken(sink), sink + missed)
    ensures var steps := c.steps + [Truncate] + [Append(rest)] + [Close] + [Rename];
            && Run(c.Start(), steps)
            && var d := After(c.Start(), steps);
               && d.phase == Resting && d.log == rest && d.generations == [sink]
               && d.ledger == [Kept(sink)] + [Lost(missed)]
  {
    assert (sink + missed)[|sink|..] == missed && [] + rest == rest;
    Took(c, Taken(sink), sink + missed, Truncate);
    var c1 := c.And(Truncate);
    Took(c1, Emptied(sink, missed), [], Append(rest));
    var c2 := c1.And(Append(rest));
    Took(c2, Emptied(sink, missed), rest, Close);
    var c3 := c2.And(Close);
    S.RunSnoc(c.Start(), c3.steps, Rename);
  }

  /** Copies the file into a new generation, catching up with its writers, and
      truncates it in place. What it does is a run of `RotationSteps`, so what a
      kill would cost is known for every moment of it. */
  method CopyThenTruncate(file: LiveFile, chunk: nat)
      returns (generation: seq<Byte>, ghost readUpTo: nat, ghost cutAt: nat, ghost steps: seq<Step>)
    requires file.Valid() && chunk > 0
    modifies file
    ensures file.Valid()
    ensures Cut(file.bursts, old(file.content), old(file.landed), generation, readUpTo, cutAt, file.content,
              file.landed)
    ensures var start := CopySoFar(old(file.content), old(file.landed), []).Start();
            && Run(start, steps)
            && var d := After(start, steps);
               && d.phase == Resting && d.log == file.content && d.generations == [generation]
               && d.ledger == [Kept(generation)] + [Lost(Flatten(file.bursts[readUpTo..cutAt]))]
  {
    ghost var c := CopySoFar(file.content, file.landed, []);
    LandNone(file.content, file.bursts, file.landed);
    Took(c, Resting, file.content, Open);
    generation, c := CopyWhole(file, chunk, c.And(Open));
    readUpTo := file.landed;
    c := WriterMoves(file, c, Taken(generation));
    cutAt := file.landed;
    file.content := [];
    file.Land();
    assert [] + Flatten(file.bursts[cutAt..file.landed]) == Flatten(file.bursts[cutAt..file.landed]);
    Finishes(c, generation, Flatten(file.bursts[readUpTo..cutAt]), file.content);
    steps := c.steps + [Truncate] + [Append(file.content)] + [Close] + [Rename];
  }

  // -------------------------------------------------------------- generations

  /** `after` has at `to` what `before` had at `from`, present or not. */
  predicate Same(before: map<Name, Generation>, after: map<Name, Generation>, from: Name, to: Name) {
    (from in before <==> to in after) && (from in before ==> after[to] == before[from])
  }

  /** One rotation of the logs `due`: each of their generations below `keep`
      has moved up one, gaps and all, each has a new generation 1, only their
      old generations `keep` are gone, and no other file has changed. */
  ghost predicate Rotated(before: map<Name, Generation>, after: map<Name, Generation>, due: set<Log>, keep: nat) {
    && (forall log: Log, n: nat :: log in due && 1 <= n < keep ==> Same(before, after, Name(log, n), Name(log, n + 1)))
    && (forall log: Log :: log in due ==> Name(log, 1) in after)
    && (forall name: Name :: name.log !in due || name.n == 0 || name.n > keep ==> Same(before, after, name, name))
  }

  /** The old generations `keep` that made room: what the shift reports. */
  function MadeRoom(before: map<Name, Generation>, due: set<Log>, keep: nat): set<Name> {
    set log | log in due && Name(log, keep) in before :: Name(log, keep)
  }

  predicate Expired(generation: Generation, cutoff: int) {
    generation.mtime < cutoff
  }

  /** What the prune removes: beyond `keep`, or too old, but no name that the
      report already calls deleted. */
  function Doomed(files: map<Name, Generation>, deleted: set<Name>, keep: nat, cutoff: int): set<Name> {
    set name | name in files && (name.n > keep || Expired(files[name], cutoff)) && name !in deleted
  }

  /** One log's generations from `n` on have moved up by one. */
  ghost predicate ShiftedFrom(before: map<Name, Generation>, now: map<Name, Generation>, log: Log, keep: nat, n: nat) {
    && (forall name: Name :: name.log != log || name.n < n || name.n > keep ==> Same(before, now, name, name))
    && (forall m :: n <= m < keep ==> Same(before, now, Name(log, m), Name(log, m + 1)))
    && (n <= keep ==> Name(log, n) !in now)
  }

  /** The oldest is dropped, any other moves into the gap its elder has left. */
  lemma ShiftOne(before: map<Name, Generation>, now: map<Name, Generation>, log: Log, keep: nat, n: nat)
    requires 1 <= n <= keep && ShiftedFrom(before, now, log, keep, n + 1)
    ensures Name(log, n) !in now ==> ShiftedFrom(before, now, log, keep, n)
    ensures Name(log, n) in now && n == keep ==> ShiftedFrom(before, now - {Name(log, n)}, log, keep, n)
    ensures Name(log, n) in now && n < keep ==>
              ShiftedFrom(before, now[Name(log, n + 1) := now[Name(log, n)]] - {Name(log, n)}, log, keep, n)
  {
  }

  /** Where a shift killed with the generations from `m` on moved, and the
      rotation after it, leave what was generation `n`. */
  function SlotAfterKill(n: nat, m: nat): nat {
    if n < m then n + 1 else n + 2
  }

  /** What the rotation after a killed shift leaves, slot by slot: those the
      kill had not come to have moved up one, those it had have moved up two,
      and between them is a gap. */
  lemma KilledShiftLeaves(before: map<Name, Generation>, mid: map<Name, Generation>, after: map<Name, Generation>,
                          log: Log, keep: nat, m: nat, slot: nat)
    requires 1 <= m <= keep + 1 && ShiftedFrom(before, mid, log, keep, m) && Rotated(mid, after, {log}, keep)
    requires 2 <= slot <= keep
    ensures slot <= m ==> Same(before, after, Name(log, slot - 1), Name(log, slot))
    ensures slot == m + 1 ==> Name(log, slot) !in after
    ensures slot > m + 1 ==> Same(before, after, Name(log, slot - 2), Name(log, slot))
  {
    assert Same(mid, after, Name(log, slot - 1), Name(log, slot));
    if slot > m + 1 {
      assert Same(before, mid, Name(log, slot - 2), Name(log, slot - 1));
    }
  }

  /** So a shift killed once it has moved anything but the oldest costs one
      generation more: of what was there, the next rotation drops exactly the
      oldest and, if the kill came after the next oldest had moved, that one
      too. All the others are kept. */
  lemma KilledShiftDrops(before: map<Name, Generation>, mid: map<Name, Generation>, after: map<Name, Generation>,
                         log: Log, keep: nat, m: nat, n: nat)
    requires 1 <= m <= keep + 1 && ShiftedFrom(before, mid, log, keep, m) && Rotated(mid, after, {log}, keep)
    requires 1 <= n <= keep
    ensures SlotAfterKill(n, m) > keep <==> n == keep || (n == keep - 1 && m < keep)
    ensures SlotAfterKill(n, m) <= keep ==> Same(before, after, Name(log, n), Name(log, SlotAfterKill(n, m)))
    ensures forall slot :: 2 <= slot <= keep && Name(log, slot) in after ==>
              exists k ::
                1 <= k <= keep && SlotAfterKill(k, m) == slot
                && Same(before, after, Name(log, k), Name(log, slot))
  {
    if SlotAfterKill(n, m) <= keep {
      KilledShiftLeaves(before, mid, after, log, keep, m, SlotAfterKill(n, m));
    }
    forall slot | 2 <= slot <= keep && Name(log, slot) in after
      ensures exists k ::
                1 <= k <= keep && SlotAfterKill(k, m) == slot
                && Same(before, after, Name(log, k), Name(log, slot))
    {
      KilledShiftLeaves(before, mid, after, log, keep, m, slot);
      var k := if slot <= m then slot - 1 else slot - 2;
      assert SlotAfterKill(k, m) == slot;
    }
  }

  /** The compressed generations of every log, and the report of one run. */
  class Generations {
    var files: map<Name, Generation>
    var rotated: seq<(Log, nat)>
    var skipped: seq<Log>
    var deleted: set<Name>

    constructor (files: map<Name, Generation>)
      ensures this.files == files && rotated == [] && skipped == [] && deleted == {}
    {
      this.files, rotated, skipped, deleted := files, [], [], {};
    }

    /** Shifts one log's generations up by one, dropping the oldest. `moments`
        is the directory before each turn of the loop and after the last: where
        a kill may leave it. */
    method Shift(log: Log, keep: nat) returns (ghost moments: seq<map<Name, Generation>>)
      requires keep >= 1
      modifies this`files, this`deleted
      ensures forall name: Name :: name.log != log || name.n == 0 || name.n > keep ==>
                Same(old(files), files, name, name)
      ensures forall n :: 1 <= n < keep ==> Same(old(files), files, Name(log, n), Name(log, n + 1))
      ensures Name(log, 1) !in files
      ensures deleted == old(deleted) + MadeRoom(old(files), {log}, keep)
      ensures |moments| == keep + 1 && moments[0] == old(files) && moments[keep] == files
      ensures forall k :: 0 <= k <= keep ==> ShiftedFrom(old(files), moments[k], log, keep, keep + 1 - k)
    {
      moments := [files];
      for n := keep + 1 downto 1
        invariant ShiftedFrom(old(files), files, log, keep, n)
        invariant |moments| == keep + 2 - n && moments[0] == old(files) && moments[|moments| - 1] == files
        invariant forall k :: 0 <= k < |moments| ==> ShiftedFrom(old(files), moments[k], log, keep, keep + 1 - k)
        invariant deleted == old(deleted) + if n <= keep then MadeRoom(old(files), {log}, keep) else {}
      {
        var older := Name(log, n);
        assert Same(old(files), files, older, older);
        ShiftOne(old(files), files, log, keep, n);
        if older !in files {
        } else if n == keep {
          files := files - {older};
          deleted := deleted + {older};
        } else {
          files := files[Name(log, n + 1) := files[older]] - {older};
        }
        moments := moments + [files];
      }
    }

    /** Rotates one log: shifts its generations, then copies and truncates. */
    method Rotate(log: Log, file: LiveFile, chunk: nat, keep: nat, written: int)
        returns (ghost readUpTo: nat, ghost cutAt: nat)
      requires file.Valid() && chunk > 0 && keep >= 1
      modifies this`files, this`deleted, file
      ensures file.Valid()
      ensures Rotated(old(files), files, {log}, keep)
      ensures files[Name(log, 1)].mtime == written
      ensures Cut(file.bursts, old(file.content), old(file.landed), files[Name(log, 1)].content, readUpTo, cutAt,
                  file.content, file.landed)
      ensures deleted == old(deleted) + MadeRoom(old(files), {log}, keep)
    {
      ghost var moments := Shift(log, keep);
      var generation;
      ghost var steps;
      generation, readUpTo, cutAt, steps := CopyThenTruncate(file, chunk);
      files := files[Name(log, 1) := Generation(generation, written)];
    }

    /** One name's turn. */
    method PruneOne(ghost before: map<Name, Generation>, ghost reported: set<Name>, keep: nat, cutoff: int,
                    ghost names: set<Name>, dryRun: bool, name: Name)
      requires Pruning(before, reported, keep, cutoff, names, files, deleted, dryRun) && name in names
      modifies this`files, this`deleted
      ensures Pruning(before, reported, keep, cutoff, names - {name}, files, deleted, dryRun)
    {
      PruneStep(before, reported, keep, cutoff, names, files, deleted, dryRun, name);
      var tooMany, tooOld := name.n > keep, Expired(files[name], cutoff);
      if (tooMany || tooOld) && name !in deleted {
        deleted := deleted + {name};
        if !dryRun {
          files := files - {name};
        }
      }
    }

    /** Removes what is beyond `keep` or too old, and reports it; a dry run
        only reports. */
    method Prune(keep: nat, cutoff: int, dryRun: bool)
      modifies this`files, this`deleted
      ensures deleted == old(deleted) + Doomed(old(files), old(deleted), keep, cutoff)
      ensures files == if dryRun then old(files) else old(files) - Doomed(old(files), old(deleted), keep, cutoff)
      ensures forall name :: name in files <==>
                && name in old(files)
                && (dryRun || name in old(deleted) || (name.n <= keep && old(files)[name].mtime >= cutoff))
    {
      ghost var before, reported := files, deleted;
      var names := files.Keys;
      PruneStarts(files, deleted, keep, cutoff, dryRun);
      while names != {}
        invariant Pruning(before, reported, keep, cutoff, names, files, deleted, dryRun)
        decreases |names|
      {
        var name :| name in names;
        PruneOne(before, reported, keep, cutoff, names, dryRun, name);
        names := names - {name};
      }
      PruneEnds(before, reported, keep, cutoff, files, deleted, dryRun);
    }
  }

  /** A prune with `names` still to visit: of the doomed names, those visited
      are reported and, unless this is a dry run, gone. */
  predicate Pruning(before: map<Name, Generation>, reported: set<Name>, keep: nat, cutoff: int, names: set<Name>,
                    files: map<Name, Generation>, deleted: set<Name>, dryRun: bool) {
    var visited := Doomed(before, reported, keep, cutoff) - names;
    && names <= before.Keys
    && deleted == reported + visited
    && files == if dryRun then before else before - visited
  }

  lemma PruneStarts(before: map<Name, Generation>, reported: set<Name>, keep: nat, cutoff: int, dryRun: bool)
    ensures Pruning(before, reported, keep, cutoff, before.Keys, before, reported, dryRun)
  {
    assert Doomed(before, reported, keep, cutoff) - before.Keys == {};
    assert before - {} == before;
  }

  lemma PruneEnds(before: map<Name, Generation>, reported: set<Name>, keep: nat, cutoff: int,
                  files: map<Name, Generation>, deleted: set<Name>, dryRun: bool)
    requires Pruning(before, reported, keep, cutoff, {}, files, deleted, dryRun)
    ensures deleted == reported + Doomed(before, reported, keep, cutoff)
    ensures files == if dryRun then before else before - Doomed(before, reported, keep, cutoff)
  {
    assert Doomed(before, reported, keep, cutoff) - {} == Doomed(before, reported, keep, cutoff);
  }

  lemma PruneStep(before: map<Name, Generation>, reported: set<Name>, keep: nat, cutoff: int, names: set<Name>,
                  files: map<Name, Generation>, deleted: set<Name>, dryRun: bool, name: Name)
    requires Pruning(before, reported, keep, cutoff, names, files, deleted, dryRun) && name in names
    ensures name in files
    ensures var doomed := (name.n > keep || Expired(files[name], cutoff)) && name !in deleted;
            Pruning(before, reported, keep, cutoff, names - {name}, if doomed && !dryRun then files - {name} else files,
                    if doomed then deleted + {name} else deleted, dryRun)
  {
    var all := Doomed(before, reported, keep, cutoff);
    assert name in files && files[name] == before[name] && (name in deleted <==> name in reported);
    assert all - (names - {name}) == (all - names) + if name in all then {name} else {};
  }

  /** Rotating one more log keeps the earlier rotations as they are. */
  lemma RotateOneMore(before: map<Name, Generation>, now: map<Name, Generation>, then_: map<Name, Generation>,
                      due: set<Log>, log: Log, keep: nat)
    requires keep >= 1 && log !in due
    requires Rotated(before, now, due, keep) && Rotated(now, then_, {log}, keep)
    ensures Rotated(before, then_, due + {log}, keep)
    ensures MadeRoom(before, due + {log}, keep) == MadeRoom(before, due, keep) + MadeRoom(now, {log}, keep)
    ensures forall other :: other in due ==> Same(now, then_, Name(other, 1), Name(other, 1))
  {
    forall name: Name | name.log == log ensures Same(before, now, name, name) {}
  }

  // ------------------------------------------------------------- the whole run

  /** One `*.log` entry of the directory. */
  datatype Entry = Entry(log: Log, regular: bool, file: LiveFile)

  /** What an entry's turn found and reports: its size then, and the bytes
      copied (in a dry run, the size). */
  datatype Turn = Turn(size: nat, amount: nat)

  /** What a log file is at one moment. */
  datatype Moment = Moment(bursts: seq<seq<Byte>>, content: seq<Byte>, landed: nat)

  function At(file: LiveFile): Moment
    reads file
  {
    Moment(file.bursts, file.content, file.landed)
  }

  /** Nothing but appends between the two moments. */
  predicate Appended(was: Moment, now: Moment) {
    && was.landed <= now.landed <= |was.bursts| && now.bursts == was.bursts
    && now.content == was.content + Flatten(was.bursts[was.landed..now.landed])
  }

  /** `size` was the log's at some moment between. */
  ghost predicate SizeSeen(was: Moment, now: Moment, size: nat) {
    exists then_: Moment :: Appended(was, then_) && then_.landed <= now.landed && size == |then_.content|
  }

  /** The bytes of one rotated log are accounted for. */
  ghost predicate Accounted(was: Moment, now: Moment, generation: seq<Byte>) {
    exists readUpTo, cutAt ::
      Cut(was.bursts, was.content, was.landed, generation, readUpTo, cutAt, now.content, now.landed)
  }

  /** What a turn left of one log. Its writers may have appended before its
      size was read; if it was due, every byte is accounted for, and otherwise
      nothing but appends has touched it. */
  ghost predicate Outcome(log: Log, was: Moment, now: Moment, turn: Turn, due: set<Log>, files: map<Name, Generation>) {
    && SizeSeen(was, now, turn.size)
    && if log in due
       then Name(log, 1) in files && Accounted(was, now, files[Name(log, 1)].content)
            && turn.amount == |files[Name(log, 1)].content|
       else Appended(was, now) && turn.amount == turn.size
  }

  /** `all` is what the entries' files are now. */
  ghost predicate Now(entries: seq<Entry>, all: seq<Moment>)
    reads set e | e in entries :: e.file
  {
    |all| == |entries| && forall i :: 0 <= i < |entries| ==> all[i] == At(entries[i].file) && entries[i].file.Valid()
  }

  /** ... and of each log: those whose turn has not come are as they were. */
  ghost predicate Outcomes(entries: seq<Entry>, was: seq<Moment>, now: seq<Moment>, turns: seq<Turn>, due: set<Log>,
                           files: map<Name, Generation>) {
    && |turns| <= |now| == |was| == |entries|
    && (forall k :: 0 <= k < |turns| ==> Outcome(entries[k].log, was[k], now[k], turns[k], due, files))
    && (forall k :: |turns| <= k < |entries| ==> now[k] == was[k])
  }

  predicate Distinct(entries: seq<Entry>) {
    forall i, j :: 0 <= i < j < |entries| ==> entries[i].log != entries[j].log && entries[i].file != entries[j].file
  }

  predicate IsDue(e: Entry, turn: Turn, rotateBytes: int) {
    e.regular && turn.size >= rotateBytes
  }

  /** The logs of the first entries that have reached the size at their turn. */
  function Due(entries: seq<Entry>, turns: seq<Turn>, rotateBytes: int): set<Log>
    requires |turns| <= |entries|
  {
    set i | 0 <= i < |turns| && IsDue(entries[i], turns[i], rotateBytes) :: entries[i].log
  }

  /** The report's `rotated`, in listing order. */
  function ReportRotated(entries: seq<Entry>, turns: seq<Turn>, rotateBytes: int): seq<(Log, nat)>
    requires |turns| <= |entries|
  {
    if turns == [] then []
    else
      var n := |turns| - 1;
      ReportRotated(entries, turns[..n], rotateBytes)
      + if IsDue(entries[n], turns[n], rotateBytes) then [(entries[n].log, turns[n].amount)] else []
  }

  /** The report's `skipped`. */
  function ReportSkipped(entries: seq<Entry>): seq<Log> {
    if entries == [] then []
    else
      var n := |entries| - 1;
      ReportSkipped(entries[..n]) + if entries[n].regular then [] else [entries[n].log]
  }

  /** The report names exactly the logs that had reached the size, each once and
      with the bytes of its own turn, and as skipped exactly the irregular ones. */
  lemma {:induction false} ReportedExactly(entries: seq<Entry>, turns: seq<Turn>, rotateBytes: int)
    requires |turns| <= |entries| && Distinct(entries)
    ensures forall log, n :: (log, n) in ReportRotated(entries, turns, rotateBytes) <==>
              exists i :: 0 <= i < |turns| && entries[i].log == log && turns[i].amount == n
                          && entries[i].regular && turns[i].size >= rotateBytes
    ensures forall j, k :: 0 <= j < k < |ReportRotated(entries, turns, rotateBytes)| ==>
              ReportRotated(entries, turns, rotateBytes)[j].0 != ReportRotated(entries, turns, rotateBytes)[k].0
    decreases |turns|
  {
    if turns != [] {
      var n := |turns| - 1;
      ReportedExactly(entries, turns[..n], rotateBytes);
      var before := ReportRotated(entries, turns[..n], rotateBytes);
      forall j | 0 <= j < |before| ensures before[j].0 != entries[n].log {
        assert (before[j].0, before[j].1) in before;
      }
      forall log, m
        ensures (log, m) in ReportRotated(entries, turns, rotateBytes) <==>
                  exists i :: 0 <= i < |turns| && entries[i].log == log && turns[i].amount == m
                              && entries[i].regular && turns[i].size >= rotateBytes
      {
        assert forall i :: 0 <= i < n ==> turns[..n][i] == turns[i];
      }
    }
  }

  lemma {:induction false} SkippedExactly(entries: seq<Entry>)
    ensures forall log :: log in ReportSkipped(entries) <==>
              exists i :: 0 <= i < |entries| && entries[i].log == log && !entries[i].regular
  {
    if entries != [] {
      var n := |entries| - 1;
      SkippedExactly(entries[..n]);
      assert forall i :: 0 <= i < n ==> entries[..n][i] == entries[i];
    }
  }

  lemma NextTurn(entries: seq<Entry>, turns: seq<Turn>, turn: Turn, rotateBytes: int)
    requires |turns| < |entries| && Distinct(entries)
    ensures var n := |turns|;
            && entries[n].log !in Due(entries, turns, rotateBytes)
            && Due(entries, turns + [turn], rotateBytes)
               == Due(entries, turns, rotateBytes)
                   + (if IsDue(entries[n], turn, rotateBytes) then {entries[n].log} else {})
            && ReportRotated(entries, turns + [turn], rotateBytes)
               == ReportRotated(entries, turns, rotateBytes)
                  + (if IsDue(entries[n], turn, rotateBytes) then [(entries[n].log, turn.amount)] else [])
            && ReportSkipped(entries[..n + 1])
               == ReportSkipped(entries[..n]) + (if entries[n].regular then [] else [entries[n].log])
  {
    var n, turns' := |turns|, turns + [turn];
    assert turns'[..n] == turns && entries[..n + 1][..n] == entries[..n];
    var now := if IsDue(entries[n], turn, rotateBytes) then {entries[n].log} else {};
    forall log ensures log in Due(entries, turns', rotateBytes) <==> log in Due(entries, turns, rotateBytes) + now {
      if log in Due(entries, turns, rotateBytes) {
        var i :| 0 <= i < n && IsDue(entries[i], turns[i], rotateBytes) && entries[i].log == log;
        assert turns'[i] == turns[i];
      }
      assert turns'[n] == turn;
    }
  }

  /** What landed before the rotation began is part of what it accounts for. */
  lemma CutEarlier(bursts: seq<seq<Byte>>, whole: seq<Byte>, start: nat, begun: nat, generation: seq<Byte>,
                   readUpTo: nat, cutAt: nat, content: seq<Byte>, landed: nat)
    requires start <= begun <= |bursts|
    requires Cut(bursts, whole + Flatten(bursts[start..begun]), begun, generation, readUpTo, cutAt, content, landed)
    ensures Cut(bursts, whole, start, generation, readUpTo, cutAt, content, landed)
  {
    LandMore(whole, bursts, start, begun, readUpTo);
  }

  /** Where a run is: the rotations made so far, and its report. */
  ghost predicate SoFar(g: Generations, before: map<Name, Generation>, due: set<Log>, keep: nat)
    reads g
  {
    Rotated(before, g.files, due, keep) && g.deleted == MadeRoom(before, due, keep)
  }

  /** One entry's turn: skipped, left alone, or reported and rotated. */
  method TakeTurn(g: Generations, e: Entry, chunk: nat, rotateBytes: int, keep: nat, dryRun: bool, written: int,
                  ghost before: map<Name, Generation>, ghost due: set<Log>)
      returns (ghost turn: Turn, ghost nowDue: set<Log>)
    requires chunk > 0 && keep >= 1 && e.file.Valid() && e.log !in due && SoFar(g, before, due, keep)
    modifies g, e.file
    ensures e.file.Valid()
    ensures nowDue == if IsDue(e, turn, rotateBytes) && !dryRun then due + {e.log} else due
    ensures SoFar(g, before, nowDue, keep)
    ensures forall log :: log in due ==> Same(old(g.files), g.files, Name(log, 1), Name(log, 1))
    ensures Outcome(e.log, old(At(e.file)), At(e.file), turn, nowDue, g.files)
    ensures g.skipped == old(g.skipped) + if e.regular then [] else [e.log]
    ensures g.rotated == old(g.rotated) + if IsDue(e, turn, rotateBytes) then [(e.log, turn.amount)] else []
  {
    e.file.Wait();
    nowDue := due;
    ghost var begun := e.file.landed;
    var size := |e.file.content|;
    turn := Turn(size, size);
    assert Appended(old(At(e.file)), At(e.file));
    ghost var then_ := At(e.file);
    if !e.regular {
      g.skipped := g.skipped + [e.log];
      return;
    }
    if size < rotateBytes {
      return;
    }
    g.rotated := g.rotated + [(e.log, size)];
    if dryRun {
      return;
    }
    ghost var readUpTo, cutAt := g.Rotate(e.log, e.file, chunk, keep, written);
    CutEarlier(e.file.bursts, old(e.file.content), old(e.file.landed), begun, g.files[Name(e.log, 1)].content,
               readUpTo, cutAt, e.file.content, e.file.landed);
    RotateOneMore(before, old(g.files), g.files, due, e.log, keep);
    nowDue := due + {e.log};
    var copied := |g.files[Name(e.log, 1)].content|;
    turn := Turn(size, copied);
    g.rotated := g.rotated[..|g.rotated| - 1] + [(e.log, copied)];
  }

  /** One more turn leaves what the earlier ones left. */
  lemma OneMoreOutcome(entries: seq<Entry>, was: seq<Moment>, now: seq<Moment>, turns: seq<Turn>, due: set<Log>,
                       files: map<Name, Generation>, left: Moment, turn: Turn, nowDue: set<Log>,
                       nowFiles: map<Name, Generation>)
    requires Outcomes(entries, was, now, turns, due, files) && |turns| < |entries| && Distinct(entries)
    requires nowDue == due || nowDue == due + {entries[|turns|].log}
    requires forall log :: log in due ==> Same(files, nowFiles, Name(log, 1), Name(log, 1))
    requires Outcome(entries[|turns|].log, was[|turns|], left, turn, nowDue, nowFiles)
    ensures Outcomes(entries, was, now[|turns| := left], turns + [turn], nowDue, nowFiles)
  {
    forall k | 0 <= k < |turns| ensures Outcome(entries[k].log, was[k], now[k], turns[k], nowDue, nowFiles) {
      assert entries[k].log != entries[|turns|].log;
      assert Outcome(entries[k].log, was[k], now[k], turns[k], due, files);
      assert entries[k].log in due ==> Same(files, nowFiles, Name(entries[k].log, 1), Name(entries[k].log, 1));
    }
  }

  /** With nothing due nothing is rotated. */
  lemma NoneRotated(before: map<Name, Generation>, after: map<Name, Generation>, keep: nat)
    requires Rotated(before, after, {}, keep)
    ensures after == before
  {
    forall name ensures (name in before <==> name in after) && (name in before ==> after[name] == before[name]) {
      assert Same(before, after, name, name);
    }
  }

  /** Whatever was reported before it, a prune leaves nothing beyond `keep`. */
  lemma NoMoreThanKeep(rotated: map<Name, Generation>, room: set<Name>, keep: nat, cutoff: int)
    requires forall name :: name in room ==> name.n == keep
    ensures forall name :: name in rotated - Doomed(rotated, room, keep, cutoff) ==> name.n <= keep
  {
  }

  /** A run after the turns of the first `|turns|` entries. */
  ghost predicate Midway(g: Generations, entries: seq<Entry>, rotateBytes: int, keep: nat, dryRun: bool,
                         before: map<Name, Generation>, was: seq<Moment>, now: seq<Moment>, turns: seq<Turn>,
                         due: set<Log>)
    reads g
  {
    && Outcomes(entries, was, now, turns, due, g.files) && SoFar(g, before, due, keep)
    && due == (if dryRun then {} else Due(entries, turns, rotateBytes))
    && g.rotated == ReportRotated(entries, turns, rotateBytes) && g.skipped == ReportSkipped(entries[..|turns|])
  }

  /** The next entry's turn. */
  method NextEntry(g: Generations, entries: seq<Entry>, i: nat, chunk: nat, rotateBytes: int, keep: nat, dryRun: bool,
                   written: int, ghost before: map<Name, Generation>, ghost was: seq<Moment>, ghost now0: seq<Moment>,
                   ghost turns0: seq<Turn>, ghost due0: set<Log>)
      returns (ghost now: seq<Moment>, ghost turns: seq<Turn>, ghost due: set<Log>)
    requires chunk > 0 && keep >= 1 && i == |turns0| < |entries| && Distinct(entries) && Now(entries, now0)
    requires Midway(g, entries, rotateBytes, keep, dryRun, before, was, now0, turns0, due0)
    modifies g, entries[i].file
    ensures |turns| == i + 1 && |now| == |now0| && forall k :: 0 <= k < |now| && k != i ==> now[k] == now0[k]
    ensures entries[i].file.Valid() && now[i] == At(entries[i].file)
    ensures Midway(g, entries, rotateBytes, keep, dryRun, before, was, now, turns, due)
  {
    ghost var wasFiles := g.files;
    NextTurn(entries, turns0, Turn(0, 0), rotateBytes);
    ghost var turn;
    turn, due := TakeTurn(g, entries[i], chunk, rotateBytes, keep, dryRun, written, before, due0);
    OneMoreOutcome(entries, was, now0, turns0, due0, wasFiles, At(entries[i].file), turn, due, g.files);
    NextTurn(entries, turns0, turn, rotateBytes);
    turns, now := turns0 + [turn], now0[i := At(entries[i].file)];
  }

  /** Gives every entry its turn. */
  method RotateDue(g: Generations, entries: seq<Entry>, chunk: nat, rotateBytes: int, keep: nat, dryRun: bool,
                   written: int, ghost was: seq<Moment>)
      returns (ghost now: seq<Moment>, ghost turns: seq<Turn>, ghost due: set<Log>)
    requires chunk > 0 && keep >= 1 && g.deleted == {} && g.rotated == [] && g.skipped == []
    requires Distinct(entries) && Now(entries, was)
    modifies g, set e | e in entries :: e.file
    ensures |turns| == |entries| && Now(entries, now)
    ensures Midway(g, entries, rotateBytes, keep, dryRun, old(g.files), was, now, turns, due)
  {
    now, turns, due := was, [], {};
    ghost var before := g.files;
    for i := 0 to |entries|
      invariant |turns| == i && Now(entries, now)
      invariant Midway(g, entries, rotateBytes, keep, dryRun, before, was, now, turns, due)
    {
      now, turns, due :=
        NextEntry(g, entries, i, chunk, rotateBytes, keep, dryRun, written, before, was, now, turns, due);
    }
  }

  lemma DueExactly(entries: seq<Entry>, turns: seq<Turn>, rotateBytes: int)
    requires |turns| == |entries| && Distinct(entries)
    ensures forall i :: 0 <= i < |entries| ==>
              (entries[i].log in Due(entries, turns, rotateBytes) <==>
                 entries[i].regular && turns[i].size >= rotateBytes)
  {
    forall i | 0 <= i < |entries| && entries[i].log in Due(entries, turns, rotateBytes)
      ensures entries[i].regular && turns[i].size >= rotateBytes
    {
      var k :| 0 <= k < |turns| && IsDue(entries[k], turns[k], rotateBytes) && entries[k].log == entries[i].log;
      assert k == i;
    }
    forall i | 0 <= i < |entries| && entries[i].regular && turns[i].size >= rotateBytes
      ensures entries[i].log in Due(entries, turns, rotateBytes)
    {
      assert IsDue(entries[i], turns[i], rotateBytes);
    }
  }

  /** Rotates every due log, then prunes. The run fails, and touches nothing,
      exactly when one of its limits is below 1. */
  method RotateLogs(g: Generations, entries: seq<Entry>, chunk: nat, rotateBytes: int, keep: int, retentionDays: int,
                    dryRun: bool, moment: int, written: int, ghost was: seq<Moment>)
      returns (ok: bool, ghost turns: seq<Turn>, ghost due: set<Log>, ghost rotated: map<Name, Generation>,
               ghost now: seq<Moment>)
    requires chunk > 0 && g.deleted == {} && g.rotated == [] && g.skipped == []
    requires Distinct(entries) && Now(entries, was)
    modifies g, set e | e in entries :: e.file
    ensures ok <==> rotateBytes >= 1 && keep >= 1 && retentionDays >= 1
    ensures Now(entries, now)
    ensures !ok ==> unchanged(g) && now == was
    ensures ok ==>
      && |turns| == |entries| && due == (if dryRun then {} else Due(entries, turns, rotateBytes))
      && Outcomes(entries, was, now, turns, due, rotated)
      && g.rotated == ReportRotated(entries, turns, rotateBytes) && g.skipped == ReportSkipped(entries)
    ensures ok ==>
      && Rotated(old(g.files), rotated, due, keep)
      && var room := MadeRoom(old(g.files), due, keep);
         var doomed := Doomed(rotated, room, keep, moment - retentionDays * 86400);
         g.deleted == room + doomed && g.files == if dryRun then rotated else rotated - doomed
    ensures ok ==> forall i :: 0 <= i < |entries| ==>
      (entries[i].log in due <==> !dryRun && entries[i].regular && turns[i].size >= rotateBytes)
    ensures ok ==> forall name :: name in g.files <==>
      && name in rotated
      && (dryRun || name in MadeRoom(old(g.files), due, keep)
          || (name.n <= keep && rotated[name].mtime >= moment - retentionDays * 86400))
    ensures ok && dryRun ==> g.files == old(g.files)
    ensures ok && !dryRun ==> forall name :: name in g.files ==> name.n <= keep
  {
    turns, due, rotated, now := [], {}, g.files, was;
    if rotateBytes < 1 || keep < 1 || retentionDays < 1 {
      return false, turns, due, rotated, now;
    }
    ok := true;
    now, turns, due := RotateDue(g, entries, chunk, rotateBytes, keep, dryRun, written, was);
    assert entries[..|entries|] == entries;
    rotated := g.files;
    DueExactly(entries, turns, rotateBytes);
    g.Prune(keep, moment - retentionDays * 86400, dryRun);
    if dryRun {
      NoneRotated(old(g.files), rotated, keep);
    } else {
      NoMoreThanKeep(rotated, MadeRoom(old(g.files), due, keep), keep, moment - retentionDays * 86400);
    }
  }

  /** Where a run leaves an old generation, if it leaves it at all. */
  function Slot(due: set<Log>, name: Name): Name {
    if name.log in due && name.n >= 1 then Name(name.log, name.n + 1) else name
  }

  /** A generation past the retention age outlives a run exactly when its log
      was rotated in that run and the shift dropped a generation `keep` to put
      it there: the slot's name is then already reported deleted. */
  lemma OverAgeSurvivesExactlyWhen(before: map<Name, Generation>, rotated: map<Name, Generation>, due: set<Log>,
                                   keep: nat, cutoff: int, name: Name)
    requires keep >= 1 && Rotated(before, rotated, due, keep)
    requires name in before && before[name].mtime < cutoff
    ensures Slot(due, name) in rotated - Doomed(rotated, MadeRoom(before, due, keep), keep, cutoff)
       <==> name.n >= 1 && name.log in due && name.n + 1 == keep && Name(name.log, keep) in before
  {
    if name.log in due && 1 <= name.n < keep {
      assert Same(before, rotated, Name(name.log, name.n), Slot(due, name));
    } else if name.log !in due || name.n == 0 {
      assert Same(before, rotated, name, name);
    }
  }

  /** A run loses no generation that is within `keep` and within age: it is
      left in its own place, or one up if its log was rotated. */
  lemma FreshGenerationsAreKept(before: map<Name, Generation>, rotated: map<Name, Generation>, due: set<Log>, keep: nat,
                                cutoff: int, name: Name)
    requires keep >= 1 && Rotated(before, rotated, due, keep)
    requires name in before && 1 <= name.n <= keep && before[name].mtime >= cutoff
    requires name.log in due ==> name.n < keep
    ensures var left := rotated - Doomed(rotated, MadeRoom(before, due, keep), keep, cutoff);
      Same(before, left, name, Slot(due, name))
  {
    if name.log in due {
      assert Same(before, rotated, Name(name.log, name.n), Name(name.log, name.n + 1));
    } else {
      assert Same(before, rotated, name, name);
    }
  }
}
