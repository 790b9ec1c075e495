/** The off-site copy of a backup set: upload beside the final name, read
    everything back, move into place, then prune. Every destination command may
    fail, with or without its effect, so a crash between any two commands is a
    failure of the earlier one. */
module OffsiteCopy {
  import opened Common

  type Bytes = seq<bv8>
  type Digest = int

  /** A copied file as the manifest lists it. */
  datatype Entry = Entry(name: string, bytes: nat, sha256: Digest)

  /** The hash, and the text of a manifest listing the given files. */
  datatype Codec = Codec(sha256: Bytes -> Digest, manifest: seq<Entry> -> Bytes)

  /** A directory at the destination: `<set>`, `<set>.partial`, or neither. A
      set is named by its UTC timestamp, so the order of names is that of time. */
  datatype DirName = Final(set_: int) | Partial(set_: int) | Other(text: string)

  type Dir = map<string, Bytes>
  type Dirs = map<DirName, Dir>

  const MANIFEST := "OFFSITE-MANIFEST.json"

  /** What a read-back that matches the entry has seen. */
  predicate Matches(c: Codec, dir: Dir, e: Entry) {
    e.name in dir && |dir[e.name]| == e.bytes && c.sha256(dir[e.name]) == e.sha256
  }

  /** The directory holds a manifest of `files`, those files as listed, and
      nothing else. */
  predicate Verified(c: Codec, dir: Dir, files: seq<Entry>) {
    && MANIFEST in dir && c.sha256(dir[MANIFEST]) == c.sha256(c.manifest(files))
    && (forall e :: e in files ==> e.name != MANIFEST && Matches(c, dir, e))
    && (forall name :: name in dir && name != MANIFEST ==> exists e :: e in files && e.name == name)
  }

  ghost predicate IsVerified(c: Codec, dir: Dir) {
    exists files :: Verified(c, dir, files)
  }

  /** What the listing shows as a verified set. */
  predicate Listed(dirs: Dirs, set_: int) {
    Final(set_) in dirs && MANIFEST in dirs[Final(set_)]
  }

  /** Every set the destination lists as verified is one. */
  ghost predicate Safe(c: Codec, dirs: Dirs) {
    forall set_ :: Listed(dirs, set_) ==> IsVerified(c, dirs[Final(set_)])
  }

  predicate SameAt(before: Dirs, after: Dirs, d: DirName) {
    (d in before <==> d in after) && (d in before ==> before[d] == after[d])
  }

  /** Nothing has changed but at the given names. */
  ghost predicate Elsewhere(before: Dirs, after: Dirs, names: set<DirName>) {
    forall d :: d !in names ==> (d in before <==> d in after) && (d in before ==> before[d] == after[d])
  }

  // -------------------------------------------------------- commands and answers

  datatype Command =
    | MakeRoot
    | ListAll
    | RemoveIt(d: DirName)
    | Make(d: DirName)
    | Send(d: DirName, name: string, content: Bytes)
    | Read(d: DirName, name: string)
    | MoveIt(from: DirName, to: DirName)

  datatype Answer =
    | Failed
    | Succeeded
    | Hashed(sha256: Digest, bytes: nat)
    | Names(verified: seq<int>, partials: seq<DirName>)

  /** A command given to the destination, and what came back. */
  datatype Done = Done(command: Command, answer: Answer)

  /** The command has not failed; a read-back shows the file just sent. Of the
      manifest only the hash is compared. */
  predicate Well(c: Codec, done: seq<Done>, i: nat)
    requires i < |done|
  {
    match done[i].answer
    case Failed => false
    case Hashed(sha256, bytes) =>
      && i > 0 && done[i - 1].command.Send? && sha256 == c.sha256(done[i - 1].command.content)
      && (done[i - 1].command.name == MANIFEST || bytes == |done[i - 1].command.content|)
    case _ => true
  }

  /** Every command from `from` on went well. */
  ghost predicate AllWell(c: Codec, done: seq<Done>, from: nat) {
    forall i :: from <= i < |done| ==> Well(c, done, i)
  }

  /** Since `base` the first `n` commands of `plan` have been given, in that
      order, and all went well. */
  ghost predicate Along(c: Codec, base: seq<Done>, done: seq<Done>, plan: seq<Command>, n: nat) {
    n <= |plan| && if n == 0 then done == base else Gave(c, base, done, plan, n - 1) && Well(c, done, |done| - 1)
  }

  /** Since `base` the first `n` commands of `plan` have gone well, and then the
      next was given. */
  ghost predicate Gave(c: Codec, base: seq<Done>, done: seq<Done>, plan: seq<Command>, n: nat) {
    && n < |plan| && done != [] && done[|done| - 1].command == plan[n]
    && Along(c, base, done[..|done| - 1], plan, n)
  }

  /** Since `base` the commands of `plan` have been given, in that order, up to
      one that did not go well. */
  ghost predicate CutShort(c: Codec, base: seq<Done>, done: seq<Done>, plan: seq<Command>) {
    exists n: nat :: Gave(c, base, done, plan, n) && !Well(c, done, |done| - 1)
  }

  function Last(done: seq<Done>): Done
    requires done != []
  {
    done[|done| - 1]
  }

  /** The whole plan was carried out, or it was cut short; `ok` says which. */
  ghost predicate CarriedOut(c: Codec, base: seq<Done>, done: seq<Done>, plan: seq<Command>, ok: bool) {
    if ok then Along(c, base, done, plan, |plan|) else CutShort(c, base, done, plan)
  }

  lemma OneMore(c: Codec, base: seq<Done>, mid: seq<Done>, done: seq<Done>, plan: seq<Command>, n: nat)
    requires Along(c, base, mid, plan, n) && n < |plan|
    requires mid < done && |done| == |mid| + 1 && done[|mid|].command == plan[n]
    ensures if Well(c, done, |mid|) then Along(c, base, done, plan, n + 1) else CutShort(c, base, done, plan)
  {
    assert done[..|done| - 1] == mid;
    assert Gave(c, base, done, plan, n);
  }

  lemma {:induction false} AlongBoth(c: Codec, base: seq<Done>, mid: seq<Done>, done: seq<Done>,
                                     first: seq<Command>, second: seq<Command>, n: nat)
    requires Along(c, base, mid, first, |first|) && Along(c, mid, done, second, n)
    ensures Along(c, base, done, first + second, |first| + n)
  {
    if n > 0 {
      AlongBoth(c, base, mid, done[..|done| - 1], first, second, n - 1);
    } else {
      SameStart(c, base, mid, first, first + second, |first|);
    }
  }

  lemma {:induction false} SameStart(c: Codec, base: seq<Done>, done: seq<Done>, start: seq<Command>,
                                     plan: seq<Command>, n: nat)
    requires Along(c, base, done, start, n) && start <= plan
    ensures Along(c, base, done, plan, n)
  {
    if n > 0 {
      SameStart(c, base, done[..|done| - 1], start, plan, n - 1);
    }
  }

  /** One plan after another is a plan. */
  lemma Then(c: Codec, base: seq<Done>, mid: seq<Done>, done: seq<Done>, first: seq<Command>, second: seq<Command>,
             ok: bool)
    requires CarriedOut(c, base, mid, first, true) && CarriedOut(c, mid, done, second, ok)
    ensures CarriedOut(c, base, done, first + second, ok)
  {
    if ok {
      AlongBoth(c, base, mid, done, first, second, |second|);
    } else {
      var n: nat :| Gave(c, mid, done, second, n);
      AlongBoth(c, base, mid, done[..|done| - 1], first, second, n);
      assert Gave(c, base, done, first + second, |first| + n);
    }
  }

  /** What is cut short is no longer than it was meant to be. */
  lemma CutShortEarly(c: Codec, base: seq<Done>, done: seq<Done>, start: seq<Command>, plan: seq<Command>)
    requires CarriedOut(c, base, done, start, false) && start <= plan
    ensures CarriedOut(c, base, done, plan, false)
  {
    var n: nat :| Gave(c, base, done, start, n);
    SameStart(c, base, done[..|done| - 1], start, plan, n);
    assert Gave(c, base, done, plan, n);
  }

  /** A plan is carried out to its end exactly when every command of it goes well. */
  lemma {:induction false} EndedExactlyWhen(c: Codec, base: seq<Done>, done: seq<Done>, plan: seq<Command>, ok: bool)
    requires CarriedOut(c, base, done, plan, ok)
    ensures base <= done && (ok <==> AllWell(c, done, |base|))
  {
    if ok {
      AlongWell(c, base, done, plan, |plan|);
    } else {
      var n: nat :| Gave(c, base, done, plan, n) && !Well(c, done, |done| - 1);
      AlongWell(c, base, done[..|done| - 1], plan, n);
    }
  }

  lemma {:induction false} AlongWell(c: Codec, base: seq<Done>, done: seq<Done>, plan: seq<Command>, n: nat)
    requires Along(c, base, done, plan, n)
    ensures base <= done && |done| == |base| + n && AllWell(c, done, |base|)
  {
    if n > 0 {
      var before := done[..|done| - 1];
      AlongWell(c, base, before, plan, n - 1);
      forall i | |base| <= i < |done| ensures Well(c, done, i) {
        assert i < |before| ==> Well(c, before, i);
      }
    }
  }

  /** The destination, over ssh. `seen` is every state it has been in, `done`
      every command it was given. */
  class Remote {
    const c: Codec
    var dirs: Dirs
    ghost var seen: seq<Dirs>
    ghost var done: seq<Done>

    ghost predicate AlwaysSafe()
      reads this
    {
      Safe(c, dirs) && forall i :: 0 <= i < |seen| ==> Safe(c, seen[i])
    }

    constructor (c: Codec, dirs: Dirs)
      requires Safe(c, dirs)
      ensures this.c == c && this.dirs == dirs && seen == [dirs] && done == [] && AlwaysSafe()
    {
      this.c, this.dirs, this.seen, this.done := c, dirs, [dirs], [];
    }

    /** `mkdir -p` of the directory that holds the sets. */
    method MakeRoot() returns (ok: bool)
      modifies this`done
      ensures done == old(done) + [Done(Command.MakeRoot, if ok then Succeeded else Failed)]
    {
      ok := *;
      done := done + [Done(Command.MakeRoot, if ok then Succeeded else Failed)];
    }

    /** `rm -rf`. */
    method RemoveAll(d: DirName) returns (ok: bool)
      requires AlwaysSafe()
      modifies this
      ensures AlwaysSafe() && seen == old(seen) + [dirs]
      ensures done == old(done) + [Done(RemoveIt(d), if ok then Succeeded else Failed)]
      ensures dirs == old(dirs) - {d} || (!ok && dirs == old(dirs))
      ensures Elsewhere(old(dirs), dirs, {d})
    {
      ok := *;
      var effect := *;
      if ok || effect {
        dirs := dirs - {d};
      }
      seen := seen + [dirs];
      done := done + [Done(RemoveIt(d), if ok then Succeeded else Failed)];
    }

    /** `mkdir -p`. */
    method MakeDir(d: DirName) returns (ok: bool)
      requires AlwaysSafe()
      modifies this
      ensures AlwaysSafe() && seen == old(seen) + [dirs]
      ensures done == old(done) + [Done(Make(d), if ok then Succeeded else Failed)]
      ensures dirs == (if d in old(dirs) then old(dirs) else old(dirs)[d := map[]]) || (!ok && dirs == old(dirs))
      ensures Elsewhere(old(dirs), dirs, {d})
    {
      ok := *;
      var effect := *;
      if (ok || effect) && d !in dirs {
        dirs := dirs[d := map[]];
      }
      seen := seen + [dirs];
      done := done + [Done(Make(d), if ok then Succeeded else Failed)];
    }

    /** `cat > <d>/<name>`: whatever arrives is stored. */
    method Upload(d: DirName, name: string, content: Bytes) returns (ok: bool, ghost stored: Bytes)
      requires AlwaysSafe() && d.Partial?
      modifies this
      ensures AlwaysSafe() && seen == old(seen) + [dirs]
      ensures done == old(done) + [Done(Send(d, name, content), if ok then Succeeded else Failed)]
      ensures ok ==> d in old(dirs)
      ensures (d in old(dirs) && dirs == old(dirs)[d := old(dirs)[d][name := stored]]) || (!ok && dirs == old(dirs))
      ensures Elsewhere(old(dirs), dirs, {d})
    {
      var arrived: Bytes := *;
      stored := arrived;
      ok := *;
      var effect := *;
      if d !in dirs {
        ok := false;
      } else if ok || effect {
        dirs := dirs[d := dirs[d][name := arrived]];
      }
      seen := seen + [dirs];
      done := done + [Done(Send(d, name, content), if ok then Succeeded else Failed)];
    }

    /** Streams a file back and hashes it. */
    method ReadBack(d: DirName, name: string) returns (ok: bool, sha256: Digest, bytes: nat)
      modifies this`done
      ensures done == old(done) + [Done(Read(d, name), if ok then Hashed(sha256, bytes) else Failed)]
      ensures ok ==> d in dirs && name in dirs[d] && sha256 == c.sha256(dirs[d][name]) && bytes == |dirs[d][name]|
    {
      ok := *;
      sha256, bytes := 0, 0;
      if d !in dirs || name !in dirs[d] {
        ok := false;
      } else if ok {
        sha256, bytes := c.sha256(dirs[d][name]), |dirs[d][name]|;
      }
      done := done + [Done(Read(d, name), if ok then Hashed(sha256, bytes) else Failed)];
    }

    /** `mv <from> <to>`, when nothing is in the way. */
    method Move(from: DirName, to: DirName) returns (ok: bool)
      requires AlwaysSafe() && to !in dirs
      requires from in dirs ==> IsVerified(c, dirs[from])
      modifies this
      ensures AlwaysSafe() && seen == old(seen) + [dirs]
      ensures done == old(done) + [Done(MoveIt(from, to), if ok then Succeeded else Failed)]
      ensures ok ==> from in old(dirs)
      ensures (from in old(dirs) && dirs == (old(dirs) - {from})[to := old(dirs)[from]]) || (!ok && dirs == old(dirs))
      ensures Elsewhere(old(dirs), dirs, {from, to})
    {
      ok := *;
      var effect := *;
      if from !in dirs {
        ok := false;
      } else if ok || effect {
        dirs := (dirs - {from})[to := dirs[from]];
      }
      seen := seen + [dirs];
      done := done + [Done(MoveIt(from, to), if ok then Succeeded else Failed)];
    }

    /** The sets listed as verified, and the directories a retention may clear:
        partial directories, and final ones, that hold no manifest. */
    method ListSets() returns (ok: bool, verified: seq<int>, partials: seq<DirName>)
      modifies this`done
      ensures done == old(done) + [Done(ListAll, if ok then Names(verified, partials) else Failed)]
      ensures ok ==> Unique(verified) && forall s :: s in verified <==> Listed(dirs, s)
      ensures ok ==> forall d :: d in partials <==> Clearable(dirs, d)
    {
      ok := *;
      verified, partials := [], [];
      var names := dirs.Keys;
      while names != {}
        invariant names <= dirs.Keys
        invariant Unique(verified) && forall s :: s in verified <==> Listed(dirs, s) && Final(s) !in names
        invariant forall d :: d in partials <==> Clearable(dirs, d) && d !in names
        decreases |names|
      {
        var d :| d in names;
        names := names - {d};
        var hasManifest := MANIFEST in dirs[d];
        if hasManifest && d.Final? {
          verified := verified + [d.set_];
        } else if !hasManifest && (d.Final? || d.Partial?) {
          partials := partials + [d];
        }
      }
      SortedInOrder(verified);
      verified := Sorted(verified);
      done := done + [Done(ListAll, if ok then Names(verified, partials) else Failed)];
    }
  }

  predicate Clearable(dirs: Dirs, d: DirName) {
    d in dirs && MANIFEST !in dirs[d] && !d.Other?
  }

  // ------------------------------------------------------------------- sorting

  predicate Unique(s: seq<int>) {
    forall i, j :: 0 <= i < j < |s| ==> s[i] != s[j]
  }

  predicate Ascending(s: seq<int>) {
    forall i, j :: 0 <= i < j < |s| ==> s[i] < s[j]
  }

  function Elements(s: seq<int>): set<int> {
    set x | x in s
  }

  function Insert(x: int, s: seq<int>): seq<int> {
    if s == [] || x <= s[0] then [x] + s else [s[0]] + Insert(x, s[1..])
  }

  function Sorted(s: seq<int>): seq<int> {
    if s == [] then [] else Insert(s[0], Sorted(s[1..]))
  }

  lemma {:induction false} InsertInOrder(x: int, s: seq<int>)
    requires Ascending(s) && x !in s
    ensures Ascending(Insert(x, s)) && |Insert(x, s)| == |s| + 1
    ensures forall y :: y in Insert(x, s) <==> y == x || y in s
  {
    if s != [] && x > s[0] {
      InsertInOrder(x, s[1..]);
      assert s == [s[0]] + s[1..];
      var rest := Insert(x, s[1..]);
      forall k | 0 <= k < |rest| ensures s[0] < rest[k] {
        assert rest[k] in rest;
      }
    }
  }

  /** Sorting distinct names puts them in order and loses none. */
  lemma {:induction false} SortedInOrder(s: seq<int>)
    requires Unique(s)
    ensures Ascending(Sorted(s)) && |Sorted(s)| == |s|
    ensures forall y :: y in Sorted(s) <==> y in s
  {
    if s != [] {
      SortedInOrder(s[1..]);
      InsertInOrder(s[0], Sorted(s[1..]));
      assert s == [s[0]] + s[1..];
    }
  }

  // ----------------------------------------------------------------- retention

  /** All but the newest `keep`; nothing, and an error, if `keep` is below 1. */
  function SetsToDelete(verified: seq<int>, keep: int): (r: Option<seq<int>>) {
    if keep < 1 then None else
    var ordered := Sorted(verified);
    Some(if |ordered| > keep then ordered[..|ordered| - keep] else [])
  }

  lemma {:induction false} Count(s: seq<int>)
    requires Unique(s)
    ensures |Elements(s)| == |s|
  {
    if s != [] {
      Count(s[1..]);
      assert Elements(s) == Elements(s[1..]) + {s[0]};
    }
  }

  /** `kept` is what is to remain of `all`: as many as allowed, and the newest. */
  predicate NewestOf(all: set<int>, kept: set<int>, keep: int) {
    && kept <= all && |kept| == (if |all| < keep then |all| else keep)
    && forall k, d :: k in kept && d in all - kept ==> d < k
  }

  lemma CutApart(ordered: seq<int>, cut: nat)
    requires Ascending(ordered) && cut <= |ordered|
    ensures Elements(ordered) == Elements(ordered[..cut]) + Elements(ordered[cut..])
    ensures forall k, d :: k in ordered[cut..] && d in ordered[..cut] ==> d < k
  {
    assert ordered == ordered[..cut] + ordered[cut..];
    forall k, d | k in ordered[cut..] && d in ordered[..cut] ensures d < k {
      var i :| 0 <= i < cut && ordered[..cut][i] == d;
      var j :| 0 <= j < |ordered| - cut && ordered[cut..][j] == k;
      assert ordered[i] == d && ordered[cut + j] == k;
    }
  }

  /** Cutting an ascending list of distinct names leaves the newest. */
  lemma CutByAge(ordered: seq<int>, cut: nat)
    requires Ascending(ordered) && cut <= |ordered|
    ensures |Elements(ordered)| == |ordered|
    ensures NewestOf(Elements(ordered), Elements(ordered) - Elements(ordered[..cut]), |ordered| - cut)
  {
    Count(ordered);
    Count(ordered[cut..]);
    CutApart(ordered, cut);
    assert Elements(ordered) - Elements(ordered[..cut]) == Elements(ordered[cut..]);
  }

  lemma KeepsTheNewest(verified: seq<int>, keep: int)
    requires keep >= 1 && Unique(verified)
    ensures NewestOf(Elements(verified), Elements(verified) - Elements(SetsToDelete(verified, keep).value), keep)
  {
    var ordered := Sorted(verified);
    SortedElements(verified);
    var dropped := SetsToDelete(verified, keep).value;
    var cut := if |ordered| > keep then |ordered| - keep else 0;
    assert dropped == ordered[..cut];
    CutByAge(ordered, cut);
  }

  lemma SortedElements(s: seq<int>)
    requires Unique(s)
    ensures Ascending(Sorted(s)) && Elements(Sorted(s)) == Elements(s)
  {
    SortedInOrder(s);
    forall x ensures x in Elements(Sorted(s)) <==> x in Elements(s) {
    }
  }

  lemma NewerThan(ordered: seq<int>, i: nat)
    requires Ascending(ordered) && i < |ordered|
    ensures |set s | s in ordered && s > ordered[i]| == |ordered| - i - 1
  {
    var newer := set s | s in ordered && s > ordered[i];
    var tail := ordered[i + 1..];
    forall s ensures s in newer <==> s in Elements(tail) {
      if s in newer {
        var k :| 0 <= k < |ordered| && ordered[k] == s;
        assert k > i && tail[k - i - 1] == s;
      }
    }
    Count(tail);
    assert newer == Elements(tail);
  }

  /** A set is pruned exactly when at least `keep` newer ones are verified. */
  lemma PrunedExactlyWhen(verified: seq<int>, keep: int, current: int)
    requires keep >= 1 && Unique(verified) && current in verified
    ensures current in SetsToDelete(verified, keep).value <==> |set s | s in verified && s > current| >= keep
  {
    var ordered := Sorted(verified);
    SortedInOrder(verified);
    var i :| 0 <= i < |ordered| && ordered[i] == current;
    NewerThan(ordered, i);
    assert (set s | s in verified && s > current) == set s | s in ordered && s > current;
    var cut := if |ordered| > keep then |ordered| - keep else 0;
    if i < cut {
      assert ordered[..cut][i] == current;
    } else {
      assert forall k :: 0 <= k < cut ==> ordered[..cut][k] == ordered[k];
    }
  }

  // ---------------------------------------------------------------- the copying

  type Staging = map<string, Bytes>

  function EntryOf(c: Codec, staging: Staging, name: string): Entry
    requires name in staging
  {
    Entry(name, |staging[name]|, c.sha256(staging[name]))
  }

  /** The manifest entries of the encrypted files, in order. */
  function Entries(c: Codec, staging: Staging, names: seq<string>): (r: seq<Entry>)
    requires forall n :: n in names ==> n in staging
    ensures |r| == |names| && forall i :: 0 <= i < |names| ==> r[i] == EntryOf(c, staging, names[i])
  {
    seq(|names|, i requires 0 <= i < |names| => EntryOf(c, staging, names[i]))
  }

  /** The partial directory holds the first `n` files, each read back. */
  predicate CopiedSoFar(c: Codec, dir: Dir, entries: seq<Entry>, n: nat)
    requires n <= |entries|
  {
    && (forall i :: 0 <= i < n ==> Matches(c, dir, entries[i]))
    && (forall name :: name in dir ==> exists i :: 0 <= i < n && entries[i].name == name)
  }

  lemma OneMoreCopied(c: Codec, dir: Dir, entries: seq<Entry>, n: nat, stored: Bytes)
    requires n < |entries| && CopiedSoFar(c, dir, entries, n)
    requires |stored| == entries[n].bytes && c.sha256(stored) == entries[n].sha256
    requires forall i, j :: 0 <= i < |entries| && 0 <= j < |entries| && entries[i].name == entries[j].name ==>
               entries[i] == entries[j]
    ensures CopiedSoFar(c, dir[entries[n].name := stored], entries, n + 1)
  {
    var after := dir[entries[n].name := stored];
    forall name | name in after ensures exists i :: 0 <= i < n + 1 && entries[i].name == name {
      if name == entries[n].name {
      } else {
        assert name in dir;
      }
    }
  }

  lemma ManifestCompletes(c: Codec, dir: Dir, entries: seq<Entry>, stored: Bytes)
    requires CopiedSoFar(c, dir, entries, |entries|)
    requires forall i :: 0 <= i < |entries| ==> entries[i].name != MANIFEST
    requires c.sha256(stored) == c.sha256(c.manifest(entries))
    ensures Verified(c, dir[MANIFEST := stored], entries)
  {
    var after := dir[MANIFEST := stored];
    forall name | name in after && name != MANIFEST ensures exists e :: e in entries && e.name == name {
      assert name in dir;
      var i :| 0 <= i < |entries| && entries[i].name == name;
      assert entries[i] in entries;
    }
  }

  /** A partial directory is made anew; then each of the first `n` files is sent
      and read back. */
  function UploadPlan(d: DirName, staging: Staging, names: seq<string>, n: nat): seq<Command>
    requires n <= |names| && forall name :: name in names ==> name in staging
  {
    if n == 0 then [RemoveIt(d), Make(d)]
    else UploadPlan(d, staging, names, n - 1)
         + [Send(d, names[n - 1], staging[names[n - 1]]), Read(d, names[n - 1])]
  }

  lemma {:induction false} UploadPlanGrows(d: DirName, staging: Staging, names: seq<string>, n: nat, m: nat)
    requires n <= m <= |names| && forall name :: name in names ==> name in staging
    ensures UploadPlan(d, staging, names, n) <= UploadPlan(d, staging, names, m)
  {
    if n < m {
      UploadPlanGrows(d, staging, names, n, m - 1);
    }
  }

  /** The plan of the whole upload, as far as it was carried out. */
  lemma NoneUploaded(c: Codec, base: seq<Done>, done: seq<Done>, d: DirName, staging: Staging, names: seq<string>,
                     ok: bool)
    requires forall name :: name in names ==> name in staging
    requires CarriedOut(c, base, done, [RemoveIt(d), Make(d)], ok)
    ensures CarriedOut(c, base, done, UploadPlan(d, staging, names, if ok then 0 else |names|), ok)
  {
    UploadPlanGrows(d, staging, names, 0, |names|);
    if !ok {
      CutShortEarly(c, base, done, UploadPlan(d, staging, names, 0), UploadPlan(d, staging, names, |names|));
    }
  }

  lemma OneMoreUploaded(c: Codec, base: seq<Done>, mid: seq<Done>, done: seq<Done>, d: DirName, staging: Staging,
                        names: seq<string>, n: nat, ok: bool)
    requires n < |names| && forall name :: name in names ==> name in staging
    requires CarriedOut(c, base, mid, UploadPlan(d, staging, names, n), true)
    requires CarriedOut(c, mid, done, [Send(d, names[n], staging[names[n]]), Read(d, names[n])], ok)
    ensures CarriedOut(c, base, done, UploadPlan(d, staging, names, if ok then n + 1 else |names|), ok)
  {
    Then(c, base, mid, done, UploadPlan(d, staging, names, n),
         [Send(d, names[n], staging[names[n]]), Read(d, names[n])], ok);
    if !ok {
      UploadPlanGrows(d, staging, names, n + 1, |names|);
      CutShortEarly(c, base, done, UploadPlan(d, staging, names, n + 1), UploadPlan(d, staging, names, |names|));
    }
  }

  /** Then the manifest is sent and read back, and the directory moved into the
      place of the old copy. */
  function CopyPlan(c: Codec, set_: int, staging: Staging, names: seq<string>): seq<Command>
    requires forall name :: name in names ==> name in staging
  {
    var manifest := c.manifest(Entries(c, staging, names));
    UploadPlan(Partial(set_), staging, names, |names|)
    + [Send(Partial(set_), MANIFEST, manifest), Read(Partial(set_), MANIFEST)]
    + [RemoveIt(Final(set_)), MoveIt(Partial(set_), Final(set_))]
  }

  function Removals(doomed: seq<DirName>): (r: seq<Command>)
    ensures |r| == |doomed| && forall i :: 0 <= i < |doomed| ==> r[i] == RemoveIt(doomed[i])
  {
    seq(|doomed|, i requires 0 <= i < |doomed| => RemoveIt(doomed[i]))
  }

  /** Sends a file and reads it back. Of the manifest only the hash is compared. */
  method SendAndCheck(remote: Remote, d: DirName, name: string, content: Bytes) returns (ok: bool, ghost stored: Bytes)
    requires remote.AlwaysSafe() && d.Partial?
    modifies remote
    ensures remote.AlwaysSafe() && old(remote.seen) <= remote.seen
    ensures CarriedOut(remote.c, old(remote.done), remote.done, [Send(d, name, content), Read(d, name)], ok)
    ensures Elsewhere(old(remote.dirs), remote.dirs, {d})
    ensures ok ==>
      d in old(remote.dirs) && remote.dirs == old(remote.dirs)[d := old(remote.dirs)[d][name := stored]]
      && remote.c.sha256(stored) == remote.c.sha256(content) && (name == MANIFEST || |stored| == |content|)
  {
    ghost var base, plan := remote.done, [Send(d, name, content), Read(d, name)];
    ok, stored := remote.Upload(d, name, content);
    ghost var sent := remote.done;
    OneMore(remote.c, base, base, sent, plan, 0);
    if !ok { return; }
    var sha256, bytes;
    ok, sha256, bytes := remote.ReadBack(d, name);
    OneMore(remote.c, base, sent, remote.done, plan, 1);
    ok := ok && sha256 == remote.c.sha256(content) && (name == MANIFEST || bytes == |content|);
  }

  /** `rm -rf <d> && mkdir -p <d>`. */
  method MakeAnew(remote: Remote, d: DirName) returns (ok: bool)
    requires remote.AlwaysSafe() && d.Partial?
    modifies remote
    ensures remote.AlwaysSafe() && old(remote.seen) <= remote.seen
    ensures CarriedOut(remote.c, old(remote.done), remote.done, [RemoveIt(d), Make(d)], ok)
    ensures Elsewhere(old(remote.dirs), remote.dirs, {d})
    ensures ok ==> d in remote.dirs && remote.dirs[d] == map[]
  {
    ghost var base, plan := remote.done, [RemoveIt(d), Make(d)];
    ok := remote.RemoveAll(d);
    ghost var mid := remote.done;
    OneMore(remote.c, base, base, mid, plan, 0);
    if !ok { return; }
    ok := remote.MakeDir(d);
    OneMore(remote.c, base, mid, remote.done, plan, 1);
  }

  /** `rm -rf <to> && mv <from> <to>`. */
  method Replace(remote: Remote, from: DirName, to: DirName) returns (ok: bool)
    requires remote.AlwaysSafe() && from != to
    requires from in remote.dirs ==> IsVerified(remote.c, remote.dirs[from])
    modifies remote
    ensures remote.AlwaysSafe() && old(remote.seen) <= remote.seen
    ensures CarriedOut(remote.c, old(remote.done), remote.done, [RemoveIt(to), MoveIt(from, to)], ok)
    ensures Elsewhere(old(remote.dirs), remote.dirs, {from, to})
    ensures ok ==> from in old(remote.dirs)
    ensures from in remote.dirs ==>
      SameAt(old(remote.dirs), remote.dirs, from)
      && (to in remote.dirs ==> SameAt(old(remote.dirs), remote.dirs, to))
    ensures from !in remote.dirs && from in old(remote.dirs) ==>
      to in remote.dirs && remote.dirs[to] == old(remote.dirs)[from]
    ensures ok ==> from !in remote.dirs
  {
    ghost var base, plan := remote.done, [RemoveIt(to), MoveIt(from, to)];
    ok := remote.RemoveAll(to);
    ghost var mid := remote.done;
    OneMore(remote.c, base, base, mid, plan, 0);
    if !ok { return; }
    ok := remote.Move(from, to);
    OneMore(remote.c, base, mid, remote.done, plan, 1);
  }

  /** The first `n` files have been sent, read back and found right. */
  ghost predicate Uploaded(c: Codec, base: seq<Done>, done: seq<Done>, dirs: Dirs, d: DirName, staging: Staging,
                           names: seq<string>, n: nat)
    requires n <= |names| && forall name :: name in names ==> name in staging
  {
    && CarriedOut(c, base, done, UploadPlan(d, staging, names, n), true)
    && d in dirs && CopiedSoFar(c, dirs[d], Entries(c, staging, names), n)
  }

  /** Uploads the `n`-th file, the ones before it being there. */
  method UploadNext(remote: Remote, d: DirName, staging: Staging, names: seq<string>, n: nat, ghost base: seq<Done>)
      returns (ok: bool)
    requires remote.AlwaysSafe() && d.Partial?
    requires n < |names| && forall name :: name in names ==> name in staging && name != MANIFEST
    requires Uploaded(remote.c, base, remote.done, remote.dirs, d, staging, names, n)
    modifies remote
    ensures remote.AlwaysSafe() && old(remote.seen) <= remote.seen
    ensures Elsewhere(old(remote.dirs), remote.dirs, {d})
    ensures if ok then Uploaded(remote.c, base, remote.done, remote.dirs, d, staging, names, n + 1)
            else CarriedOut(remote.c, base, remote.done, UploadPlan(d, staging, names, |names|), false)
  {
    ghost var dir, sofar := remote.dirs[d], remote.done;
    ghost var stored;
    ok, stored := SendAndCheck(remote, d, names[n], staging[names[n]]);
    OneMoreUploaded(remote.c, base, sofar, remote.done, d, staging, names, n, ok);
    if ok {
      OneMoreCopied(remote.c, dir, Entries(remote.c, staging, names), n, stored);
    }
  }

  /** Uploads every file into a fresh partial directory, reading each back. */
  method UploadAll(remote: Remote, set_: int, staging: Staging, names: seq<string>) returns (ok: bool)
    requires remote.AlwaysSafe()
    requires forall n :: n in names ==> n in staging && n != MANIFEST
    modifies remote
    ensures remote.AlwaysSafe() && old(remote.seen) <= remote.seen
    ensures CarriedOut(remote.c, old(remote.done), remote.done, UploadPlan(Partial(set_), staging, names, |names|), ok)
    ensures Elsewhere(old(remote.dirs), remote.dirs, {Partial(set_)})
    ensures ok ==>
      Partial(set_) in remote.dirs
      && CopiedSoFar(remote.c, remote.dirs[Partial(set_)], Entries(remote.c, staging, names), |names|)
  {
    var partial := Partial(set_);
    ghost var base := remote.done;
    ok := MakeAnew(remote, partial);
    NoneUploaded(remote.c, base, remote.done, partial, staging, names, ok);
    if !ok { return; }
    for i := 0 to |names|
      invariant remote.AlwaysSafe() && old(remote.seen) <= remote.seen
      invariant Elsewhere(old(remote.dirs), remote.dirs, {partial})
      invariant ok && Uploaded(remote.c, base, remote.done, remote.dirs, partial, staging, names, i)
    {
      ok := UploadNext(remote, partial, staging, names, i, base);
      if !ok { return; }
    }
  }

  /** Copies one set. Whatever fails, every set the destination lists is a
      verified one in every state it passes through; the old copy of this set
      is dropped only once its replacement is complete and verified beside it. */
  method CopySet(remote: Remote, set_: int, staging: Staging, names: seq<string>) returns (ok: bool)
    requires remote.AlwaysSafe()
    requires forall n :: n in names ==> n in staging && n != MANIFEST
    modifies remote
    ensures remote.AlwaysSafe() && old(remote.seen) <= remote.seen
    ensures CarriedOut(remote.c, old(remote.done), remote.done, CopyPlan(remote.c, set_, staging, names), ok)
    ensures Elsewhere(old(remote.dirs), remote.dirs, {Final(set_), Partial(set_)})
    ensures ok ==>
      Final(set_) in remote.dirs && Partial(set_) !in remote.dirs
      && Verified(remote.c, remote.dirs[Final(set_)], Entries(remote.c, staging, names))
    ensures !SameAt(old(remote.dirs), remote.dirs, Final(set_)) ==>
      (Final(set_) in remote.dirs && IsVerified(remote.c, remote.dirs[Final(set_)]))
      || (Partial(set_) in remote.dirs && IsVerified(remote.c, remote.dirs[Partial(set_)]))
  {
    var partial, final := Partial(set_), Final(set_);
    ghost var base, plan := remote.done, CopyPlan(remote.c, set_, staging, names);
    ghost var upload := UploadPlan(partial, staging, names, |names|);
    ok := UploadAll(remote, set_, staging, names);
    ghost var uploaded := remote.done;
    if !ok {
      CutShortEarly(remote.c, base, uploaded, upload, plan);
      return;
    }
    var manifest := remote.c.manifest(Entries(remote.c, staging, names));
    ghost var send := [Send(partial, MANIFEST, manifest), Read(partial, MANIFEST)];
    ghost var dir := remote.dirs[partial];
    ghost var stored;
    ok, stored := SendAndCheck(remote, partial, MANIFEST, manifest);
    ghost var checked := remote.done;
    Then(remote.c, base, uploaded, checked, upload, send, ok);
    if !ok {
      CutShortEarly(remote.c, base, checked, upload + send, plan);
      return;
    }
    ManifestCompletes(remote.c, dir, Entries(remote.c, staging, names), stored);
    ok := Replace(remote, partial, final);
    Then(remote.c, base, checked, remote.done, upload + send, [RemoveIt(final), MoveIt(partial, final)], ok);
  }

  /** Removes directories one by one, stopping at the first failure. */
  method RemoveEach(remote: Remote, doomed: seq<DirName>) returns (ok: bool)
    requires remote.AlwaysSafe()
    modifies remote
    ensures remote.AlwaysSafe() && old(remote.seen) <= remote.seen
    ensures CarriedOut(remote.c, old(remote.done), remote.done, Removals(doomed), ok)
    ensures forall d :: d !in doomed || d in remote.dirs ==> SameAt(old(remote.dirs), remote.dirs, d)
    ensures ok ==> forall d :: d in doomed ==> d !in remote.dirs
  {
    ok := true;
    for i := 0 to |doomed|
      invariant remote.AlwaysSafe() && old(remote.seen) <= remote.seen
      invariant forall d :: d !in doomed || d in remote.dirs ==> SameAt(old(remote.dirs), remote.dirs, d)
      invariant forall k :: 0 <= k < i ==> doomed[k] !in remote.dirs
      invariant ok && Along(remote.c, old(remote.done), remote.done, Removals(doomed), i)
    {
      ghost var sofar := remote.done;
      ok := remote.RemoveAll(doomed[i]);
      OneMore(remote.c, old(remote.done), sofar, remote.done, Removals(doomed), i);
      if !ok { return; }
    }
  }

  /** The directories a retention removes. */
  function Doomed(verified: seq<int>, partials: seq<DirName>, keep: int, current: int): (r: seq<DirName>)
    requires keep >= 1
    ensures forall d :: d in r <==>
      (d.Final? && d.set_ in SetsToDelete(verified, keep).value) || (d in partials && d != Partial(current))
  {
    Finals(SetsToDelete(verified, keep).value) + Without(partials, Partial(current))
  }

  /** Removing the doomed leaves the newest sets and nothing to clear. */
  lemma RetentionLeaves(before: Dirs, after: Dirs, verified: seq<int>, partials: seq<DirName>, keep: int, current: int)
    requires keep >= 1 && Unique(verified)
    requires forall s :: s in verified <==> Listed(before, s)
    requires forall d :: d in partials <==> Clearable(before, d)
    requires forall d :: d !in Doomed(verified, partials, keep, current) ==> SameAt(before, after, d)
    requires forall d :: d in Doomed(verified, partials, keep, current) ==> d !in after
    ensures NewestOf(ListedSets(before), ListedSets(after), keep)
    ensures forall d :: Clearable(after, d) ==> d == Partial(current)
  {
    KeepsTheNewest(verified, keep);
    var dropped := SetsToDelete(verified, keep).value;
    forall s ensures s in ListedSets(after) <==> s in Elements(verified) - Elements(dropped) {
      assert s in ListedSets(after) <==> Listed(after, s);
      assert SameAt(before, after, Final(s)) || Final(s) !in after;
    }
    assert ListedSets(before) == Elements(verified) by {
      forall s ensures s in ListedSets(before) <==> s in verified {
        assert s in ListedSets(before) <==> Listed(before, s);
      }
    }
    assert ListedSets(after) == Elements(verified) - Elements(dropped);
    forall d | Clearable(after, d) ensures d == Partial(current) {
      assert SameAt(before, after, d);
      assert d in partials;
    }
  }

  /** Since `base` the sets have been listed; then, if the listing shows the
      current one, the directories it makes removable have been removed. */
  ghost predicate Retained(c: Codec, base: seq<Done>, done: seq<Done>, keep: int, current: int, ok: bool) {
    && base < done && done[|base|].command == ListAll
    && match done[|base|].answer
       case Names(verified, partials) =>
         if current in verified && keep >= 1 then
           CarriedOut(c, done[..|base| + 1], done, Removals(Doomed(verified, partials, keep, current)), ok)
         else !ok && |done| == |base| + 1
       case _ => !ok && |done| == |base| + 1
  }

  lemma AlsoBefore(c: Codec, base: seq<Done>, mid: seq<Done>, done: seq<Done>)
    requires base <= mid <= done && AllWell(c, mid, |base|)
    ensures AllWell(c, done, |base|) <==> AllWell(c, done, |mid|)
  {
    forall i | |base| <= i < |mid| ensures Well(c, done, i) {
      assert Well(c, mid, i);
    }
  }

  lemma RefusedToRetain(c: Codec, base: seq<Done>, answer: Answer, keep: int, current: int)
    requires answer == Failed || (answer.Names? && (current !in answer.verified || keep < 1))
    ensures var done := base + [Done(ListAll, answer)];
            && Retained(c, base, done, keep, current, false)
            && (answer == Failed ==> !AllWell(c, done, |base|))
  {
    if answer == Failed {
      assert !Well(c, base + [Done(ListAll, answer)], |base|);
    }
  }

  lemma HasRetained(c: Codec, base: seq<Done>, listed: seq<Done>, done: seq<Done>, verified: seq<int>,
                    partials: seq<DirName>, keep: int, current: int, ok: bool)
    requires listed == base + [Done(ListAll, Names(verified, partials))] && current in verified && keep >= 1
    requires CarriedOut(c, listed, done, Removals(Doomed(verified, partials, keep, current)), ok)
    ensures Retained(c, base, done, keep, current, ok)
    ensures ok <==> AllWell(c, done, |base|)
  {
    EndedExactlyWhen(c, listed, done, Removals(Doomed(verified, partials, keep, current)), ok);
    AlsoBefore(c, base, listed, done);
    assert done[..|base| + 1] == listed;
  }

  /** Removes what a retention may remove. It refuses to start unless the
      current set is listed as verified. */
  method ApplyRetention(remote: Remote, keep: int, current: int) returns (ok: bool)
    requires remote.AlwaysSafe()
    modifies remote
    ensures remote.AlwaysSafe() && old(remote.seen) <= remote.seen
    ensures Retained(remote.c, old(remote.done), remote.done, keep, current, ok)
    ensures ok <==>
      keep >= 1 && Listed(old(remote.dirs), current) && AllWell(remote.c, remote.done, |old(remote.done)|)
    ensures keep < 1 || !Listed(old(remote.dirs), current) ==> remote.dirs == old(remote.dirs)
    ensures forall d :: !SameAt(old(remote.dirs), remote.dirs, d) ==>
      d !in remote.dirs && d != Partial(current)
      && ((d.Final? && Listed(old(remote.dirs), d.set_)) || Clearable(old(remote.dirs), d))
    ensures ok ==> NewestOf(ListedSets(old(remote.dirs)), ListedSets(remote.dirs), keep)
    ensures ok ==> forall d :: Clearable(remote.dirs, d) ==> d == Partial(current)
    ensures ok ==> forall s :: Partial(s) in remote.dirs <==>
      Partial(s) in old(remote.dirs) && (s == current || MANIFEST in old(remote.dirs)[Partial(s)])
  {
    var verified, partials;
    ok, verified, partials := remote.ListSets();
    ghost var listed := remote.done;
    if !ok || current !in verified || keep < 1 {
      RefusedToRetain(remote.c, old(remote.done), Last(listed).answer, keep, current);
      return false;
    }
    ghost var before := remote.dirs;
    SortedInOrder(verified);
    var doomed := Doomed(verified, partials, keep, current);
    ok := RemoveEach(remote, doomed);
    HasRetained(remote.c, old(remote.done), listed, remote.done, verified, partials, keep, current, ok);
    if ok {
      RetentionLeaves(before, remote.dirs, verified, partials, keep, current);
    }
  }

  function ListedSets(dirs: Dirs): set<int> {
    set d | d in dirs && d.Final? && MANIFEST in dirs[d] :: d.set_
  }

  function Finals(sets: seq<int>): (r: seq<DirName>)
    ensures forall d :: d in r <==> d.Final? && d.set_ in sets
  {
    if sets == [] then [] else [Final(sets[0])] + Finals(sets[1..])
  }

  function Without(names: seq<DirName>, not: DirName): (r: seq<DirName>)
    ensures forall d :: d in r <==> d in names && d != not
  {
    if names == [] then []
    else (if names[0] == not then [] else [names[0]]) + Without(names[1..], not)
  }

  // ------------------------------------------------------------------- one run

  /** The encrypted files waiting to be copied. */
  datatype Staged = Staged(files: Staging, names: seq<string>)

  predicate WellNamed(staged: Option<Staged>) {
    staged.Some? ==> forall n :: n in staged.value.names ==> n in staged.value.files && n != MANIFEST
  }

  lemma ListedAfterCopy(before: Dirs, after: Dirs, set_: int)
    requires Elsewhere(before, after, {Final(set_), Partial(set_)}) && Listed(after, set_)
    ensures ListedSets(after) == ListedSets(before) + {set_}
  {
    forall s ensures s in ListedSets(after) <==> s in ListedSets(before) + {set_} {
      assert s in ListedSets(after) <==> Listed(after, s);
      assert s in ListedSets(before) <==> Listed(before, s);
    }
  }

  /** Since `base` the directory of the sets has been made and listed, a set not
      yet listed has been copied, and the retention has been applied. */
  ghost predicate RunWent(c: Codec, base: seq<Done>, done: seq<Done>, current: int, sourceMatches: bool,
                          staged: Option<Staged>, keep: int, ok: bool)
    requires WellNamed(staged)
  {
    && base < done && done[|base|].command == MakeRoot
    && if done[|base|].answer == Failed then !ok && |done| == |base| + 1 else
       && |done| > |base| + 1 && done[|base| + 1].command == ListAll
       && match done[|base| + 1].answer
          case Names(verified, _) =>
            if current in verified then Retained(c, done[..|base| + 2], done, keep, current, ok)
            else if sourceMatches && staged.Some? then
              CopiedThenRetained(c, done[..|base| + 2], done, current, staged.value, keep, ok)
            else !ok && |done| == |base| + 2
          case _ => !ok && |done| == |base| + 2
  }

  ghost predicate CopiedThenRetained(c: Codec, base: seq<Done>, done: seq<Done>, current: int, staged: Staged,
                                     keep: int, ok: bool)
    requires WellNamed(Some(staged))
  {
    var plan := CopyPlan(c, current, staged.files, staged.names);
    || (!ok && CarriedOut(c, base, done, plan, false))
    || exists mid :: CarriedOut(c, base, mid, plan, true) && Retained(c, mid, done, keep, current, ok)
  }

  lemma NotReached(c: Codec, base: seq<Done>, done: seq<Done>, current: int, sourceMatches: bool,
                   staged: Option<Staged>, keep: int)
    requires WellNamed(staged) && done == base + [Done(MakeRoot, Failed)]
    ensures RunWent(c, base, done, current, sourceMatches, staged, keep, false) && !AllWell(c, done, |base|)
  {
    assert !Well(c, done, |base|);
  }

  /** The commands of a run whose listing is not to be had, or says that a copy
      is due that cannot be made. */
  lemma NotRun(c: Codec, base: seq<Done>, listed: seq<Done>, answer: Answer, current: int, sourceMatches: bool,
               staged: Option<Staged>, keep: int)
    requires WellNamed(staged)
    requires answer == Failed || (answer.Names? && current !in answer.verified && (!sourceMatches || staged.None?))
    requires listed == base + [Done(MakeRoot, Succeeded)] + [Done(ListAll, answer)]
    ensures RunWent(c, base, listed, current, sourceMatches, staged, keep, false)
    ensures answer == Failed ==> !AllWell(c, listed, |base|)
  {
    if answer == Failed {
      assert !Well(c, listed, |base| + 1);
    }
  }

  /** The commands of a run that copies what is due and then applies the
      retention. */
  lemma HasRun(c: Codec, base: seq<Done>, listed: seq<Done>, mid: seq<Done>, done: seq<Done>, verified: seq<int>,
               partials: seq<DirName>, current: int, sourceMatches: bool, staged: Option<Staged>, keep: int,
               copied: bool, ok: bool)
    requires WellNamed(staged) && (current !in verified ==> sourceMatches && staged.Some?)
    requires listed == base + [Done(MakeRoot, Succeeded)] + [Done(ListAll, Names(verified, partials))]
    requires if current in verified then copied && mid == listed
             else CarriedOut(c, listed, mid, CopyPlan(c, current, staged.value.files, staged.value.names), copied)
    requires if copied then Retained(c, mid, done, keep, current, ok) else !ok && done == mid
    ensures RunWent(c, base, done, current, sourceMatches, staged, keep, ok)
    ensures if copied then AllWell(c, done, |base|) <==> AllWell(c, done, |mid|) else !AllWell(c, done, |base|)
  {
    if current !in verified {
      EndedExactlyWhen(c, listed, mid, CopyPlan(c, current, staged.value.files, staged.value.names), copied);
    }
    AlsoBefore(c, base, listed, mid);
    if copied {
      AlsoBefore(c, base, mid, done);
    }
    assert done[..|base| + 2] == listed;
  }

  lemma StillListed(dirs: Dirs, set_: int)
    requires Listed(dirs, set_)
    ensures ListedSets(dirs) == ListedSets(dirs) + {set_}
  {
    assert Final(set_) in dirs;
  }

  method CopyUnlessListed(remote: Remote, current: int, verified: seq<int>, staged: Option<Staged>) returns (ok: bool)
    requires remote.AlwaysSafe() && WellNamed(staged) && (current !in verified ==> staged.Some?)
    requires current in verified <==> Listed(remote.dirs, current)
    modifies remote
    ensures remote.AlwaysSafe() && old(remote.seen) <= remote.seen
    ensures current in verified ==> ok && remote.dirs == old(remote.dirs) && remote.done == old(remote.done)
    ensures current !in verified ==>
      CarriedOut(remote.c, old(remote.done), remote.done,
                 CopyPlan(remote.c, current, staged.value.files, staged.value.names), ok)
    ensures ok ==> Listed(remote.dirs, current) && ListedSets(remote.dirs) == ListedSets(old(remote.dirs)) + {current}
    ensures ok && current !in verified ==>
      Verified(remote.c, remote.dirs[Final(current)],
               Entries(remote.c, staged.value.files, staged.value.names))
  {
    if current !in verified {
      ok := CopySet(remote, current, staged.value.files, staged.value.names);
      if !ok { return; }
      ListedAfterCopy(old(remote.dirs), remote.dirs, current);
    } else {
      StillListed(remote.dirs, current);
      ok := true;
    }
  }

  /** One run: copy the newest complete set unless it is already listed, then
      prune. A set already listed is not copied again. */
  method Run(remote: Remote, newest: Option<int>, sourceMatches: bool, staged: Option<Staged>, keep: int, dryRun: bool)
      returns (ok: bool)
    requires remote.AlwaysSafe() && WellNamed(staged)
    modifies remote
    ensures remote.AlwaysSafe() && old(remote.seen) <= remote.seen
    ensures newest.None? || dryRun ==> remote.dirs == old(remote.dirs) && remote.done == old(remote.done)
    ensures ok <==> newest.Some? && if dryRun then sourceMatches else
              && keep >= 1 && (Listed(old(remote.dirs), newest.value) || (sourceMatches && staged.Some?))
              && AllWell(remote.c, remote.done, |old(remote.done)|)
    ensures newest.Some? && !dryRun ==>
      RunWent(remote.c, old(remote.done), remote.done, newest.value, sourceMatches, staged, keep, ok)
    ensures ok && !dryRun ==>
      keep >= 1 && NewestOf(ListedSets(old(remote.dirs)) + {newest.value}, ListedSets(remote.dirs), keep)
    ensures newest.Some? && Listed(old(remote.dirs), newest.value) ==>
      forall d :: d in remote.dirs ==> SameAt(old(remote.dirs), remote.dirs, d)
    ensures ok && !dryRun && !Listed(old(remote.dirs), newest.value) ==>
      && sourceMatches && staged.Some?
      && (Final(newest.value) in remote.dirs ==>
            Verified(remote.c, remote.dirs[Final(newest.value)],
                     Entries(remote.c, staged.value.files, staged.value.names)))
  {
    if newest.None? {
      return false;
    }
    if dryRun {
      return sourceMatches;
    }
    ghost var base := remote.done;
    var current := newest.value;
    var reached := remote.MakeRoot();
    if !reached {
      NotReached(remote.c, base, remote.done, current, sourceMatches, staged, keep);
      return false;
    }
    var listing, verified, partials := remote.ListSets();
    ghost var listed := remote.done;
    if !listing || (current !in verified && (!sourceMatches || staged.None?)) {
      NotRun(remote.c, base, listed, if listing then Names(verified, partials) else Failed,
             current, sourceMatches, staged, keep);
      return false;
    }
    ok := CopyUnlessListed(remote, current, verified, staged);
    if !ok {
      HasRun(remote.c, base, listed, remote.done, remote.done, verified, partials, current, sourceMatches, staged, keep,
             false, false);
      return;
    }
    ghost var mid, dirs := remote.done, remote.dirs;
    ok := ApplyRetention(remote, keep, current);
    HasRun(remote.c, base, listed, mid, remote.done, verified, partials, current, sourceMatches, staged, keep,
           true, ok);
    assert SameAt(dirs, remote.dirs, Final(current)) || Final(current) !in remote.dirs;
  }
}
