/** `DefaultCompactor`, as the source runs it on a store nobody else is touching. Every primitive the method
    performs is a step of `CompactCycle.Step`, so its effect is that of an undisturbed cycle. */
module Compactor {
  import opened Text
  import opened Folding
  import opened Codec
  import opened Naming
  import opened Blobs
  import opened Backend
  import opened CompactCycle
  import opened Ledger
  import opened Guarantees
  import opened Solo
  import opened Edges
  import opened Claiming
  import opened CycleEffect
  import L = Lease

  /** The primitives played so far: the store and cycle at each point, and the world's answers. */
  datatype Tape = Tape(trace: seq<(Files, Cycle)>, inputs: seq<Input>)

  /** The tape is an undisturbed run from `start` to this store and cycle. */
  ghost predicate Playing(cfg: Config, start: (Files, Cycle), tape: Tape, f: Files, c: Cycle) {
    && SoloRun(cfg, tape.trace, tape.inputs)
    && tape.trace[0] == start
    && tape.trace[|tape.trace| - 1] == (f, c)
  }

  lemma Play(cfg: Config, start: (Files, Cycle), tape: Tape, f: Files, c: Cycle, x: Input) returns (longer: Tape)
    requires Playing(cfg, start, tape, f, c) && Exact(cfg, f, c, x)
    ensures Playing(cfg, start, longer, Step(cfg, f, c, x).0, Step(cfg, f, c, x).1)
  {
    hide Exact, Step;
    longer := Tape(tape.trace + [Step(cfg, f, c, x)], tape.inputs + [x]);
  }

  function Quiet(now: int): Input {
    Input([], false, now)
  }

  class DefaultCompactor {
    const lockTtl: int
    const consuming: bool

    constructor (lockTtl: int, consuming: bool)
      ensures this.lockTtl == lockTtl && this.consuming == consuming
    {
      this.lockTtl, this.consuming := lockTtl, consuming;
    }

    /** Reads every conforming file beyond the watermark under one source. */
    method EnumerateSource(index: PathIndexEdge, n: nat, mark: Option<seq<string>>, paths0: seq<string>,
        recs0: seq<Record>, now: int,
                           ghost start: (Files, Cycle), ghost tape0: Tape, ghost c0: Cycle)
      returns (paths: seq<string>, recs: seq<Record>, ghost tape: Tape, ghost c: Cycle)
      requires n < |index.cfg.sources|
      requires Playing(index.cfg, start, tape0, index.store.files, c0)
      requires c0.pc.ListSource? && c0.source == n && c0.mark == mark && c0.paths == paths0 && c0.recs == recs0
      requires mark == Mark(index.cfg, index.store.files) && BatchOf(index.cfg, index.store.files, n, paths0, recs0)
      ensures BatchOf(index.cfg, index.store.files, n + 1, paths, recs)
      ensures Playing(index.cfg, start, tape, index.store.files, c)
      ensures c == c0.(source := n + 1, paths := paths, recs := recs, todo := [])
    {
      hide Fold, Encode, Decode, Under, Basename, EndsWith, Playing, Mark, Gathering, BatchOf, Eligible, PastWatermark;
      var cfg, store := index.cfg, index.store;
      var listing := store.List(cfg.sources[n]);
      BatchRecords(cfg, store.files, n, paths0, recs0);
      GatherNothing(cfg, store.files, paths0, recs0);
      tape := Play(cfg, start, tape0, store.files, c0, Input(listing, false, now));
      c := c0.(source := n + 1, todo := listing, pc := ReadSource);
      paths, recs := paths0, recs0;
      for i := 0 to |listing|
        invariant Playing(cfg, start, tape, store.files, c)
        invariant c == c0.(source := n + 1, todo := listing[i..], pc := ReadSource, paths := paths, recs := recs)
        invariant Gathering(cfg, store.files, paths0, listing[..i], paths, recs)
      {
        var p := listing[i];
        assert listing[..i + 1] == listing[..i] + [p];
        GatherNext(cfg, store.files, paths0, listing[..i], paths, recs, p);
        assert listing[i..][1..] == listing[i + 1..];
        tape := Play(cfg, start, tape, store.files, c, Quiet(now));
        if Eligible(p) && PastWatermark(p, mark) {
          var data := store.ReadBytes(p);
          if data.Ok? && data.value.RecordBlob? {
            paths, recs := paths + [p], recs + [data.value.rec];
          }
        }
        c := ReadNext(store.files, c, Quiet(now));
      }
      tape := Play(cfg, start, tape, store.files, c, Quiet(now));
      c := c0.(source := n + 1, paths := paths, recs := recs, todo := []);
      assert listing[..|listing|] == listing;
      NextBatch(cfg, store.files, n, paths0, recs0, listing, paths, recs);
    }

    /** Reads the committed generation, primitive by primitive. */
    method LoadBase(index: PathIndexEdge, now: int, ghost start: (Files, Cycle), ghost tape0: Tape, ghost c0: Cycle)
      returns (base: Result<seq<Record>>, ghost tape: Tape, ghost c: Cycle)
      requires Playing(index.cfg, start, tape0, index.store.files, c0)
      requires c0.pc.BaseExists? && c0.base == []
      ensures Playing(index.cfg, start, tape, index.store.files, c)
      ensures base.Raise? ==> c.pc.Raised?
      ensures base.Ok? ==> c == c0.(pc := WriteBody, base := base.value, name := c.name)
      ensures base.Ok? <==> Readable(index.cfg, index.store.files)
      ensures base.Ok? ==> base.value == Base(index.cfg, index.store.files)
    {
      hide Fold, Encode, Decode, Playing;
      var cfg, store := index.cfg, index.store;
      var read := index.ReadBase();
      ghost var f := store.files;
      tape, c := tape0, c0;
      tape := Play(cfg, start, tape, f, c, Quiet(now));
      c := Step(cfg, f, c, Quiet(now)).1;
      if Current(cfg) in f {
        tape := Play(cfg, start, tape, f, c, Quiet(now));
        c := Step(cfg, f, c, Quiet(now)).1;
        if f[Current(cfg)].MetaBlob? {
          tape := Play(cfg, start, tape, f, c, Quiet(now));
          c := Step(cfg, f, c, Quiet(now)).1;
          if c.pc.BodyRead? {
            tape := Play(cfg, start, tape, f, c, Quiet(now));
            c := Step(cfg, f, c, Quiet(now)).1;
          }
        }
      }
      base := if read.Raise? then Raise else Ok(if read.value.Some? then read.value.value else []);
    }

    /** Swings CURRENT: a CAS on its present tag, or a create when there is none. */
    method SwingCurrent(index: PathIndexEdge, meta: Meta, now: int, ghost start: (Files, Cycle), ghost tape0: Tape,
        ghost c0: Cycle)
      returns (ok: bool, ghost tape: Tape, ghost c: Cycle)
      requires Playing(index.cfg, start, tape0, index.store.files, c0)
      requires c0.pc.HeadExists? && meta == NewMeta(c0, now)
      modifies index.store
      ensures Playing(index.cfg, start, tape, index.store.files, c)
      ensures c == c0.(tag := c.tag, won := if ok then true else c0.won, pc := if ok then DeleteSource else Abandon)
      ensures Won(ok)
      ensures index.store.files == if ok then old(index.store.files)[Current(index.cfg) := MetaBlob(meta)]
          else old(index.store.files)
      ensures index.store.history == if ok then old(index.store.history) + [index.store.files] else old(index.store.history)
    {
      hide Fold, Encode, Decode, Playing, Current, CheckpointName;
      var cfg, store := index.cfg, index.store;
      tape := Play(cfg, start, tape0, store.files, c0, Quiet(now));
      c := Step(cfg, store.files, c0, Quiet(now)).1;
      var there := store.Exists(Current(cfg));
      ghost var before := store.files;
      if there {
        var tag := index.CurrentEtag();
        tape := Play(cfg, start, tape, before, c, Quiet(now));
        c := Step(cfg, before, c, Quiet(now)).1;
        tape := Play(cfg, start, tape, before, c, Quiet(now));
        c := Step(cfg, before, c, Quiet(now)).1;
        tape := Play(cfg, start, tape, before, c, Quiet(now));
        ok := store.ReplaceIfMatch(Current(cfg), MetaBlob(meta), tag);
        c := Step(cfg, before, c, Quiet(now)).1;
      } else {
        tape := Play(cfg, start, tape, before, c, Quiet(now));
        ok := store.CreateIfAbsent(Current(cfg), MetaBlob(meta));
        c := Step(cfg, before, c, Quiet(now)).1;
      }
    }

    /** Deletes the enumerated sources one by one, in consuming mode. */
    method DeleteSources(index: PathIndexEdge, paths: seq<string>, now: int, ghost start: (Files, Cycle),
        ghost tape0: Tape, ghost c0: Cycle)
      returns (ghost tape: Tape, ghost c: Cycle)
      requires Playing(index.cfg, start, tape0, index.store.files, c0)
      requires c0.pc.DeleteSource? && c0.consuming == consuming && c0.paths == paths && c0.next == 0
      requires forall p | p in paths :: InSource(index.cfg, p)
      modifies index.store
      ensures Deleted(old(index.store.files), index.store.files, consuming, paths)
      ensures LeavesElsewhere(index.cfg, old(index.store.files), old(index.store.history), index.store.files,
          index.store.history)
      ensures Playing(index.cfg, start, tape, index.store.files, c)
      ensures c.pc.ListIndex? && c.generation == c0.generation
    {
      hide Fold, Encode, Decode, Playing, InSource, Elsewhere, LeavesElsewhere;
      var cfg, store := index.cfg, index.store;
      ghost var f, h := store.files, store.history;
      NorAreTheRest(cfg);
      NothingDone(cfg, f, h);
      tape, c := tape0, c0;
      if consuming {
        for i := 0 to |paths|
          invariant Playing(cfg, start, tape, store.files, c)
          invariant Deleted(f, store.files, true, paths[..i])
          invariant LeavesElsewhere(cfg, f, h, store.files, store.history)
          invariant c == c0.(next := i, removed := c.removed)
        {
          tape := Play(cfg, start, tape, store.files, c, Quiet(now));
          c := Step(cfg, store.files, c, Quiet(now)).1;
          ghost var g, mid := store.files, store.history;
          store.Delete(paths[i]);
          DeletedNext(f, g, store.files, paths, i);
          OneWrite(cfg, g, mid, store.files, paths[i]);
          InTurn(cfg, f, h, g, mid, store.files, store.history);
        }
        assert paths[..|paths|] == paths;
      }
      tape := Play(cfg, start, tape, store.files, c, Quiet(now));
      c := Step(cfg, store.files, c, Quiet(now)).1;
    }

    /** Deletes every checkpoint under the index root but the one just committed. */
    method GcOldCheckpoints(index: PathIndexEdge, keep: string, now: int, ghost start: (Files, Cycle),
        ghost tape0: Tape, ghost c0: Cycle)
      returns (ghost tape: Tape, ghost c: Cycle)
      requires Playing(index.cfg, start, tape0, index.store.files, c0)
      requires c0.pc.ListIndex? && keep == CheckpointName(c0.generation + 1)
      modifies index.store
      ensures Collected(index.cfg, old(index.store.files), index.store.files, keep)
      ensures LeavesElsewhere(index.cfg, old(index.store.files), old(index.store.history), index.store.files,
          index.store.history)
      ensures Playing(index.cfg, start, tape, index.store.files, c)
      ensures c.pc == Finished(true)
    {
      hide Fold, Encode, Decode, Playing, Garbage, CheckpointName, Under, Elsewhere, LeavesElsewhere, CollectedSoFar, ReadNext,
          NewMeta;
      var cfg, store := index.cfg, index.store;
      ghost var f, h := store.files, store.history;
      NorAreTheRest(cfg);
      NothingDone(cfg, f, h);
      var listing := store.List(cfg.root);
      tape := Play(cfg, start, tape0, store.files, c0, Input(listing, false, now));
      c := c0.(todo := listing, pc := Collect);
      CollectNothing(f, keep);
      for i := 0 to |listing|
        invariant Playing(cfg, start, tape, store.files, c)
        invariant c == c0.(todo := listing[i..], pc := Collect)
        invariant CollectedSoFar(f, store.files, listing[..i], keep)
        invariant LeavesElsewhere(cfg, f, h, store.files, store.history)
      {
        CollectNext(f, store.files, listing, i, keep);
        assert listing[i..][1..] == listing[i + 1..];
        tape := Play(cfg, start, tape, store.files, c, Quiet(now));
        c := c0.(todo := listing[i + 1..], pc := Collect);
        if Garbage(listing[i], keep) {
          ghost var g, mid := store.files, store.history;
          store.Delete(listing[i]);
          OneWrite(cfg, g, mid, store.files, listing[i]);
          InTurn(cfg, f, h, g, mid, store.files, store.history);
        }
      }
      CollectedAll(cfg, f, store.files, listing, keep);
      tape := Play(cfg, start, tape, store.files, c, Quiet(now));
      c := Step(cfg, store.files, c, Quiet(now)).1;
    }

    /** Reads the generation and the watermark, then enumerates every source beyond it. */
    method Gather(index: PathIndexEdge, compactor: string, now: int, ghost start: (Files, Cycle))
      returns (found: Result<(nat, seq<string>, seq<Record>)>, ghost tape: Tape, ghost c: Cycle)
      requires start == (index.store.files, Fresh(consuming, compactor))
      ensures Playing(index.cfg, start, tape, index.store.files, c)
      ensures found.Raise? ==> c.pc.Raised? && !Readable(index.cfg, index.store.files)
      ensures found.Ok? ==>
                && c == start.1.(pc := ListSource, source := |index.cfg.sources|, generation := found.value.0,
                    mark := c.mark, paths := found.value.1, recs := found.value.2)
                && found.value.0 == Generation(index.cfg, index.store.files)
                && Batch(index.cfg, index.store.files, found.value.1, found.value.2)
    {
      hide Fold, Encode, Decode, Playing, CheckpointName, Step, BatchOf, Batch;
      var cfg, store := index.cfg, index.store;
      tape, c := Tape([start], []), start.1;
      StartPlaying(cfg, start);
      var meta := index.ReadCurrentMeta();
      tape, c := PlayTwice(cfg, start, tape, store.files, c, now);
      if meta.Raise? { return Raise, tape, c; }
      var generation := if meta.value.Some? then meta.value.value.generation else 0;
      var mark := index.Watermark();
      tape, c := PlayTwice(cfg, start, tape, store.files, c, now);
      var paths, recs := [], [];
      NoBatch(cfg, store.files);
      for n := 0 to |cfg.sources|
        invariant BatchOf(cfg, store.files, n, paths, recs)
        invariant Playing(cfg, start, tape, store.files, c)
        invariant c == start.1.(pc := ListSource, source := n, generation := generation, mark := mark.value,
            paths := paths, recs := recs)
      {
        paths, recs, tape, c := EnumerateSource(index, n, mark.value, paths, recs, now, start, tape, c);
      }
      WholeBatch(cfg, store.files, paths, recs);
      return Ok((generation, paths, recs)), tape, c;
    }

    /** `_compact_body`: read, enumerate, fold, write, commit, clean up. */
    method CompactBody(index: PathIndexEdge, compactor: string, now: int) returns (done: Result<bool>,
        ghost tape: Tape, ghost c: Cycle)
      modifies index.store
      ensures Playing(index.cfg, (old(index.store.files), Fresh(consuming, compactor)), tape, index.store.files, c)
      ensures c.pc == match done case Ok(ok) => Finished(ok) case Raise => Raised
      ensures LeavesElsewhere(index.cfg, old(index.store.files), old(index.store.history), index.store.files,
          index.store.history)
      ensures done == Ok(false) ==>
                Won(false) || (Idle(index.cfg, old(index.store.files)) && index.store.files == old(index.store.files))
      ensures done == Ok(true) ==> Readable(index.cfg, old(index.store.files)) && !Idle(index.cfg, old(index.store.files))
      ensures done.Raise? ==> !Readable(index.cfg, old(index.store.files)) && index.store.files == old(index.store.files)
      ensures done == Ok(true) && Separate(index.cfg) ==>
                Compacted(index.cfg, old(index.store.files), index.store.files, consuming, compactor, now)
    {
      hide Fold, Encode, Decode, Playing, CheckpointName, Step, Exact, Fresh, Idle, Won, Batch, Base, Generation, Current,
          Checkpoint, Deleted, Collected, LeavesElsewhere, Elsewhere, Compacted, Separate, InSource, Wanted, Readable,
          KeepsNewest;
      var cfg, store := index.cfg, index.store;
      ghost var start := (store.files, Fresh(consuming, compactor));
      ghost var f, h := store.files, store.history;
      NothingDone(cfg, f, h);
      FreshShape(consuming, compactor);

      var found;
      found, tape, c := Gather(index, compactor, now, start);
      if found.Raise? { return Raise, tape, c; }
      var (generation, paths, recs) := found.value;
      tape, c := PlayIdle(cfg, start, tape, store.files, c, now);
      IdleExactly(cfg, f, paths, recs);
      if recs == [] && generation > 0 { return Ok(false), tape, c; }

      var base;
      base, tape, c := LoadBase(index, now, start, tape, c);
      if base.Raise? { return Raise, tape, c; }

      var folded := LastWriteWins(base.value + recs);
      var body := Encode(cfg.codec, folded);
      tape, c := PlayWrite(cfg, start, tape, store.files, c, now);
      store.WriteAtomic(Checkpoint(cfg, generation + 1), Bytes(body));
      ghost var f1, h1 := store.files, store.history;
      CheckpointIsNotElsewhere(cfg, generation + 1);
      OneWrite(cfg, f, h, f1, Checkpoint(cfg, generation + 1));

      var swung;
      var commit := Meta(generation + 1, CheckpointName(generation + 1), now, compactor, consuming,
          if consuming then None else Some(paths), body);
      swung, tape, c := SwingCurrent(index, commit, now, start, tape, c);
      ghost var f2, h2 := store.files, store.history;
      if !swung {
        tape, c := PlayAbandon(cfg, start, tape, store.files, c, now);
        store.Delete(Checkpoint(cfg, generation + 1));
        OneWrite(cfg, f2, h2, store.files, Checkpoint(cfg, generation + 1));
        InTurn(cfg, f, h, f1, h1, store.files, store.history);
        return Ok(false), tape, c;
      }
      NorAreTheRest(cfg);
      OneWrite(cfg, f1, h1, f2, Current(cfg));
      InTurn(cfg, f, h, f1, h1, f2, h2);

      BatchInSources(cfg, f, paths, recs);
      tape, c := DeleteSources(index, paths, now, start, tape, c);
      ghost var f3, h3 := store.files, store.history;
      tape, c := GcOldCheckpoints(index, CheckpointName(generation + 1), now, start, tape, c);
      InTurn(cfg, f, h, f2, h2, f3, h3);
      InTurn(cfg, f, h, f3, h3, store.files, store.history);
      if Separate(cfg) {
        EffectFrom(cfg, f, f2, f3, store.files, paths, recs, commit);
        CompactedFrom(cfg, f, store.files, paths, recs, consuming, compactor, now);
      }
      return Ok(true), tape, c;
    }

    /** `compact_once`: under the lock or not at all. A held lock leaves the store untouched. Otherwise the lock is
        the first write and its removal the last, and in between it holds everybody else out up to its expiry. A
        call that finds nothing new changes nothing; one that does commits the batch. And it ends with CURRENT
        naming the serialised fold of all eligible records ever appended, whatever state an earlier crash left
        behind: recovery is the ordinary call. */
    method CompactOnce(index: PathIndexEdge, compactor: string, now: int) returns (done: Result<bool>)
      modifies index.store
      ensures !Free(old(index.store.files), LockPath(index.cfg), now) ==>
                done == Ok(false) && index.store.files == old(index.store.files) && index.store.history == old(index.store.history)
      ensures Free(old(index.store.files), LockPath(index.cfg), now) && Separate(index.cfg) ==>
                && UnderLock(index.cfg, old(index.store.files), old(index.store.history), index.store.files,
                    index.store.history, compactor, now, now + lockTtl)
                && Did(index.cfg, old(index.store.files) - {LockPath(index.cfg)}, index.store.files, done, consuming,
                    compactor, now, now + lockTtl)
      ensures forall log, all | Free(old(index.store.files), LockPath(index.cfg), now) &&
          Recoverable(index.cfg, old(index.store.files), log, all) ::
                done.Ok? && Folded(index.cfg, index.store.files, log, all) && LockPath(index.cfg) !in index.store.files
    {
      hide Playing, Recoverable, Folded, LockPath, FilesInv, Free, LeavesElsewhere, Separate, UnderLock, Did, Idle, Compacted,
          Readable;
      var cfg, store := index.cfg, index.store;
      ghost var f0, h0 := store.files, store.history;
      var lease := L.Lease(compactor, now, Some(now + lockTtl));
      var owned := AcquireLease(store, LockPath(cfg), lease, now);
      if !owned { return Ok(false); }
      ghost var f1, h1 := store.files, store.history;
      ghost var tape, c;
      done, tape, c := CompactBody(index, compactor, now);
      ghost var f2, h2 := store.files, store.history;
      if Separate(cfg) { LockStays(cfg, f1, h1, f2, h2, compactor, now, now + lockTtl); }
      var there := store.Exists(LockPath(cfg));
      if there {
        var data := store.ReadBytes(LockPath(cfg));
        if data.Ok? && data.value.LeaseBlob? && data.value.lease.worker == compactor {
          store.Delete(LockPath(cfg));
        }
      }
      if Separate(cfg) {
        WasUnderLock(cfg, f0, h0, f1, f2, h2, store.files, store.history, compactor, now, now + lockTtl);
        DidUnderLock(cfg, f0, f2, done, consuming, compactor, now, now + lockTtl);
      }
      forall log, all | Recoverable(cfg, f0, log, all)
        ensures done.Ok? && Folded(cfg, store.files, log, all) && LockPath(cfg) !in store.files
      {
        RecoverableParts(cfg, f0, log, all);
        CycleUnderLock(cfg, f0, f1, f2, log, all, tape, c, consuming, compactor, LeaseBlob(lease));
      }
    }
  }

  /** Nobody else writes, so the swap cannot be lost. A predicate, for the sake of the branch that handles it. */
  predicate Won(ok: bool) {
    ok
  }

  /** The caller's lock is the first thing written and the last thing removed, and in every store in between it
      says who holds it and until when, so that nobody else can take it up to then and anybody can afterwards. */
  ghost predicate UnderLock(cfg: Config, f: Files, before: seq<Files>, g: Files, history: seq<Files>, compactor: string,
      now: int, expires: int) {
    var n, last := |before|, |history| - 1;
    && before <= history && n + 1 <= last
    && (forall p | p != LockPath(cfg) :: SameAt(f, history[n], p))
    && (forall i | n <= i < last :: HeldUntil(history[i], LockPath(cfg), compactor, now, expires))
    && history[last] == g == history[last - 1] - {LockPath(cfg)}
  }

  /** What the call has done, its lock aside: nothing, with nothing to do; the cycle's whole effect; or nothing,
      because CURRENT or the checkpoint it names does not read. */
  ghost predicate Did(cfg: Config, f: Files, g: Files, done: Result<bool>, consuming: bool, compactor: string, now: int,
      expires: int) {
    var locked := f[LockPath(cfg) := LeaseBlob(L.Lease(compactor, now, Some(expires)))];
    match done
    case Ok(true) => !Idle(cfg, f) && Readable(cfg, locked) && Compacted(cfg, f, g, consuming, compactor, now)
    case Ok(false) => Idle(cfg, f) && g == f
    case Raise => !Readable(cfg, locked) && g == f
  }

  function LockPath(cfg: Config): string {
    cfg.root + "/" + "compactor.lock"
  }

  /** The store is one that a schedule can leave behind, and `all` lists the eligible records appended. */
  ghost predicate Recoverable(cfg: Config, f: Files, log: Log, all: seq<Record>) {
    Separate(cfg) && FilesInv(cfg, f, log) && Canonical(Records(log)) && ListsEligible(all, log)
  }

  /** The committed generation is the fold of everything, and the store is again recoverable. */
  ghost predicate Folded(cfg: Config, f: Files, log: Log, all: seq<Record>) {
    && FilesInv(cfg, f, log) && Current(cfg) in f && ReadCurrent(cfg, f) == Some(Fold(all))
    && Checkpoint(cfg, Generation(cfg, f)) in f && f[Checkpoint(cfg, Generation(cfg, f))] == Bytes(Encode(cfg.codec, Fold(all)))
  }

  lemma LockIsNotGarbage(cfg: Config)
    ensures forall keep :: !Garbage(LockPath(cfg), keep)
  {
    BasenameOfJoin(cfg.root, "compactor.lock");
    assert "compactor.lock"[1] == 'o' && CHECKPOINT[1] == 'h';
  }

  lemma LockIsOwnFile(cfg: Config, g: nat)
    requires Separate(cfg)
    ensures LockPath(cfg) != Current(cfg) && LockPath(cfg) != Checkpoint(cfg, g)
    ensures forall p | InSource(cfg, p) :: p != LockPath(cfg)
    ensures forall keep :: !Garbage(LockPath(cfg), keep)
  {
    hide Separate;
    hide Garbage, InSource;
    LockIsNotGarbage(cfg);
    var n := |cfg.root| + 1;
    assert LockPath(cfg)[n] == 'c' && Current(cfg)[n] == 'C';
    assert LockPath(cfg)[n + 1] == 'o' && Checkpoint(cfg, g)[n + 1] == 'h';
    forall p | InSource(cfg, p) ensures p != LockPath(cfg) { LockNotInSource(cfg, p); }
  }

  lemma LockNotInSource(cfg: Config, p: string)
    requires Separate(cfg) && InSource(cfg, p)
    ensures p != LockPath(cfg)
  {
    var s :| s in cfg.sources && Under(s, p);
    IndexFileUnderSourceExactly(cfg.root, "compactor.lock", s);
  }

  /** Taking and releasing the lock changes nothing the index cares about. */
  lemma LockKeepsFiles(cfg: Config, f: Files, log: Log, b: Blob)
    requires Separate(cfg) && FilesInv(cfg, f, log)
    ensures FilesInv(cfg, f[LockPath(cfg) := b], log) && FilesInv(cfg, f - {LockPath(cfg)}, log)
    ensures Base(cfg, f - {LockPath(cfg)}) == Base(cfg, f) && Generation(cfg, f - {LockPath(cfg)}) == Generation(cfg, f)
  {
    hide *;
    FilesInvParts(cfg, f, log);
    LockIsOwnFile(cfg, Generation(cfg, f));
    WriteFrame(cfg, f, LockPath(cfg), b);
    IndexWriteKeepsSources(cfg, f, LockPath(cfg), b);
    FilesFrame(cfg, f, f[LockPath(cfg) := b], log);
    FilesFrame(cfg, f, f - {LockPath(cfg)}, log);
  }

  lemma LockIsElsewhere(cfg: Config)
    requires Separate(cfg)
    ensures Elsewhere(cfg, LockPath(cfg)) && Basename(LockPath(cfg)) == "compactor.lock"
  {
    hide Separate, InSource, Basename;
    LockIsOwnFile(cfg, 0);
    BasenameOfJoin(cfg.root, "compactor.lock");
    assert "compactor.lock"[1] == 'o' && CHECKPOINT[1] == 'h';
  }

  lemma LockStays(cfg: Config, f: Files, before: seq<Files>, g: Files, history: seq<Files>, compactor: string, now: int,
      expires: int)
    requires Separate(cfg) && LeavesElsewhere(cfg, f, before, g, history)
    requires FileIs(f, LockPath(cfg), LeaseBlob(L.Lease(compactor, now, Some(expires))))
    ensures FileIs(g, LockPath(cfg), LeaseBlob(L.Lease(compactor, now, Some(expires))))
    ensures before <= history && if history == before then g == f else g == history[|history| - 1]
    ensures forall i | |before| <= i < |history| :: HeldUntil(history[i], LockPath(cfg), compactor, now, expires)
  {
    hide Separate, Elsewhere, HeldUntil, LockPath;
    LockIsElsewhere(cfg);
    forall i | |before| <= i < |history| ensures HeldUntil(history[i], LockPath(cfg), compactor, now, expires) {
      assert SameAt(f, history[i], LockPath(cfg));
      WrittenIsHeld(history[i], LockPath(cfg), compactor, now, expires);
    }
  }

  lemma WasUnderLock(cfg: Config, f: Files, before: seq<Files>, taken: Files, done: Files, mid: seq<Files>, g: Files,
      history: seq<Files>, compactor: string, now: int, expires: int)
    requires taken == f[LockPath(cfg) := LeaseBlob(L.Lease(compactor, now, Some(expires)))]
    requires before + [taken] <= mid && mid[|mid| - 1] == done
    requires forall i | |before| + 1 <= i < |mid| :: HeldUntil(mid[i], LockPath(cfg), compactor, now, expires)
    requires g == done - {LockPath(cfg)} && history == mid + [g]
    ensures UnderLock(cfg, f, before, g, history, compactor, now, expires)
  {
    hide HeldUntil, LockPath;
    WrittenIsHeld(taken, LockPath(cfg), compactor, now, expires);
    assert mid[|before|] == (before + [taken])[|before|];
  }

  /** The lock, which only the call itself looks at, makes no difference to the cycle. */
  lemma DidUnderLock(cfg: Config, f: Files, g: Files, done: Result<bool>, consuming: bool, compactor: string, now: int,
      expires: int)
    requires Separate(cfg)
    requires
      var h := f[LockPath(cfg) := LeaseBlob(L.Lease(compactor, now, Some(expires)))];
      && (done == Ok(false) ==> Idle(cfg, h) && g == h)
      && (done == Ok(true) ==> Readable(cfg, h) && !Idle(cfg, h) && Compacted(cfg, h, g, consuming, compactor, now))
      && (done.Raise? ==> !Readable(cfg, h) && g == h)
    ensures Did(cfg, f - {LockPath(cfg)}, g - {LockPath(cfg)}, done, consuming, compactor, now, expires)
  {
    hide Separate, Elsewhere, LockPath, Idle, Compacted, Readable;
    var lock := LeaseBlob(L.Lease(compactor, now, Some(expires)));
    assert (f - {LockPath(cfg)})[LockPath(cfg) := lock] == f[LockPath(cfg) := lock];
    LockIsElsewhere(cfg);
    ElsewhereDoesNotMatter(cfg, f, lock, LockPath(cfg));
    if done == Ok(true) {
      BaseWithoutLock(cfg, f, lock);
      CompactedElsewhere(cfg, f, lock, g, LockPath(cfg), consuming, compactor, now);
    }
  }

  lemma BaseWithoutLock(cfg: Config, f: Files, lock: Blob)
    requires Elsewhere(cfg, LockPath(cfg)) && lock.LeaseBlob? && Readable(cfg, f[LockPath(cfg) := lock])
    ensures Base(cfg, f - {LockPath(cfg)}) == Base(cfg, f[LockPath(cfg) := lock])
  {
    hide InSource, Basename, Decode, LockPath, Current;
  }

  lemma CycleUnderLock(cfg: Config, f0: Files, f1: Files, f2: Files, log: Log, all: seq<Record>, tape: Tape, c: Cycle,
                       consuming: bool, compactor: string, lock: Blob)
    requires Recoverable(cfg, f0, log, all) && f1 == f0[LockPath(cfg) := lock]
    requires Playing(cfg, (f1, Fresh(consuming, compactor)), tape, f2, c) && c.pc.Over()
    ensures c.pc.Finished?
    ensures Folded(cfg, f2 - {LockPath(cfg)}, log, all)
  {
    hide *;
    RecoverableParts(cfg, f0, log, all);
    PlayingParts(cfg, (f1, Fresh(consuming, compactor)), tape, f2, c);
    LockKeepsFiles(cfg, f0, log, lock);
    SoloCycleFolds(cfg, log, tape.trace, tape.inputs, consuming, compactor, all);
    SoloRunInv(cfg, log, tape.trace, tape.inputs, consuming, compactor, |tape.trace| - 1);
    LockKeepsFiles(cfg, f2, log, lock);
    FilesInvParts(cfg, f2, log);
    FilesInvParts(cfg, f2 - {LockPath(cfg)}, log);
    LockIsOwnFile(cfg, 0);
    IntactBytes(cfg, f2);
    IntactBytes(cfg, f2 - {LockPath(cfg)});
    FoldedFrom(cfg, f2 - {LockPath(cfg)}, log, all);
  }

  lemma RecoverableParts(cfg: Config, f: Files, log: Log, all: seq<Record>)
    requires Recoverable(cfg, f, log, all)
    ensures Separate(cfg) && FilesInv(cfg, f, log) && Canonical(Records(log)) && ListsEligible(all, log)
  {}

  lemma PlayingParts(cfg: Config, start: (Files, Cycle), tape: Tape, f: Files, c: Cycle)
    requires Playing(cfg, start, tape, f, c)
    ensures SoloRun(cfg, tape.trace, tape.inputs) && |tape.trace| > 0 && tape.trace[0] == start &&
        tape.trace[|tape.trace| - 1] == (f, c)
  {
    hide Exact, Step;
  }

  lemma FoldedFrom(cfg: Config, f: Files, log: Log, all: seq<Record>)
    requires FilesInv(cfg, f, log) && Current(cfg) in f && ReadCurrent(cfg, f) == Some(Fold(all))
    requires Checkpoint(cfg, Generation(cfg, f)) in f && f[Checkpoint(cfg, Generation(cfg,
        f))] == Bytes(Encode(cfg.codec, Fold(all)))
    ensures Folded(cfg, f, log, all)
  {}

  lemma FreshShape(consuming: bool, compactor: string)
    ensures
      var c := Fresh(consuming, compactor);
      c.consuming == consuming && c.compactor == compactor && c.next == 0 && c.base == [] && !c.won
  {}

  lemma PlayIdle(cfg: Config, start: (Files, Cycle), tape: Tape, f: Files, c: Cycle, now: int) returns (longer: Tape, d: Cycle)
    requires Playing(cfg, start, tape, f, c) && c.pc.ListSource? && c.source == |cfg.sources|
    ensures Playing(cfg, start, longer, f, d)
    ensures d == c.(pc := if c.recs == [] && c.generation > 0 then Finished(false) else BaseExists)
  {
    hide Playing, Encode, Decode, Fold;
    longer := Play(cfg, start, tape, f, c, Quiet(now));
    d := Step(cfg, f, c, Quiet(now)).1;
  }

  lemma PlayWrite(cfg: Config, start: (Files, Cycle), tape: Tape, f: Files, c: Cycle, now: int) returns (longer: Tape, d: Cycle)
    requires Playing(cfg, start, tape, f, c) && c.pc.WriteBody?
    ensures
      var body := Encode(cfg.codec, Fold(c.base + c.recs));
      Playing(cfg, start, longer, f[Checkpoint(cfg, c.generation + 1) := Bytes(body)], d) &&
          d == c.(body := body, pc := HeadExists)
  {
    hide Playing, Encode, Decode, Fold, Checkpoint;
    longer := Play(cfg, start, tape, f, c, Quiet(now));
    d := Step(cfg, f, c, Quiet(now)).1;
  }

  lemma PlayAbandon(cfg: Config, start: (Files, Cycle), tape: Tape, f: Files, c: Cycle, now: int) returns (longer: Tape, d: Cycle)
    requires Playing(cfg, start, tape, f, c) && c.pc.Abandon?
    ensures Playing(cfg, start, longer, f - {Checkpoint(cfg, c.generation + 1)}, d) && d == c.(pc := Finished(false))
  {
    hide Playing, Encode, Decode, Fold, Checkpoint;
    longer := Play(cfg, start, tape, f, c, Quiet(now));
    d := Step(cfg, f, c, Quiet(now)).1;
  }

  lemma StartPlaying(cfg: Config, start: (Files, Cycle))
    ensures Playing(cfg, start, Tape([start], []), start.0, start.1)
  {}

  /** The `exists` and, if the file is there, the read of CURRENT. */
  lemma PlayTwice(cfg: Config, start: (Files, Cycle), tape: Tape, f: Files, c: Cycle, now: int) returns (longer: Tape, d: Cycle)
    requires Playing(cfg, start, tape, f, c) && (c.pc.MetaExists? || c.pc.MarkExists?)
    ensures Playing(cfg, start, longer, f, d)
    ensures Current(cfg) in f && !f[Current(cfg)].MetaBlob? ==> d.pc.Raised?
    ensures c.pc.MetaExists? && Current(cfg) !in f ==> d == c.(pc := MarkExists)
    ensures c.pc.MetaExists? && Current(cfg) in f && f[Current(cfg)].MetaBlob? ==>
        d == c.(generation := f[Current(cfg)].meta.generation, pc := MarkExists)
    ensures c.pc.MarkExists? && Current(cfg) !in f ==> d == c.(pc := ListSource)
    ensures c.pc.MarkExists? && Current(cfg) in f && f[Current(cfg)].MetaBlob? ==>
        d == c.(mark := f[Current(cfg)].meta.folded, pc := ListSource)
  {
    hide Playing, Encode, Decode, Fold;
    longer := Play(cfg, start, tape, f, c, Quiet(now));
    d := Step(cfg, f, c, Quiet(now)).1;
    if Current(cfg) in f {
      longer := Play(cfg, start, longer, f, d, Quiet(now));
      d := Step(cfg, f, d, Quiet(now)).1;
    }
  }

  /* ---- Pieces of the methods' proofs ---- */

  lemma BatchRecords(cfg: Config, f: Files, n: nat, paths: seq<string>, recs: seq<Record>)
    requires BatchOf(cfg, f, n, paths, recs)
    ensures ReadFrom(f, paths, recs)
  {
    hide Wanted, Under, ReadFrom;
  }

  lemma BatchInSources(cfg: Config, f: Files, paths: seq<string>, recs: seq<Record>)
    requires Batch(cfg, f, paths, recs)
    ensures forall p | p in paths :: InSource(cfg, p)
  {
    hide Wanted, InSource, ReadFrom;
  }

  lemma CompactedFrom(cfg: Config, f: Files, g: Files, paths: seq<string>, recs: seq<Record>, consuming: bool,
      compactor: string, now: int)
    requires Batch(cfg, f, paths, recs) && Effect(cfg, f, g, CommitOf(cfg, f, paths, recs, consuming, compactor, now))
    ensures Compacted(cfg, f, g, consuming, compactor, now)
  {
    hide Batch, Effect, CommitOf;
  }

  lemma DeletedNext(f: Files, g: Files, h: Files, paths: seq<string>, i: nat)
    requires i < |paths| && Deleted(f, g, true, paths[..i]) && h == g - {paths[i]}
    ensures Deleted(f, h, true, paths[..i + 1])
  {
    assert paths[..i + 1] == paths[..i] + [paths[i]];
  }

  ghost predicate CollectedSoFar(f: Files, g: Files, seen: seq<string>, keep: string) {
    forall p :: if p in seen && Garbage(p, keep) then p !in g else SameAt(f, g, p)
  }

  lemma CollectNothing(f: Files, keep: string)
    ensures CollectedSoFar(f, f, [], keep)
  {}

  lemma CollectNext(f: Files, g: Files, listing: seq<string>, i: nat, keep: string)
    requires i < |listing| && CollectedSoFar(f, g, listing[..i], keep)
    ensures CollectedSoFar(f, if Garbage(listing[i], keep) then g - {listing[i]} else g, listing[..i + 1], keep)
  {
    hide Garbage;
    assert listing[..i + 1] == listing[..i] + [listing[i]];
  }

  lemma CollectedAll(cfg: Config, f: Files, g: Files, listing: seq<string>, keep: string)
    requires CollectedSoFar(f, g, listing[..|listing|], keep)
    requires forall p :: p in listing <==> p in f && Under(cfg.root, p)
    ensures Collected(cfg, f, g, keep)
  {
    hide Garbage, Under;
    assert listing[..|listing|] == listing;
  }
}
