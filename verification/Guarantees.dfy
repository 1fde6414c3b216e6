/** What the compaction protocol guarantees in every reachable state and over every schedule. */
module Guarantees {
  import opened Text
  import opened Folding
  import opened Codec
  import opened Naming
  import opened Blobs
  import opened CompactCycle
  import opened Ledger
  import opened Compaction
  import L = Lease

  ghost function Records(log: Log): set<Record> {
    set e | e in log :: e.1
  }

  /** `all` lists the records ever appended, in any order and multiplicity. */
  ghost predicate Lists(all: seq<Record>, log: Log) {
    forall r :: r in all <==> exists p :: (p, r) in log
  }

  /** `seen` lists the committed generation and the records still in source files. */
  ghost predicate ListsVisible(cfg: Config, f: Files, seen: seq<Record>) {
    forall r :: r in seen <==> r in Base(cfg, f) || exists p :: IsRecord(f, p) && InSource(cfg, p) && f[p].rec == r
  }

  lemma FoldOfAccounted(cfg: Config, f: Files, log: Log, seen: seq<Record>, all: seq<Record>)
    requires LogOk(cfg, log) && BaseOk(cfg, f, log) && Canonical(Records(log)) && Lists(all, log)
    requires forall r | r in seen :: exists p :: (p, r) in log
    requires forall e | e in log :: Absorbed(e.1, seen)
    ensures Fold(seen) == Fold(all)
  {
    hide Fold, Absorbed, SourcePath, RoundTrips, BaseOk;
    forall r | r in seen ensures r in all {}
    forall r | r in all ensures Absorbed(r, seen) {
      var p :| (p, r) in log;
      assert Absorbed((p, r).1, seen);
    }
    forall r | r in all ensures r in Records(log) {
      var p :| (p, r) in log;
      assert (p, r).1 in Records(log);
    }
    FoldOfSubset(seen, all);
  }

  lemma VisibleIsLogged(cfg: Config, f: Files, log: Log, seen: seq<Record>)
    requires FilesInv(cfg, f, log) && ListsVisible(cfg, f, seen)
    ensures forall r | r in seen :: exists p :: (p, r) in log
  {
    hide Fold, Absorbed, SourcePath, RoundTrips, Base, AllAccounted, FrontierOk, CommitIntact, InSource;
    forall r | r in seen ensures exists p :: (p, r) in log {
      if r in Base(cfg, f) {
        assert Logged(log, r);
      } else {
        var p :| IsRecord(f, p) && InSource(cfg, p) && f[p].rec == r;
        assert (p, r) in log;
      }
    }
  }

  lemma LogIsVisible(cfg: Config, f: Files, log: Log, seen: seq<Record>)
    requires FilesInv(cfg, f, log) && ListsVisible(cfg, f, seen)
    ensures forall e | e in log :: Absorbed(e.1, seen)
  {
    hide Fold, RoundTrips, Base, SourcesLogged, FrontierOk, CommitIntact, InSource, Below, BaseOk;
    forall e | e in log ensures Absorbed(e.1, seen) {
      assert Accounted(f, Base(cfg, f), e.0, e.1);
      assert SourcePath(cfg, e.0);
      if IsRecord(f, e.0) && Below(e.1, f[e.0].rec) {
        assert f[e.0].rec in seen;
      }
    }
  }

  /** Conservation: in every reachable state, whatever was appended, crashed or half-deleted, folding the
      committed generation with the records still in the sources is folding all that was ever appended. */
  lemma Conservation(cfg: Config, s: State, seen: seq<Record>, all: seq<Record>)
    requires Separate(cfg) && Reachable(cfg, s) && Canonical(Records(s.log))
    requires ListsVisible(cfg, s.files, seen) && Lists(all, s.log)
    ensures Fold(seen) == Fold(all)
  {
    hide *;
    ReachableInv(cfg, s);
    InvParts(cfg, s);
    FilesInvParts(cfg, s.files, s.log);
    VisibleIsLogged(cfg, s.files, s.log, seen);
    LogIsVisible(cfg, s.files, s.log, seen);
    FoldOfAccounted(cfg, s.files, s.log, seen, all);
  }

  lemma InvParts(cfg: Config, s: State)
    requires Inv(cfg, s)
    ensures L.Inv(s.lock) && FilesInv(cfg, s.files, s.log)
    ensures forall w | Active(s, w) :: CycleInv(cfg, s.files, s.log, s.cycles[w])
  {}

  /* ---- Hybrid reads and the retained watermark ---- */

  /** What `iter_beyond` reads: every record file beyond the watermark, the sidecar excepted. */
  predicate ReadBeyond(f: Files, mark: Option<seq<string>>, p: string) {
    p in f && f[p].RecordBlob? && !EndsWith(p, "/") && PastWatermark(p, mark) && Basename(p) != "datapackage.json"
  }

  /** `out` lists what `hybrid_read` returns: the base, then the source records beyond the watermark. */
  ghost predicate ListsHybrid(cfg: Config, f: Files, out: seq<Record>) {
    forall r :: r in out <==> r in Base(cfg, f) || exists p :: InSource(cfg, p) && ReadBeyond(f, Mark(cfg, f), p) && f[p].rec == r
  }

  /** A source file is left out by the watermark if and only if its path is on the frontier: source paths have
      directories, so a bare file name on the frontier can never shadow another source's file. */
  lemma SkippedIsOnFrontier(cfg: Config, f: Files, log: Log, p: string)
    requires FrontierOk(cfg, f, log) && InSource(cfg, p)
    ensures !PastWatermark(p, Mark(cfg, f)) <==> p in Frontier(cfg, f)
  {
    hide Absorbed, Base, Under;
    if Basename(p) in Frontier(cfg, f) {
      assert InSource(cfg, Basename(p));
      var s :| s in cfg.sources && Under(s, Basename(p));
      UnderHasSlash(s, Basename(p));
    }
  }

  lemma HybridAbsorbs(cfg: Config, f: Files, log: Log, out: seq<Record>)
    requires FilesInv(cfg, f, log) && ListsHybrid(cfg, f, out)
    requires forall e | e in log :: !EndsWith(e.0, "/") && Basename(e.0) != "datapackage.json"
    ensures forall e | e in log :: Absorbed(e.1, out)
  {
    hide Fold, RoundTrips, Base, SourcesLogged, CommitIntact, InSource, Leq, BaseOk, PastWatermark, Mark, EndsWith, Frontier;
    forall e | e in log ensures Absorbed(e.1, out) {
      assert Accounted(f, Base(cfg, f), e.0, e.1);
      assert SourcePath(cfg, e.0);
      if IsRecord(f, e.0) && Below(e.1, f[e.0].rec) {
        if PastWatermark(e.0, Mark(cfg, f)) {
          assert ReadBeyond(f, Mark(cfg, f), e.0);
          assert f[e.0].rec in out;
        } else {
          SkippedIsOnFrontier(cfg, f, log, e.0);
          AbsorbedTransitive(e.1, f[e.0].rec, Base(cfg, f));
        }
      }
    }
  }

  /** Retained mode never under-reads: although each commit records only the paths it enumerated itself, the
      base together with the records beyond that frontier folds to all that was ever appended. */
  lemma HybridReadIsComplete(cfg: Config, s: State, out: seq<Record>, all: seq<Record>)
    requires Separate(cfg) && Reachable(cfg, s) && Canonical(Records(s.log))
    requires ListsHybrid(cfg, s.files, out) && Lists(all, s.log)
    requires forall e | e in s.log :: !EndsWith(e.0, "/") && Basename(e.0) != "datapackage.json"
    ensures Fold(out) == Fold(all)
  {
    hide *;
    ReachableInv(cfg, s);
    InvParts(cfg, s);
    FilesInvParts(cfg, s.files, s.log);
    HybridAbsorbs(cfg, s.files, s.log, out);
    HybridIsLogged(cfg, s.files, s.log, out);
    FoldOfAccounted(cfg, s.files, s.log, out, all);
  }

  lemma HybridIsLogged(cfg: Config, f: Files, log: Log, out: seq<Record>)
    requires FilesInv(cfg, f, log) && ListsHybrid(cfg, f, out)
    ensures forall r | r in out :: exists p :: (p, r) in log
  {
    hide Fold, Absorbed, SourcePath, RoundTrips, Base, AllAccounted, FrontierOk, CommitIntact, InSource, PastWatermark, Mark;
    forall r | r in out ensures exists p :: (p, r) in log {
      if r in Base(cfg, f) {
        assert Logged(log, r);
      } else {
        var p :| InSource(cfg, p) && ReadBeyond(f, Mark(cfg, f), p) && f[p].rec == r;
        assert IsRecord(f, p);
        assert (p, r) in log;
      }
    }
  }

  /** A record file past the watermark is read by `iter_beyond` but not enumerated by the compactor, or the other
      way round, if and only if its name ends in the sidecar's name without being it. */
  lemma SidecarsDifferExactly(f: Files, mark: Option<seq<string>>, p: string)
    requires p in f && f[p].RecordBlob? && PastWatermark(p, mark)
    ensures (ReadBeyond(f, mark, p) <==> Eligible(p)) <==> !(EndsWith(p, "datapackage.json") && Basename(p) != "datapackage.json")
    ensures Eligible(p) ==> ReadBeyond(f, mark, p)
  {
    assert EndsWith(p, Basename(p));
    LastCharacter(p, "datapackage.json");
    LastCharacter(p, "/");
  }

  /* ---- Exclusion and commit integrity ---- */

  /** At most one process is ever inside a cycle under a live lock, and the lock file is then its own. */
  lemma SingleActive(cfg: Config, s: State, v: nat, w: nat)
    requires Separate(cfg) && Reachable(cfg, s) && Active(s, v) && Active(s, w)
    ensures v == w && s.lock.file == Some(L.At(s.lock, w).mine)
  {
    hide Reachable, FilesInv, CycleInv, Separate;
    ReachableInv(cfg, s);
  }

  /** CURRENT, if present, names an existing checkpoint, the one of its own generation, whose bytes have the
      recorded hash and decode to a fold of appended records. */
  lemma CommitIntegrity(cfg: Config, s: State)
    requires Separate(cfg) && Reachable(cfg, s)
    ensures CommitIntact(cfg, s.files) && BaseOk(cfg, s.files, s.log)
  {
    hide *;
    ReachableInv(cfg, s);
    InvParts(cfg, s);
    FilesInvParts(cfg, s.files, s.log);
  }

  /** A step leaves CURRENT alone or moves it to the next generation. */
  lemma StepMovesGeneration(cfg: Config, s: State, e: Event)
    requires Separate(cfg) && Inv(cfg, s) && Enabled(cfg, s, e)
    ensures
      var t := Apply(cfg, s, e);
      || (Generation(cfg, t.files) == Generation(cfg, s.files) + 1 && Current(cfg) in t.files)
      || ((Current(cfg) in t.files <==> Current(cfg) in s.files) && (Current(cfg) in t.files ==>
          t.files[Current(cfg)] == s.files[Current(cfg)]))
  {
    hide Encode, Decode, Fold, RoundTrips, Below, Absorbed, Covered, InSource, L.Inv, L.Live, Base, EnumeratedOk,
        LogOk, BaseOk, AllAccounted, FrontierOk, SourcesLogged, Separate, Checkpoint, Current, PastWatermark, Eligible;
    match e
    case Body(w, x) =>
      BodyMovesGeneration(cfg, s.files, s.log, s.cycles[w], x);
    case Append(p, r) =>
      SourcePathInSource(cfg, p);
      SourceIsNotIndexFile(cfg, p, 0);
    case Plant(p, b) => SourceIsNotIndexFile(cfg, p, 0);
    case _ =>
  }

  lemma BodyMovesGeneration(cfg: Config, f: Files, log: Log, c: Cycle, x: Input)
    requires Separate(cfg) && FilesInv(cfg, f, log) && CycleInv(cfg, f, log, c)
    ensures
      var g := Step(cfg, f, c, x).0;
      || (Generation(cfg, g) == Generation(cfg, f) + 1 && Current(cfg) in g)
      || ((Current(cfg) in g <==> Current(cfg) in f) && (Current(cfg) in g ==> g[Current(cfg)] == f[Current(cfg)]))
  {
    hide *;
    WhatIsDeleted(cfg, f, log, c);
    WriteMovesGeneration(cfg, f, c, x);
  }

  lemma WhatIsDeleted(cfg: Config, f: Files, log: Log, c: Cycle)
    requires Separate(cfg) && CycleInv(cfg, f, log, c)
    ensures c.next < |c.paths| ==> c.paths[c.next] != Current(cfg)
    ensures c.pc.Swap? || c.pc.Create? ==> c.generation == Generation(cfg, f)
  {
    hide InSource, Separate, Fold, Encode, Covered, Base, Current, Unchanged, Eligible, Generation, Checkpoint;
    if c.next < |c.paths| { SourceIsNotIndexFile(cfg, c.paths[c.next], 0); }
  }

  lemma WriteMovesGeneration(cfg: Config, f: Files, c: Cycle, x: Input)
    requires c.next < |c.paths| ==> c.paths[c.next] != Current(cfg)
    requires c.pc.Swap? || c.pc.Create? ==> c.generation == Generation(cfg, f)
    ensures
      var g := Step(cfg, f, c, x).0;
      || (Generation(cfg, g) == Generation(cfg, f) + 1 && Current(cfg) in g)
      || ((Current(cfg) in g <==> Current(cfg) in f) && (Current(cfg) in g ==> g[Current(cfg)] == f[Current(cfg)]))
  {
    hide Encode, Decode, Fold, Checkpoint, Current, Garbage, ReadNext, Generation, NewMeta, CheckpointName;
    CurrentIsNoCheckpoint(cfg, c.generation + 1);
    if c.pc.Collect? && c.todo != [] { GarbageIsNotCurrent(cfg, c.todo[0], CheckpointName(c.generation + 1)); }
    if c.pc.Swap? || c.pc.Create? { CommitMovesGeneration(cfg, f, c, x.now); }
  }

  lemma CurrentIsNoCheckpoint(cfg: Config, g: nat)
    ensures Current(cfg) != Checkpoint(cfg, g)
  {
    IndexPathsOf(cfg, g, 0);
  }

  lemma CommitMovesGeneration(cfg: Config, f: Files, c: Cycle, now: int)
    ensures Generation(cfg, Commit(cfg, f, c, now).0) == c.generation + 1
  {}

  lemma GarbageIsNotCurrent(cfg: Config, q: string, keep: string)
    ensures Garbage(q, keep) ==> q != Current(cfg)
  {
    IndexPathsOf(cfg, 0, 0);
  }

  /** Generations strictly increase: along a schedule CURRENT changes only to a higher generation. */
  lemma {:induction false} GenerationsIncrease(cfg: Config, states: seq<State>, events: seq<Event>, i: nat, j: nat)
    requires Separate(cfg) && Run(cfg, states, events) && i <= j < |states|
    ensures Generation(cfg, states[i].files) <= Generation(cfg, states[j].files)
    ensures Current(cfg) in states[i].files ==> Current(cfg) in states[j].files
    ensures (Current(cfg) in states[i].files && states[i].files[Current(cfg)] != states[j].files[Current(cfg)]) ==>
              Generation(cfg, states[i].files) < Generation(cfg, states[j].files)
    decreases j - i
  {
    hide Inv, Init, Enabled, Apply, Separate, Current;
    if i < j {
      GenerationsIncrease(cfg, states, events, i, j - 1);
      RunInv(cfg, states, events, j - 1);
      StepMovesGeneration(cfg, states[j - 1], events[j - 1]);
    }
  }

  /* ---- Deletion authority ---- */

  /** What a cycle's own bookkeeping promises, with or without a lock: it issues source deletes only after
      its commit succeeded, for exactly the paths it enumerated, in that order; a cycle that returns false
      has issued none. */
  ghost predicate Honest(c: Cycle) {
    && (!Cleaning(c.pc) && !c.pc.Raised? && c.pc != Finished(true) ==> !c.won)
    && (Cleaning(c.pc) || c.pc == Finished(true) ==> c.won)
    && (!c.won ==> c.next == 0)
    && |c.paths| == |c.recs| && c.next <= |c.paths| && c.removed == c.paths[..c.next]
  }

  lemma StepHonest(cfg: Config, f: Files, c: Cycle, x: Input)
    requires Honest(c)
    ensures Honest(Step(cfg, f, c, x).1)
    ensures Step(cfg, f, c, x).1.pc == Finished(false) ==> Step(cfg, f, c, x).1.removed == []
  {
    hide Step, ReadNext;
    if c.pc.ReadSource? {
      ReadNextHonest(f, c, x);
      ReadsKeepBooks(cfg, f, c, x);
      ReadsKeepPlace(cfg, f, c, x);
    } else if Reads(c) {
      ReadsKeepBooks(cfg, f, c, x);
      ReadsKeepPlace(cfg, f, c, x);
    } else {
      WriteHonest(cfg, f, c, x);
    }
  }

  lemma WriteHonest(cfg: Config, f: Files, c: Cycle, x: Input)
    requires Honest(c) && !Reads(c)
    ensures Honest(Step(cfg, f, c, x).1)
  {
    hide Encode, Decode, Fold, Checkpoint, Current, Garbage, ReadNext, NewMeta, CheckpointName;
    match c.pc
    case WriteBody =>
    case Swap =>
    case Create =>
    case Abandon =>
    case DeleteSource =>
      if c.consuming && c.next < |c.paths| { assert c.paths[..c.next + 1] == c.paths[..c.next] + [c.paths[c.next]]; }
    case Collect =>
  }

  lemma ReadNextHonest(f: Files, c: Cycle, x: Input)
    requires Honest(c) && c.pc.ReadSource?
    ensures Honest(ReadNext(f, c, x))
  {
    hide Eligible, PastWatermark;
  }

  /** Every cycle of every schedule keeps its books, whoever else runs. */
  lemma {:induction false} CyclesHonest(cfg: Config, states: seq<State>, events: seq<Event>, i: nat)
    requires Run(cfg, states, events) && i < |states|
    ensures forall w | w in states[i].cycles :: Honest(states[i].cycles[w])
  {
    hide Honest, Step, L.Apply, L.Live, L.At, L.Enabled, AppendOk, PlantOk, ListingOk;
    if i > 0 {
      CyclesHonest(cfg, states, events, i - 1);
      var s, e := states[i - 1], events[i - 1];
      forall w | w in states[i].cycles ensures Honest(states[i].cycles[w]) {
        if e.Body? { StepHonest(cfg, s.files, s.cycles[e.w], e.x); }
        if e.Lock? { FreshHonest(e.consuming, states[i].cycles[w].compactor); }
        if e.Raise? { RaisedHonest(s.cycles[e.w]); }
      }
    }
  }

  /** One cycle by itself: its own primitives in order, on whatever stores others leave it, until it raises. */
  ghost predicate OwnSteps(cfg: Config, cycle: seq<Cycle>, stores: seq<Files>, inputs: seq<Input>) {
    && |cycle| == |stores| + 1 == |inputs| + 1
    && forall k | 0 <= k < |stores| ::
         cycle[k + 1] == Step(cfg, stores[k], cycle[k], inputs[k]).1 || cycle[k + 1] == cycle[k].(pc := Raised)
  }

  /** No lock, no clock and no exclusion: whatever everybody else does to the store between its primitives, a
      cycle keeps its books. */
  lemma {:induction false} UnlockedCycleHonest(cfg: Config, cycle: seq<Cycle>, stores: seq<Files>, inputs: seq<Input>, i: nat)
    requires OwnSteps(cfg, cycle, stores, inputs) && i < |cycle| && Honest(cycle[0])
    ensures Honest(cycle[i]) && (cycle[i].pc == Finished(false) ==> cycle[i].removed == [])
  {
    hide Step;
    if i > 0 {
      UnlockedCycleHonest(cfg, cycle, stores, inputs, i - 1);
      StepHonest(cfg, stores[i - 1], cycle[i - 1], inputs[i - 1]);
      RaisedHonest(cycle[i - 1]);
    }
  }

  lemma FreshHonest(consuming: bool, compactor: string)
    ensures Honest(Fresh(consuming, compactor))
  {}

  lemma RaisedHonest(c: Cycle)
    requires Honest(c)
    ensures Honest(c.(pc := Raised))
  {}

  /** A file that leaves a source is either garbage-named, or the one the step's cycle enumerated at this
      position: it read the file's record into its fold input, its own commit has succeeded and is the
      current generation, and the file still carries no more than was folded. */
  lemma DeletionAuthority(cfg: Config, s: State, e: Event, p: string)
    requires Separate(cfg) && Reachable(cfg, s) && Enabled(cfg, s, e)
    requires InSource(cfg, p) && p in s.files && p !in Apply(cfg, s, e).files
    ensures e.Body?
    ensures CHECKPOINT <= Basename(p) || (
              var c := s.cycles[e.w];
              && c.pc.DeleteSource? && c.won && c.consuming && c.next < |c.paths| == |c.recs|
              && p == c.paths[c.next] && (p, c.recs[c.next]) in s.log
              && Generation(cfg, s.files) == c.generation + 1
              && IsRecord(s.files, p) && Below(s.files[p].rec, c.recs[c.next])
              && Absorbed(s.files[p].rec, Base(cfg, s.files)))
  {
    hide *;
    ReachableInv(cfg, s);
    InvParts(cfg, s);
    OnlyBodyRemoves(cfg, s, e, p);
    BodyEnabledParts(cfg, s, e);
    CycleParts(cfg, s.files, s.log, s.cycles[e.w]);
    RemovalByBody(cfg, s.files, s.log, s.cycles[e.w], e.x, p);
  }

  lemma BodyEnabledParts(cfg: Config, s: State, e: Event)
    requires Enabled(cfg, s, e) && e.Body?
    ensures Active(s, e.w) && ListingOk(cfg, s.cycles[e.w], e.x)
  {}

  lemma CycleParts(cfg: Config, f: Files, log: Log, c: Cycle)
    requires CycleInv(cfg, f, log, c)
    ensures EnumeratedOk(cfg, f, log, c) && ProgressOk(cfg, f, c)
  {}

  lemma OnlyBodyRemoves(cfg: Config, s: State, e: Event, p: string)
    requires Enabled(cfg, s, e) && p in s.files && p !in Apply(cfg, s, e).files
    ensures e.Body? && p !in Step(cfg, s.files, s.cycles[e.w], e.x).0
  {
    hide Step, AppendOk, PlantOk, ListingOk, L.Apply, L.Enabled, L.Live, L.At;
  }

  lemma RemovalByBody(cfg: Config, f: Files, log: Log, c: Cycle, x: Input, p: string)
    requires EnumeratedOk(cfg, f, log, c) && ProgressOk(cfg, f, c)
    requires p in f && p !in Step(cfg, f, c, x).0
    ensures CHECKPOINT <= Basename(p) || (
              && c.pc.DeleteSource? && c.won && c.consuming && c.next < |c.paths| == |c.recs|
              && p == c.paths[c.next] && (p, c.recs[c.next]) in log
              && Generation(cfg, f) == c.generation + 1
              && IsRecord(f, p) && Below(f[p].rec, c.recs[c.next])
              && Absorbed(f[p].rec, Base(cfg, f)))
  {
    hide *;
    hide CycleInv;
    if c.pc.DeleteSource? {
      DeleteStep(cfg, f, c, x, p);
      PendingIsAbsorbed(cfg, f, log, c);
      NextIsRead(cfg, f, log, c);
    } else {
      NeverAbandons(cfg, f, c);
      OtherRemovals(cfg, f, c, x, p);
    }
  }

  lemma DeleteStep(cfg: Config, f: Files, c: Cycle, x: Input, p: string)
    requires c.pc.DeleteSource? && p in f && p !in Step(cfg, f, c, x).0
    ensures c.consuming && c.next < |c.paths| && p == c.paths[c.next]
  {
    hide Current;
  }

  /** The next path to delete was read into the fold input, after this cycle's commit. */
  lemma NextIsRead(cfg: Config, f: Files, log: Log, c: Cycle)
    requires EnumeratedOk(cfg, f, log, c) && ProgressOk(cfg, f, c)
    requires c.pc.DeleteSource? && c.consuming && c.next < |c.paths|
    ensures c.won && |c.paths| == |c.recs| && (c.paths[c.next], c.recs[c.next]) in log
    ensures Generation(cfg, f) == c.generation + 1
    ensures c.paths[c.next] in f ==> IsRecord(f, c.paths[c.next]) && Below(f[c.paths[c.next]].rec, c.recs[c.next])
  {
    hide Encode, Fold, InSource, Eligible, Base, Generation, Covered, Current, Checkpoint;
    assert Pending(c, c.next);
  }

  lemma NeverAbandons(cfg: Config, f: Files, c: Cycle)
    requires ProgressOk(cfg, f, c)
    ensures !c.pc.Abandon?
  {
    hide Encode, Fold, Base, Generation, Covered, Current, Checkpoint;
  }

  lemma OtherRemovals(cfg: Config, f: Files, c: Cycle, x: Input, p: string)
    requires !c.pc.Abandon? && !c.pc.DeleteSource?
    requires p in f && p !in Step(cfg, f, c, x).0
    ensures c.pc.Collect? && CHECKPOINT <= Basename(p)
  {
    hide Encode, Fold, Decode, ReadNext, NewMeta, CheckpointName, Current, Checkpoint, Basename;
  }
}
