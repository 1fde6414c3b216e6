/** A cycle that runs to its end undisturbed, and why recovery always converges to the same bytes. */
module Solo {
  import opened Text
  import opened Folding
  import opened Codec
  import opened Naming
  import opened Blobs
  import opened CompactCycle
  import opened Ledger
  import opened Compaction
  import opened Guarantees

  /** Undisturbed: no read or delete fails, and a source listing names every file there is. */
  predicate Exact(cfg: Config, f: Files, c: Cycle, x: Input) {
    && !x.fault && ListingOk(cfg, c, x)
    && (c.pc.ListSource? && c.source < |cfg.sources| ==> forall p | p in f && Under(cfg.sources[c.source], p) :: p in x.listing)
  }

  /** A whole undisturbed cycle: the store and the cycle before, between and after its primitives. */
  ghost predicate SoloRun(cfg: Config, trace: seq<(Files, Cycle)>, inputs: seq<Input>) {
    && |trace| == |inputs| + 1
    && forall i | 0 <= i < |inputs| :: Exact(cfg, trace[i].0, trace[i].1, inputs[i]) &&
        trace[i + 1] == Step(cfg, trace[i].0, trace[i].1, inputs[i])
  }

  /* ---- What an undisturbed cycle knows about the store it started from ---- */

  predicate Wanted(cfg: Config, f: Files, p: string) {
    p in f && f[p].RecordBlob? && Eligible(p) && PastWatermark(p, Mark(cfg, f))
  }

  /** Everything wanted under the sources listed so far has been read, or is still on the to-do list. */
  ghost predicate Swept(cfg: Config, f0: Files, c: Cycle) {
    && c.source <= |cfg.sources|
    && (c.pc.ListSource? || c.pc.ReadSource? || c.source == 0)
    && forall i, p | 0 <= i < c.source && Under(cfg.sources[i], p) && Wanted(cfg, f0, p) :: p in c.paths ||
        (c.pc.ReadSource? && p in c.todo)
  }

  ghost predicate Gathered(cfg: Config, f0: Files, paths: seq<string>) {
    forall p | InSource(cfg, p) && Wanted(cfg, f0, p) :: p in paths
  }

  ghost predicate ReadFrom(f0: Files, paths: seq<string>, recs: seq<Record>) {
    |paths| == |recs| && forall j | 0 <= j < |paths| :: IsRecord(f0, paths[j]) && f0[paths[j]].rec == recs[j]
  }

  predicate Enumerating(pc: Pc) { BeforeMeta(pc) || pc.MarkExists? || pc.MarkRead? || pc.ListSource? || pc.ReadSource? }

  ghost predicate Agree(cfg: Config, f0: Files, f: Files) {
    && SameSources(cfg, f0, f) && Base(cfg, f) == Base(cfg, f0) && Mark(cfg, f) == Mark(cfg, f0) &&
        Generation(cfg, f) == Generation(cfg, f0)
    && (Current(cfg) in f <==> Current(cfg) in f0)
  }

  ghost predicate SoloInv(cfg: Config, f0: Files, f: Files, c: Cycle) {
    && ReadFrom(f0, c.paths, c.recs)
    && !c.pc.Raised?
    && (if Enumerating(c.pc) then Swept(cfg, f0, c) else Gathered(cfg, f0, c.paths))
    && (c.pc.ListSource? || c.pc.ReadSource? ==> c.mark == Mark(cfg, f0))
    && (c.pc.MetaExists? || c.pc.MetaRead? || c.pc.MarkExists? ==> c.mark == None)
    && (if c.won then Base(cfg, f) == Fold(Base(cfg, f0) + c.recs) && Current(cfg) in f else Agree(cfg, f0, f))
    && (c.pc == Finished(false) ==> c.recs == [] && Current(cfg) in f)
  }

  /* ---- Step by step ---- */

  lemma HeadKeepsSolo(cfg: Config, f0: Files, f: Files, c: Cycle, x: Input)
    requires CommitIntact(cfg, f) && ProgressOk(cfg, f, c) && SoloInv(cfg, f0, f, c)
    requires BeforeMeta(c.pc) || c.pc.MarkExists? || c.pc.MarkRead?
    ensures SoloInv(cfg, f0, f, Step(cfg, f, c, x).1)
  {
    hide Encode, Decode, Fold, Base, Generation, CheckpointName, Checkpoint, Wanted, SameSources, Covered;
  }

  lemma ReadKeepsSolo(cfg: Config, f0: Files, f: Files, c: Cycle, x: Input)
    requires c.pc.ReadSource? && !c.won && SoloInv(cfg, f0, f, c) && !x.fault
    requires forall p | p in c.todo :: InSource(cfg, p)
    ensures SoloInv(cfg, f0, f, ReadNext(f, c, x))
  {
    hide Fold, Base, Generation, Eligible, PastWatermark, InSource, Under, Mark;
    var d := ReadNext(f, c, x);
    if c.todo != [] {
      var p := c.todo[0];
      assert InSource(cfg, p);
      assert p in f <==> p in f0;
      assert c.todo == [p] + d.todo;
      assert Swept(cfg, f0, d);
    } else {
      assert Swept(cfg, f0, d);
    }
  }

  lemma ListKeepsSolo(cfg: Config, f0: Files, f: Files, c: Cycle, x: Input)
    requires c.pc.ListSource? && !c.won && SoloInv(cfg, f0, f, c) && Exact(cfg, f, c, x)
    requires c.generation == Generation(cfg, f)
    ensures SoloInv(cfg, f0, f, Step(cfg, f, c, x).1)
  {
    hide Fold, Base, Eligible, PastWatermark, Under, Mark, Encode, Decode;
    var d := Step(cfg, f, c, x).1;
    if c.source < |cfg.sources| {
      forall i, p | 0 <= i < d.source && Under(cfg.sources[i], p) && Wanted(cfg, f0, p) ensures p in d.paths || p in d.todo {
        if i == c.source { assert InSource(cfg, p); }
      }
    } else {
      forall p | InSource(cfg, p) && Wanted(cfg, f0, p) ensures p in c.paths {
        var src :| src in cfg.sources && Under(src, p);
        var i :| 0 <= i < |cfg.sources| && cfg.sources[i] == src;
      }
    }
  }

  lemma MiddleKeepsSolo(cfg: Config, f0: Files, f: Files, c: Cycle, x: Input)
    requires CommitIntact(cfg, f) && ProgressOk(cfg, f, c) && SoloInv(cfg, f0, f, c)
    requires Reads(c) && !Enumerating(c.pc)
    ensures SoloInv(cfg, f0, f, Step(cfg, f, c, x).1)
  {
    hide Encode, Decode, Fold, Generation, CheckpointName, Checkpoint, Wanted, SameSources, Covered, Base, Gathered,
        ReadFrom, Mark;
    hide CommitIntact, ReadNext;
    NeverRaises(cfg, f, c, x);
    match c.pc
    case BaseExists =>
    case BaseRead =>
    case BodyExists =>
    case BodyRead =>
    case HeadExists =>
    case TagExists =>
    case TagRead =>
    case ListIndex =>
    case _ =>
  }

  lemma NeverRaises(cfg: Config, f: Files, c: Cycle, x: Input)
    requires CommitIntact(cfg, f) && ProgressOk(cfg, f, c) && !c.pc.Raised?
    ensures !Step(cfg, f, c, x).1.pc.Raised?
  {
    hide *;
    NeverRaisesOrLoses(cfg, f, c, x);
  }

  lemma WriteKeepsSolo(cfg: Config, f0: Files, f: Files, log: Log, c: Cycle, x: Input)
    requires Separate(cfg) && FilesInv(cfg, f, log) && CycleInv(cfg, f, log, c) && SoloInv(cfg, f0, f, c) && c.pc.WriteBody?
    ensures SoloInv(cfg, f0, Step(cfg, f, c, x).0, Step(cfg, f, c, x).1)
  {
    hide Encode, Decode, Fold, InSource, FilesInv, EnumeratedOk, Base, Generation, Gathered, ReadFrom, Wanted,
        SameSources, Checkpoint, Current;
    var (g, d) := Step(cfg, f, c, x);
    NextCheckpointKeeps(cfg, f, log, c, Bytes(d.body));
    NotIndexFiles(cfg, c.generation + 1);
    IndexWriteKeepsSources(cfg, f, Checkpoint(cfg, c.generation + 1), Bytes(d.body));
    SameSourcesTransitive(cfg, f0, f, g);
    CurrentIsNoCheckpoint(cfg, c.generation + 1);
    assert Mark(cfg, g) == Mark(cfg, f);
  }

  lemma SameSourcesTransitive(cfg: Config, f: Files, g: Files, h: Files)
    requires SameSources(cfg, f, g) && SameSources(cfg, g, h)
    ensures SameSources(cfg, f, h)
  {
    hide InSource;
  }

  lemma CommitKeepsSolo(cfg: Config, f0: Files, f: Files, log: Log, c: Cycle, x: Input)
    requires Separate(cfg) && FilesInv(cfg, f, log) && CycleInv(cfg, f, log, c) && SoloInv(cfg, f0, f, c) &&
        (c.pc.Swap? || c.pc.Create?)
    ensures SoloInv(cfg, f0, Step(cfg, f, c, x).0, Step(cfg, f, c, x).1)
  {
    hide Encode, Decode, Fold, InSource, FilesInv, EnumeratedOk, Base, Generation, Gathered, ReadFrom, SameSources,
        NewMeta, Covered, Mark;
    CommitKeepsFiles(cfg, f, log, c, x.now);
  }

  lemma CleanKeepsSolo(cfg: Config, f0: Files, f: Files, log: Log, c: Cycle, x: Input)
    requires Separate(cfg) && FilesInv(cfg, f, log) && CycleInv(cfg, f, log, c) && SoloInv(cfg, f0, f, c)
    requires c.pc.DeleteSource? || c.pc.Collect?
    ensures SoloInv(cfg, f0, Step(cfg, f, c, x).0, Step(cfg, f, c, x).1)
  {
    hide Encode, Decode, Fold, InSource, FilesInv, EnumeratedOk, Base, Generation, Gathered, ReadFrom, SameSources,
        Covered, Garbage, Current, Absorbed;
    if c.pc.DeleteSource? && c.consuming && c.next < |c.paths| {
      PendingIsAbsorbed(cfg, f, log, c);
      DeleteKeepsFiles(cfg, f, log, c.paths[c.next]);
      SourceIsNotIndexFile(cfg, c.paths[c.next], 0);
    }
    if c.pc.Collect? && c.todo != [] && Garbage(c.todo[0], CheckpointName(c.generation + 1)) {
      CollectKeepsFiles(cfg, f, log, c.todo[0]) by { GenerationCommitted(cfg, f, c); }
      GarbageIsNotCurrent(cfg, c.todo[0], CheckpointName(c.generation + 1));
    }
  }

  lemma GenerationCommitted(cfg: Config, f: Files, c: Cycle)
    requires ProgressOk(cfg, f, c) && Cleaning(c.pc)
    ensures Generation(cfg, f) == c.generation + 1 && Current(cfg) in f
  {
    hide Fold, Encode, Base, Covered;
  }

  lemma StepKeepsSolo(cfg: Config, f0: Files, f: Files, log: Log, c: Cycle, x: Input)
    requires Separate(cfg) && FilesInv(cfg, f, log) && CycleInv(cfg, f, log, c) && SoloInv(cfg, f0, f, c) && Exact(cfg, f, c, x)
    ensures SoloInv(cfg, f0, Step(cfg, f, c, x).0, Step(cfg, f, c, x).1)
  {
    hide *;
    FilesInvParts(cfg, f, log);
    CycleParts(cfg, f, log, c);
    ExactParts(cfg, f, log, c, x);
    if c.pc.WriteBody? {
      WriteKeepsSolo(cfg, f0, f, log, c, x);
    } else if c.pc.Swap? || c.pc.Create? {
      CommitKeepsSolo(cfg, f0, f, log, c, x);
    } else if c.pc.DeleteSource? || c.pc.Collect? {
      CleanKeepsSolo(cfg, f0, f, log, c, x);
    } else {
      ReadsTouchNothing(cfg, f, c, x);
      if c.pc.ReadSource? {
        ReadKeepsSolo(cfg, f0, f, c, x);
      } else if c.pc.ListSource? {
        ListKeepsSolo(cfg, f0, f, c, x);
      } else if BeforeMeta(c.pc) || c.pc.MarkExists? || c.pc.MarkRead? {
        HeadKeepsSolo(cfg, f0, f, c, x);
      } else {
        MiddleKeepsSolo(cfg, f0, f, c, x);
      }
    }
  }

  lemma ExactParts(cfg: Config, f: Files, log: Log, c: Cycle, x: Input)
    requires CycleInv(cfg, f, log, c) && Exact(cfg, f, c, x)
    ensures !x.fault && ListingOk(cfg, c, x) && !c.pc.Abandon?
    ensures !c.pc.WriteBody? && !c.pc.Swap? && !c.pc.Create? && !c.pc.DeleteSource? && !c.pc.Collect? ==> Reads(c)
    ensures BeforeMeta(c.pc) || c.pc.MarkExists? || c.pc.MarkRead? || c.pc.ReadSource? || c.pc.ListSource? <==> Enumerating(c.pc)
    ensures c.pc.ReadSource? || c.pc.ListSource? ==> !c.won && c.generation == Generation(cfg, f)
    ensures c.pc.ReadSource? ==> Step(cfg, f, c, x) == (f, ReadNext(f, c, x)) && forall p | p in c.todo :: InSource(cfg, p)
  {
    hide Fold, Encode, Base, Covered, InSource, Unchanged, ReadNext;
  }

  lemma {:induction false} SoloRunInv(cfg: Config, log: Log, trace: seq<(Files, Cycle)>, inputs: seq<Input>,
      consuming: bool, compactor: string, i: nat)
    requires SoloRun(cfg, trace, inputs) && i < |trace|
    requires Separate(cfg) && FilesInv(cfg, trace[0].0, log) && trace[0].1 == Fresh(consuming, compactor)
    ensures FilesInv(cfg, trace[i].0, log) && CycleInv(cfg, trace[i].0, log, trace[i].1) &&
        SoloInv(cfg, trace[0].0, trace[i].0, trace[i].1)
  {
    hide FilesInv, CycleInv, SoloInv, Step, Exact;
    if i == 0 {
      FreshInv(cfg, trace[0].0, log, consuming, compactor);
      FreshSolo(cfg, trace[0].0, consuming, compactor);
    } else {
      SoloRunInv(cfg, log, trace, inputs, consuming, compactor, i - 1);
      var (f, c) := trace[i - 1];
      StepKeepsSolo(cfg, trace[0].0, f, log, c, inputs[i - 1]);
      StepKeeps(cfg, f, log, c, inputs[i - 1]) by { ExactParts(cfg, f, log, c, inputs[i - 1]); }
    }
  }

  lemma FreshSolo(cfg: Config, f: Files, consuming: bool, compactor: string)
    ensures SoloInv(cfg, f, f, Fresh(consuming, compactor))
  {
    hide InSource, Wanted, Base;
  }

  /* ---- What it commits ---- */

  /** `all` lists the appended records the compactor may enumerate, in any order and multiplicity. */
  ghost predicate ListsEligible(all: seq<Record>, log: Log) {
    forall r :: r in all <==> Logged(log, r)
  }

  lemma GatheredAbsorbs(cfg: Config, f0: Files, log: Log, paths: seq<string>, recs: seq<Record>, r: Record)
    requires FilesInv(cfg, f0, log) && Gathered(cfg, f0, paths) && ReadFrom(f0, paths, recs) && Logged(log, r)
    ensures Absorbed(r, Base(cfg, f0) + recs)
  {
    hide Fold, Base, Leq, InSource, RoundTrips, CommitIntact, SourcesLogged, BaseOk, PastWatermark, Mark, Frontier, Eligible;
    var p :| (p, r) in log && Eligible(p);
    var base := Base(cfg, f0);
    assert (p, r).1 == r && SourcePath(cfg, (p, r).0) && Accounted(f0, base, p, r);
    if IsRecord(f0, p) && Below(r, f0[p].rec) {
      if PastWatermark(p, Mark(cfg, f0)) {
        assert Wanted(cfg, f0, p);
        var j :| 0 <= j < |paths| && paths[j] == p;
        assert recs[j] in base + recs;
      } else {
        SkippedIsOnFrontier(cfg, f0, log, p);
        AbsorbedTransitive(r, f0[p].rec, base);
        Widen(r, base, recs);
      }
    } else {
      Widen(r, base, recs);
    }
  }

  lemma Widen(r: Record, a: seq<Record>, b: seq<Record>)
    requires Absorbed(r, a)
    ensures Absorbed(r, a + b)
  {
    hide Below;
    var s :| s in a && Below(r, s);
    assert s in a + b;
  }

  lemma FoldOfGathered(cfg: Config, f0: Files, log: Log, c: Cycle, all: seq<Record>)
    requires FilesInv(cfg, f0, log) && Gathered(cfg, f0, c.paths) && ReadFrom(f0, c.paths, c.recs)
    requires ListsEligible(all, log) && Canonical(Records(log))
    requires forall r | r in c.recs :: Logged(log, r)
    ensures Fold(Base(cfg, f0) + c.recs) == Fold(all)
  {
    hide Fold, Base, Absorbed, Gathered, ReadFrom, LogOk, SourcesLogged, CommitIntact, FrontierOk, AllAccounted;
    var input := Base(cfg, f0) + c.recs;
    forall r | r in all ensures Absorbed(r, input) { GatheredAbsorbs(cfg, f0, log, c.paths, c.recs, r); }
    forall r | r in all ensures r in Records(log) {
      var p :| (p, r) in log && Eligible(p);
      assert (p, r).1 in Records(log);
    }
    FoldOfSubset(input, all);
  }

  /** An undisturbed cycle leaves CURRENT naming a checkpoint whose bytes are the serialised fold of every
      eligible record ever appended: freshly committed, or already there when the cycle finds it idle. */
  lemma SoloCycleFolds(cfg: Config, log: Log, trace: seq<(Files, Cycle)>, inputs: seq<Input>, consuming: bool,
      compactor: string, all: seq<Record>)
    requires Separate(cfg) && Canonical(Records(log)) && ListsEligible(all, log)
    requires SoloRun(cfg, trace, inputs) && trace[|trace| - 1].1.pc.Over()
    requires FilesInv(cfg, trace[0].0, log) && trace[0].1 == Fresh(consuming, compactor)
    ensures
      var (f, c) := trace[|trace| - 1];
      && c.pc.Finished? && Current(cfg) in f && ReadCurrent(cfg, f) == Some(Fold(all))
      && Checkpoint(cfg, Generation(cfg, f)) in f
      && f[Checkpoint(cfg, Generation(cfg, f))] == Bytes(Encode(cfg.codec, Fold(all)))
  {
    hide *;
    SoloRunParts(cfg, trace, inputs);
    var (f, c) := trace[|trace| - 1];
    var f0 := trace[0].0;
    SoloRunInv(cfg, log, trace, inputs, consuming, compactor, |trace| - 1);
    EndOfSolo(cfg, f0, f, log, c);
    FoldOfGathered(cfg, f0, log, c, all);
    FilesInvParts(cfg, f, log);
    IntactBytes(cfg, f);
  }

  lemma SoloRunParts(cfg: Config, trace: seq<(Files, Cycle)>, inputs: seq<Input>)
    requires SoloRun(cfg, trace, inputs)
    ensures |trace| == |inputs| + 1
  {
    hide Exact, Step;
  }

  lemma EndOfSolo(cfg: Config, f0: Files, f: Files, log: Log, c: Cycle)
    requires FilesInv(cfg, f0, log) && CycleInv(cfg, f, log, c) && SoloInv(cfg, f0, f, c) && c.pc.Over()
    ensures c.pc.Finished? && Current(cfg) in f && Gathered(cfg, f0, c.paths) && ReadFrom(f0, c.paths, c.recs)
    ensures Base(cfg, f) == Fold(Base(cfg, f0) + c.recs)
    ensures forall r | r in c.recs :: Logged(log, r)
  {
    hide Fold, Base, Gathered, Covered, Unchanged, InSource, Encode, Mark, LogOk, SourcesLogged, CommitIntact,
        FrontierOk, AllAccounted, Eligible;
    forall r | r in c.recs ensures Logged(log, r) {
      var j :| 0 <= j < |c.recs| && c.recs[j] == r;
      assert (c.paths[j], r) in log;
    }
    assert Base(cfg, f0) + [] == Base(cfg, f0);
  }

  lemma IntactBytes(cfg: Config, f: Files)
    requires CommitIntact(cfg, f) && Current(cfg) in f
    ensures ReadCurrent(cfg, f) == Some(Base(cfg, f))
    ensures Checkpoint(cfg, Generation(cfg, f)) in f && f[Checkpoint(cfg, Generation(cfg,
        f))] == Bytes(Encode(cfg.codec, Base(cfg, f)))
  {
    hide Encode, Decode;
  }

  /* ---- Confluence ---- */

  ghost function EligibleRecords(log: Log): set<Record> {
    set e | e in log && Eligible(e.0) :: e.1
  }

  lemma Enumerate(records: set<Record>) returns (all: seq<Record>)
    ensures forall r :: r in all <==> r in records
  {
    if records == {} {
      all := [];
    } else {
      var r :| r in records;
      var rest := Enumerate(records - {r});
      all := [r] + rest;
    }
  }

  lemma EligibleAreLogged(log: Log)
    ensures forall r :: r in EligibleRecords(log) <==> Logged(log, r)
  {
    hide Eligible;
    forall r ensures r in EligibleRecords(log) <==> Logged(log, r) {
      if Logged(log, r) {
        var p :| (p, r) in log && Eligible(p);
        assert (p, r).1 in EligibleRecords(log);
      }
      if r in EligibleRecords(log) {
        var e :| e in log && Eligible(e.0) && e.1 == r;
        assert (e.0, r) in log;
      }
    }
  }

  /** Recovery is confluent: from any two reachable states whose schedules appended the same records, however
      those were batched into cycles, retained or consumed, crashed or repeated, one undisturbed cycle each
      ends with byte-identical checkpoints. */
  lemma Confluence(cfg: Config, s1: State, s2: State,
                   trace1: seq<(Files, Cycle)>, inputs1: seq<Input>, consuming1: bool, compactor1: string,
                   trace2: seq<(Files, Cycle)>, inputs2: seq<Input>, consuming2: bool, compactor2: string)
    requires Separate(cfg) && Reachable(cfg, s1) && Reachable(cfg, s2)
    requires EligibleRecords(s1.log) == EligibleRecords(s2.log) && Canonical(Records(s1.log)) && Canonical(Records(s2.log))
    requires SoloRun(cfg, trace1, inputs1) && trace1[0] == (s1.files, Fresh(consuming1, compactor1)) &&
        trace1[|trace1| - 1].1.pc.Over()
    requires SoloRun(cfg, trace2, inputs2) && trace2[0] == (s2.files, Fresh(consuming2, compactor2)) &&
        trace2[|trace2| - 1].1.pc.Over()
    ensures
      var f1, f2 := trace1[|trace1| - 1].0, trace2[|trace2| - 1].0;
      var c1, c2 := Checkpoint(cfg, Generation(cfg, f1)), Checkpoint(cfg, Generation(cfg, f2));
      Current(cfg) in f1 && Current(cfg) in f2 && c1 in f1 && c2 in f2 && f1[c1] == f2[c2]
  {
    hide *;
    ReachableInv(cfg, s1);
    ReachableInv(cfg, s2);
    InvParts(cfg, s1);
    InvParts(cfg, s2);
    EligibleAreLogged(s1.log);
    EligibleAreLogged(s2.log);
    var all := Enumerate(EligibleRecords(s1.log));
    ListsEligibleFrom(all, s1.log);
    ListsEligibleFrom(all, s2.log);
    SoloCycleFolds(cfg, s1.log, trace1, inputs1, consuming1, compactor1, all);
    SoloCycleFolds(cfg, s2.log, trace2, inputs2, consuming2, compactor2, all);
  }

  lemma ListsEligibleFrom(all: seq<Record>, log: Log)
    requires forall r :: r in all <==> Logged(log, r)
    ensures ListsEligible(all, log)
  {
    hide Logged;
  }
}
