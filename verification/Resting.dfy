/** When compaction comes to rest: exactly when the cycle after an undisturbed one finds nothing to do. */
module Resting {
  import opened Text
  import opened Folding
  import opened Codec
  import opened Naming
  import opened Blobs
  import opened CompactCycle
  import opened Ledger
  import opened Guarantees
  import opened Solo

  predicate Decided(pc: Pc) {
    !Enumerating(pc) && pc != Finished(false) && !pc.Raised?
  }

  /** What the cycle enumerates lies beyond the watermark it started from, and it goes on past the idle test
      only with something to fold, or for the first commit. */
  ghost predicate Chosen(cfg: Config, f0: Files, c: Cycle) {
    && (forall p | p in c.paths :: PastWatermark(p, Mark(cfg, f0)))
    && (if BeforeMeta(c.pc) then c.generation == 0 else c.generation == Generation(cfg, f0))
    && (Decided(c.pc) ==> c.recs != [] || c.generation == 0)
  }

  lemma ReadNextKeepsChosen(cfg: Config, f0: Files, f: Files, c: Cycle, x: Input)
    requires Chosen(cfg, f0, c) && c.pc.ReadSource? && c.mark == Mark(cfg, f0)
    ensures Chosen(cfg, f0, ReadNext(f, c, x))
  {
    hide Eligible, PastWatermark, Mark, Generation;
  }

  lemma HeadKeepsChosen(cfg: Config, f0: Files, f: Files, c: Cycle, x: Input)
    requires Chosen(cfg, f0, c) && Generation(cfg, f) == Generation(cfg, f0)
    requires BeforeMeta(c.pc) || c.pc.MarkExists? || c.pc.MarkRead?
    requires c.pc.MetaRead? ==> Current(cfg) in f && f[Current(cfg)].MetaBlob?
    ensures Chosen(cfg, f0, Step(cfg, f, c, x).1)
  {
    hide Decode, PastWatermark, Mark, Current;
    match c.pc
    case MetaExists =>
    case MetaRead =>
    case MarkExists =>
    case MarkRead =>
  }

  lemma RestKeepsChosen(cfg: Config, f0: Files, f: Files, c: Cycle, x: Input)
    requires Chosen(cfg, f0, c) && (c.pc.ListSource? || !Enumerating(c.pc))
    ensures Chosen(cfg, f0, Step(cfg, f, c, x).1)
  {
    hide Step, PastWatermark, Mark, Generation;
    RestKeepsLists(cfg, f, c, x);
    RestDecides(cfg, f, c, x);
  }

  lemma RestKeepsLists(cfg: Config, f: Files, c: Cycle, x: Input)
    requires c.pc.ListSource? || !Enumerating(c.pc)
    ensures
      var d := Step(cfg, f, c, x).1;
      d.paths == c.paths && d.recs == c.recs && d.generation == c.generation
  {
    hide Decode, Encode, Fold, Current, Checkpoint, CheckpointName, Garbage, NewMeta;
    match c.pc
    case ListSource =>
    case BaseExists =>
    case BaseRead =>
    case BodyExists =>
    case BodyRead =>
    case WriteBody =>
    case HeadExists =>
    case TagExists =>
    case TagRead =>
    case Swap =>
    case Create =>
    case Abandon =>
    case DeleteSource =>
    case ListIndex =>
    case Collect =>
    case Finished(_) =>
    case Raised =>
  }

  lemma RestDecides(cfg: Config, f: Files, c: Cycle, x: Input)
    requires c.pc.ListSource? || !Enumerating(c.pc)
    ensures
      var d := Step(cfg, f, c, x).1;
      && !BeforeMeta(d.pc)
      && (Decided(d.pc) ==> Decided(c.pc) || (c.pc.ListSource? && (c.recs != [] || c.generation == 0)))
  {
    hide Decode, Encode, Fold, Current, Checkpoint, CheckpointName, Garbage, NewMeta;
    match c.pc
    case ListSource =>
    case BaseExists =>
    case BaseRead =>
    case BodyExists =>
    case BodyRead =>
    case WriteBody =>
    case HeadExists =>
    case TagExists =>
    case TagRead =>
    case Swap =>
    case Create =>
    case Abandon =>
    case DeleteSource =>
    case ListIndex =>
    case Collect =>
    case Finished(_) =>
    case Raised =>
  }

  /** What the store looks like to the cycle: the records of the sources as they were, less those it has deleted,
      and, once it has committed, its own watermark. */
  ghost predicate Leftover(cfg: Config, f0: Files, f: Files, c: Cycle) {
    && (forall p | InSource(cfg, p) :: SameRecord(f0, f, c.removed, p))
    && (c.won ==> Mark(cfg, f) == if c.consuming then None else Some(c.paths))
    && (!c.consuming ==> c.removed == [])
    && (c.consuming && (c.pc.ListIndex? || c.pc.Collect? || c.pc == Finished(true)) ==> c.next == |c.paths|)
  }

  ghost predicate SameRecord(f0: Files, f: Files, removed: seq<string>, p: string) {
    && (IsRecord(f, p) <==> IsRecord(f0, p) && p !in removed)
    && (IsRecord(f, p) ==> f[p] == f0[p])
  }

  lemma ReadsKeepLeftover(cfg: Config, f0: Files, f: Files, c: Cycle, x: Input)
    requires Leftover(cfg, f0, f, c) && Reads(c) && (c.pc == Finished(true) || c.pc.ListIndex? || !c.won || c.pc.Over())
    ensures Leftover(cfg, f0, f, Step(cfg, f, c, x).1)
  {
    hide Step, InSource, SameRecord, Mark;
    ReadsKeepBooks(cfg, f, c, x);
    ReadsKeepPlace(cfg, f, c, x);
    if c.pc.ListIndex? { ListIndexStep(cfg, f, c, x); }
  }

  /** A write to a file that is neither a source nor CURRENT changes nothing here. */
  lemma OtherWriteKeepsLeftover(cfg: Config, f0: Files, f: Files, g: Files, c: Cycle, d: Cycle, path: string)
    requires Leftover(cfg, f0, f, c)
    requires g == f - {path} || (path in g && g == f[path := g[path]])
    requires path != Current(cfg) && forall p | InSource(cfg, p) :: p != path || (!IsRecord(f, p) && !IsRecord(g, p))
    requires d.won == c.won && d.consuming == c.consuming && d.paths == c.paths && d.removed == c.removed && d.next == c.next
    requires d.pc.ListIndex? || d.pc.Collect? || d.pc == Finished(true) ==> c.pc.ListIndex? || c.pc.Collect? || c.pc == Finished(true)
    ensures Leftover(cfg, f0, g, d)
  {
    hide InSource, Current;
  }

  lemma WriteBodyKeepsLeftover(cfg: Config, f0: Files, f: Files, c: Cycle, x: Input)
    requires Separate(cfg) && Leftover(cfg, f0, f, c) && c.pc.WriteBody?
    ensures Leftover(cfg, f0, Step(cfg, f, c, x).0, Step(cfg, f, c, x).1)
  {
    hide *;
    WriteStep(cfg, f, c, x);
    CurrentIsNoCheckpoint(cfg, c.generation + 1);
    NotIndexFiles(cfg, c.generation + 1);
    var (g, d) := Step(cfg, f, c, x);
    OtherWriteKeepsLeftover(cfg, f0, f, g, c, d, Checkpoint(cfg, c.generation + 1));
  }

  lemma CommitKeepsLeftover(cfg: Config, f0: Files, f: Files, c: Cycle, x: Input)
    requires Separate(cfg) && Leftover(cfg, f0, f, c) && ProgressOk(cfg, f, c) && (c.pc.Swap? || c.pc.Create?)
    ensures Leftover(cfg, f0, Step(cfg, f, c, x).0, Step(cfg, f, c, x).1)
  {
    hide Current, InSource, Separate, ProgressOk, Step, CheckpointName;
    CommitStep(cfg, f, c, x);
    NotIndexFiles(cfg, 0);
  }

  lemma DeleteKeepsLeftover(cfg: Config, f0: Files, f: Files, log: Log, c: Cycle, x: Input)
    requires Separate(cfg) && Leftover(cfg, f0, f, c) && EnumeratedOk(cfg, f, log, c) && Honest(c)
    requires c.pc.DeleteSource? && !x.fault
    ensures Leftover(cfg, f0, Step(cfg, f, c, x).0, Step(cfg, f, c, x).1)
  {
    hide Current, InSource, Separate, Unchanged, Eligible;
    if c.consuming && c.next < |c.paths| {
      SourceIsNotIndexFile(cfg, c.paths[c.next], 0);
    }
  }

  /** Collection takes no record from a source. */
  lemma CollectKeepsLeftover(cfg: Config, f0: Files, f: Files, log: Log, c: Cycle, x: Input)
    requires Leftover(cfg, f0, f, c) && LogOk(cfg, log) && SourcesLogged(cfg, f, log) && c.pc.Collect?
    ensures Leftover(cfg, f0, Step(cfg, f, c, x).0, Step(cfg, f, c, x).1)
  {
    hide *;
    CollectStep(cfg, f, c, x);
    var (g, d) := Step(cfg, f, c, x);
    if c.todo == [] {
      SameFilesKeepLeftover(cfg, f0, f, c, d);
    } else {
      GarbageIsNotCurrent(cfg, c.todo[0], CheckpointName(c.generation + 1));
      GarbageIsNoRecord(cfg, f, log, c.todo[0], CheckpointName(c.generation + 1));
      if g == f {
        SameFilesKeepLeftover(cfg, f0, f, c, d);
      } else {
        OtherWriteKeepsLeftover(cfg, f0, f, g, c, d, c.todo[0]);
      }
    }
  }

  lemma SameFilesKeepLeftover(cfg: Config, f0: Files, f: Files, c: Cycle, d: Cycle)
    requires Leftover(cfg, f0, f, c) && c.pc.Collect? && d == c.(pc := d.pc, todo := d.todo)
    ensures Leftover(cfg, f0, f, d)
  {
    hide InSource, Mark, SameRecord;
  }

  lemma GarbageIsNoRecord(cfg: Config, f: Files, log: Log, q: string, keep: string)
    requires LogOk(cfg, log) && SourcesLogged(cfg, f, log)
    ensures Garbage(q, keep) && InSource(cfg, q) ==> !IsRecord(f, q) && !IsRecord(f - {q}, q)
  {
    hide InSource, RoundTrips, Basename;
    if IsRecord(f, q) && InSource(cfg, q) {
      assert (q, f[q].rec) in log;
      assert SourcePath(cfg, (q, f[q].rec).0);
    }
  }

  /* ---- A whole undisturbed cycle ---- */

  lemma StepKeepsResting(cfg: Config, f0: Files, f: Files, log: Log, c: Cycle, x: Input)
    requires Separate(cfg) && FilesInv(cfg, f, log) && CycleInv(cfg, f, log, c) && SoloInv(cfg, f0, f, c)
    requires Exact(cfg, f, c, x) && Chosen(cfg, f0, c) && Leftover(cfg, f0, f, c) && Honest(c)
    ensures Chosen(cfg, f0, Step(cfg, f, c, x).1)
    ensures Leftover(cfg, f0, Step(cfg, f, c, x).0, Step(cfg, f, c, x).1)
  {
    hide *;
    FilesInvParts(cfg, f, log);
    CycleParts(cfg, f, log, c);
    ExactParts(cfg, f, log, c, x);
    SoloParts(cfg, f0, f, c);
    HonestParts(c);
    ReadsParts(c);
    if c.pc.ReadSource? {
      ReadNextKeepsChosen(cfg, f0, f, c, x);
    } else if BeforeMeta(c.pc) || c.pc.MarkExists? || c.pc.MarkRead? {
      MetaThere(cfg, f, c);
      HeadKeepsChosen(cfg, f0, f, c, x);
    } else {
      RestKeepsChosen(cfg, f0, f, c, x);
    }
    if c.pc.WriteBody? {
      WriteBodyKeepsLeftover(cfg, f0, f, c, x);
    } else if c.pc.Swap? || c.pc.Create? {
      CommitKeepsLeftover(cfg, f0, f, c, x);
    } else if c.pc.DeleteSource? {
      DeleteKeepsLeftover(cfg, f0, f, log, c, x);
    } else if c.pc.Collect? {
      CollectKeepsLeftover(cfg, f0, f, log, c, x);
    } else {
      ReadsTouchNothing(cfg, f, c, x);
      ReadsKeepLeftover(cfg, f0, f, c, x);
    }
  }

  lemma SoloParts(cfg: Config, f0: Files, f: Files, c: Cycle)
    requires SoloInv(cfg, f0, f, c)
    ensures c.pc.ReadSource? ==> c.mark == Mark(cfg, f0)
    ensures !c.won ==> Generation(cfg, f) == Generation(cfg, f0)
  {
    hide Base, Mark, Wanted, ReadFrom, Swept, Gathered, Generation, SameSources;
  }

  lemma HonestParts(c: Cycle)
    requires Honest(c)
    ensures c.won ==> Cleaning(c.pc) || c.pc.Raised? || c.pc == Finished(true)
  {}

  /** The program counters, sorted. */
  lemma ReadsParts(c: Cycle)
    ensures !c.pc.WriteBody? && !c.pc.Swap? && !c.pc.Create? && !c.pc.DeleteSource? && !c.pc.Collect? && !c.pc.Abandon? ==> Reads(c)
    ensures Enumerating(c.pc) <==> BeforeMeta(c.pc) || c.pc.MarkExists? || c.pc.MarkRead? || c.pc.ReadSource? || c.pc.ListSource?
    ensures Cleaning(c.pc) && Reads(c) ==> c.pc.ListIndex?
    ensures Cleaning(c.pc) || c.pc.Over() ==> !Enumerating(c.pc)
    ensures c.pc.Finished? || c.pc.Raised? <==> c.pc.Over()
  {}

  lemma MetaThere(cfg: Config, f: Files, c: Cycle)
    requires CommitIntact(cfg, f) && ProgressOk(cfg, f, c)
    ensures c.pc.MetaRead? ==> Current(cfg) in f && f[Current(cfg)].MetaBlob?
    ensures Enumerating(c.pc) ==> !c.won
  {
    hide Encode, Decode, Fold, Base, Covered, Current, Checkpoint, CheckpointName, ReadCurrent, Generation;
  }

  lemma {:induction false} RestingRun(cfg: Config, log: Log, trace: seq<(Files, Cycle)>, inputs: seq<Input>, consuming: bool,
      compactor: string, i: nat)
    requires SoloRun(cfg, trace, inputs) && i < |trace|
    requires Separate(cfg) && FilesInv(cfg, trace[0].0, log) && trace[0].1 == Fresh(consuming, compactor)
    ensures Chosen(cfg, trace[0].0, trace[i].1) && Leftover(cfg, trace[0].0, trace[i].0, trace[i].1)
    ensures Honest(trace[i].1) && trace[i].1.consuming == consuming
  {
    hide FilesInv, CycleInv, SoloInv, Step, Exact, Chosen, Leftover, Honest, Separate;
    if i == 0 {
      FreshRests(cfg, trace[0].0, consuming, compactor);
      FreshHonest(consuming, compactor);
    } else {
      var (f, c) := trace[i - 1];
      RestingRun(cfg, log, trace, inputs, consuming, compactor, i - 1);
      SoloRunInv(cfg, log, trace, inputs, consuming, compactor, i - 1);
      StepKeepsResting(cfg, trace[0].0, f, log, c, inputs[i - 1]);
      StepHonest(cfg, f, c, inputs[i - 1]);
      ModeIsFixed(cfg, f, c, inputs[i - 1]);
    }
  }

  lemma FreshRests(cfg: Config, f: Files, consuming: bool, compactor: string)
    ensures Chosen(cfg, f, Fresh(consuming, compactor)) && Leftover(cfg, f, f, Fresh(consuming, compactor))
    ensures Fresh(consuming, compactor).consuming == consuming
  {
    hide InSource, Mark;
  }

  lemma ModeIsFixed(cfg: Config, f: Files, c: Cycle, x: Input)
    ensures Step(cfg, f, c, x).1.consuming == c.consuming
  {
    hide *;
    ReadsParts(c);
    if Reads(c) { ReadsKeepBooks(cfg, f, c, x); } else { WritesKeepMode(cfg, f, c, x); }
  }

  lemma WritesKeepMode(cfg: Config, f: Files, c: Cycle, x: Input)
    requires !Reads(c)
    ensures Step(cfg, f, c, x).1.consuming == c.consuming
  {
    hide Encode, Fold, Current, Checkpoint, CheckpointName, Garbage, NewMeta;
    match c.pc
    case WriteBody =>
    case Swap =>
    case Create =>
    case Abandon =>
    case DeleteSource =>
    case Collect =>
  }

  /** Nothing under the sources is waiting for the next cycle. */
  ghost predicate Settled(cfg: Config, f: Files) {
    forall p | InSource(cfg, p) :: !Wanted(cfg, f, p)
  }

  /** The watermark left no eligible record of the sources out. */
  ghost predicate NothingLeftOut(cfg: Config, f: Files) {
    forall p | InSource(cfg, p) && IsRecord(f, p) && Eligible(p) :: PastWatermark(p, Mark(cfg, f))
  }

  lemma BareNamesAreNoSources(cfg: Config, p: string)
    ensures !InSource(cfg, Basename(p))
  {
    hide Under;
    if InSource(cfg, Basename(p)) {
      var s :| s in cfg.sources && Under(s, Basename(p));
      UnderHasSlash(s, Basename(p));
    }
  }

  /** A path is new to the next cycle exactly when it is an eligible record that this cycle's watermark hid:
      what this one enumerated it has deleted, or put on the frontier, which holds nothing else. */
  lemma NextWants(cfg: Config, f0: Files, f: Files, c: Cycle, p: string)
    requires InSource(cfg, p) && Leftover(cfg, f0, f, c) && Chosen(cfg, f0, c) && Honest(c)
    requires Gathered(cfg, f0, c.paths) && ReadFrom(f0, c.paths, c.recs) && c.pc == Finished(true)
    requires forall q | q in c.paths :: Eligible(q) && InSource(cfg, q)
    ensures Wanted(cfg, f, p) <==> IsRecord(f0, p) && Eligible(p) && !PastWatermark(p, Mark(cfg, f0))
  {
    hide Eligible, Mark, Basename, InSource, Generation;
    BareNamesAreNoSources(cfg, p);
    assert SameRecord(f0, f, c.removed, p);
    assert c.consuming ==> c.removed == c.paths;
    if p in c.paths {
      var j :| 0 <= j < |c.paths| && c.paths[j] == p;
      assert IsRecord(f0, p);
    }
    assert p in c.paths <==> Wanted(cfg, f0, p);
  }

  /** A cycle past the enumeration, on a store with a committed generation, ends idle exactly when there was
      nothing for it. */
  lemma IdleExactly(cfg: Config, f0: Files, f: Files, c: Cycle)
    requires SoloInv(cfg, f0, f, c) && Chosen(cfg, f0, c) && c.pc.Over() && !c.pc.Raised? && Generation(cfg, f0) > 0
    requires forall q | q in c.paths :: Eligible(q) && InSource(cfg, q)
    ensures c.pc == Finished(false) <==> Settled(cfg, f0)
  {
    hide Eligible, Mark, InSource, Generation, Base, PastWatermark, SameSources;
    if c.pc == Finished(false) {
      assert c.paths == [];
    } else {
      assert c.recs != [] && c.paths[0] in c.paths;
      assert IsRecord(f0, c.paths[0]) && Wanted(cfg, f0, c.paths[0]);
    }
  }

  lemma EnumeratedPaths(cfg: Config, f: Files, log: Log, c: Cycle)
    requires CycleInv(cfg, f, log, c)
    ensures forall q | q in c.paths :: Eligible(q) && InSource(cfg, q)
  {
    hide ProgressOk, Unchanged, Eligible, InSource;
  }

  lemma CommittedGeneration(cfg: Config, f: Files, log: Log)
    requires FilesInv(cfg, f, log) && Current(cfg) in f
    ensures Generation(cfg, f) > 0
  {
    hide Encode, Decode, LogOk, SourcesLogged, BaseOk, FrontierOk, AllAccounted, ReadCurrent, Base;
  }

  /** When compaction comes to rest, in either mode: after an undisturbed cycle that did something, the next
      one returns false if and only if the watermark the first one started from had left nothing out. In
      retained mode a frontier holds only what its own cycle read, so what an earlier frontier covered is new
      again, and in consuming mode what a retained commit had covered is. */
  lemma RestsExactly(cfg: Config, log: Log,
                     trace1: seq<(Files, Cycle)>, inputs1: seq<Input>, consuming1: bool, compactor1: string,
                     trace2: seq<(Files, Cycle)>, inputs2: seq<Input>, consuming2: bool, compactor2: string)
    requires Separate(cfg) && SoloRun(cfg, trace1, inputs1) && SoloRun(cfg, trace2, inputs2)
    requires FilesInv(cfg, trace1[0].0, log) && trace1[0].1 == Fresh(consuming1, compactor1)
    requires trace1[|trace1| - 1].1.pc == Finished(true)
    requires trace2[0] == (trace1[|trace1| - 1].0, Fresh(consuming2, compactor2)) && trace2[|trace2| - 1].1.pc.Over()
    ensures trace2[|trace2| - 1].1.pc == Finished(false) <==> NothingLeftOut(cfg, trace1[0].0)
  {
    hide *;
    SoloRunParts(cfg, trace1, inputs1);
    SoloRunParts(cfg, trace2, inputs2);
    var f0 := trace1[0].0;
    var (f1, c1) := trace1[|trace1| - 1];
    var (f2, c2) := trace2[|trace2| - 1];
    SoloRunInv(cfg, log, trace1, inputs1, consuming1, compactor1, |trace1| - 1);
    RestingRun(cfg, log, trace1, inputs1, consuming1, compactor1, |trace1| - 1);
    EndOfFirst(cfg, f0, f1, log, c1);
    EndOfSolo(cfg, f0, f1, log, c1);
    EnumeratedPaths(cfg, f1, log, c1);
    CommittedGeneration(cfg, f1, log);
    SoloRunInv(cfg, log, trace2, inputs2, consuming2, compactor2, |trace2| - 1);
    RestingRun(cfg, log, trace2, inputs2, consuming2, compactor2, |trace2| - 1);
    EnumeratedPaths(cfg, f2, log, c2);
    EndOfSolo(cfg, f1, f2, log, c2);
    IsNotRaised(c2);
    IdleExactly(cfg, f1, f2, c2);
    SettledExactly(cfg, f0, f1, c1);
  }

  lemma EndOfFirst(cfg: Config, f0: Files, f: Files, log: Log, c: Cycle)
    requires c.pc == Finished(true)
    ensures c.pc.Over()
  {}

  lemma IsNotRaised(c: Cycle)
    requires c.pc.Finished?
    ensures !c.pc.Raised? && c.pc.Over()
  {}

  lemma SettledExactly(cfg: Config, f0: Files, f: Files, c: Cycle)
    requires Leftover(cfg, f0, f, c) && Chosen(cfg, f0, c) && Honest(c)
    requires Gathered(cfg, f0, c.paths) && ReadFrom(f0, c.paths, c.recs) && c.pc == Finished(true)
    requires forall q | q in c.paths :: Eligible(q) && InSource(cfg, q)
    ensures Settled(cfg, f) <==> NothingLeftOut(cfg, f0)
  {
    hide Leftover, Chosen, Honest, Gathered, ReadFrom, Wanted, InSource, Eligible, PastWatermark, Mark;
    forall p | InSource(cfg, p) ensures Wanted(cfg, f, p) <==> IsRecord(f0, p) && Eligible(p) && !PastWatermark(p, Mark(cfg, f0)) {
      NextWants(cfg, f0, f, c, p);
    }
  }

  /** In consuming mode, started from a store whose CURRENT records no frontier: the cycle leaves no eligible
      record in the sources, and the next one returns false. */
  lemma ConsumingRests(cfg: Config, log: Log,
                       trace1: seq<(Files, Cycle)>, inputs1: seq<Input>, compactor1: string,
                       trace2: seq<(Files, Cycle)>, inputs2: seq<Input>, consuming2: bool, compactor2: string)
    requires Separate(cfg) && SoloRun(cfg, trace1, inputs1) && SoloRun(cfg, trace2, inputs2)
    requires FilesInv(cfg, trace1[0].0, log) && trace1[0].1 == Fresh(true, compactor1) && Mark(cfg, trace1[0].0) == None
    requires trace1[|trace1| - 1].1.pc == Finished(true)
    requires trace2[0] == (trace1[|trace1| - 1].0, Fresh(consuming2, compactor2)) && trace2[|trace2| - 1].1.pc.Over()
    ensures forall p | InSource(cfg, p) && IsRecord(trace1[|trace1| - 1].0, p) :: !Eligible(p)
    ensures trace2[|trace2| - 1].1.pc == Finished(false)
  {
    hide *;
    SoloRunParts(cfg, trace1, inputs1);
    var f0 := trace1[0].0;
    var (f1, c1) := trace1[|trace1| - 1];
    NoFrontierLeavesNothingOut(cfg, f0);
    RestsExactly(cfg, log, trace1, inputs1, true, compactor1, trace2, inputs2, consuming2, compactor2);
    SoloRunInv(cfg, log, trace1, inputs1, true, compactor1, |trace1| - 1);
    RestingRun(cfg, log, trace1, inputs1, true, compactor1, |trace1| - 1);
    EndOfFirst(cfg, f0, f1, log, c1);
    EndOfSolo(cfg, f0, f1, log, c1);
    EnumeratedPaths(cfg, f1, log, c1);
    SettledExactly(cfg, f0, f1, c1);
    SettledWithoutFrontier(cfg, f0, f1, c1);
  }

  lemma SettledWithoutFrontier(cfg: Config, f0: Files, f: Files, c: Cycle)
    requires Leftover(cfg, f0, f, c) && Honest(c) && c.pc == Finished(true) && c.consuming && Settled(cfg, f)
    ensures forall p | InSource(cfg, p) && IsRecord(f, p) :: !Eligible(p)
  {
    hide InSource, Eligible, SameRecord, Mark;
  }

  lemma NoFrontierLeavesNothingOut(cfg: Config, f: Files)
    ensures Mark(cfg, f) == None ==> NothingLeftOut(cfg, f)
  {
    hide InSource, Eligible, Mark;
  }
}
