/** The first cycle on an index with one source and one record in it, primitive by primitive, and the schedules
    built from it: a reader and a second compactor that come in between. */
module FirstCommit {
  import opened Text
  import opened Folding
  import opened Codec
  import opened Naming
  import opened Blobs
  import opened CompactCycle
  import opened Ledger
  import opened Compaction
  import opened Guarantees
  import opened Reading
  import opened Racing
  import L = Lease

  /** One source, and in it the record at `p`, which its listing names; nothing is committed. */
  predicate Waiting(cfg: Config, f: Files, p: string, r: Record) {
    && |cfg.sources| == 1 && Under(cfg.sources[0], p) && Eligible(p)
    && Current(cfg) !in f && p in f && f[p] == RecordBlob(r)
  }

  predicate Listed(p: string, x: Input) {
    x.listing == [p] && !x.fault
  }

  /** The cycle before its `k`-th primitive. */
  ghost function Stage(cfg: Config, consuming: bool, compactor: string, p: string, r: Record, k: nat): Cycle {
    var start := Fresh(consuming, compactor);
    if k == 0 then start
    else if k == 1 then start.(pc := MarkExists)
    else if k == 2 then start.(pc := ListSource)
    else if k == 3 then start.(source := 1, todo := [p], pc := ReadSource)
    else
      var read := start.(source := 1, paths := [p], recs := [r], pc := ReadSource);
      if k == 4 then read
      else if k == 5 then read.(pc := ListSource)
      else if k == 6 then read.(pc := BaseExists)
      else if k == 7 then read.(pc := WriteBody)
      else
        var written := read.(body := Encode(cfg.codec, Fold([r])), pc := HeadExists);
        if k == 8 then written
        else if k == 9 then written.(pc := Create)
        else if k == 10 then written.(won := true, pc := DeleteSource)
        else written.(won := true, pc := DeleteSource, next := 1, removed := [p])
  }

  lemma ReadsStage(cfg: Config, f: Files, consuming: bool, compactor: string, p: string, r: Record, k: nat, x: Input)
    requires Waiting(cfg, f, p, r) && Listed(p, x) && k < 9 && k != 7
    ensures Step(cfg, f, Stage(cfg, consuming, compactor, p, r, k), x) == (f, Stage(cfg, consuming, compactor, p, r, k + 1))
  {
    hide Encode, Fold, Current, Under, Eligible;
    if k == 3 {
      var paths: seq<string>, recs: seq<Record> := [], [];
      assert [p][1..] == paths && paths + [p] == [p] && recs + [r] == [r];
    }
  }

  lemma WritesStage(cfg: Config, f: Files, consuming: bool, compactor: string, p: string, r: Record, x: Input)
    ensures Step(cfg, f, Stage(cfg, consuming, compactor, p, r, 7), x) ==
              (f[Checkpoint(cfg, 1) := Bytes(Encode(cfg.codec, Fold([r])))], Stage(cfg, consuming, compactor, p, r, 8))
  {
    hide Encode, Fold, Checkpoint, Step;
    WriteStep(cfg, f, Stage(cfg, consuming, compactor, p, r, 7), x);
    assert [] + [r] == [r];
  }

  /** The commit record of the first generation. */
  ghost function FirstMeta(cfg: Config, consuming: bool, compactor: string, p: string, r: Record, now: int): Meta {
    NewMeta(Stage(cfg, consuming, compactor, p, r, 9), now)
  }

  lemma FirstMetaParts(cfg: Config, consuming: bool, compactor: string, p: string, r: Record, now: int)
    ensures
      var meta := FirstMeta(cfg, consuming, compactor, p, r, now);
      meta.generation == 1 && meta.checkpoint == CheckpointName(1) && meta.folded == if consuming then None else Some([p])
  {
    hide Encode, Fold, CheckpointName;
  }

  lemma CommitsStage(cfg: Config, f: Files, consuming: bool, compactor: string, p: string, r: Record, x: Input)
    requires Current(cfg) !in f
    ensures Step(cfg, f, Stage(cfg, consuming, compactor, p, r, 9), x) ==
              (f[Current(cfg) := MetaBlob(FirstMeta(cfg, consuming, compactor, p, r, x.now))], Stage(cfg, consuming,
                  compactor, p, r, 10))
  {
    hide Encode, Fold, Current, Step, NewMeta;
    CreateStep(cfg, f, Stage(cfg, consuming, compactor, p, r, 9), x);
  }

  lemma DeletesStage(cfg: Config, f: Files, compactor: string, p: string, r: Record, x: Input)
    requires !x.fault
    ensures Step(cfg, f, Stage(cfg, true, compactor, p, r, 10), x) == (f - {p}, Stage(cfg, true, compactor, p, r, 11))
  {
    hide Encode, Fold, Current;
    var removed: seq<string> := [];
    assert removed + [p] == [p];
  }

  /* ---- Two compactors without the lock ---- */

  /** What the cycle has written before its first commit. */
  ghost function Drafted(cfg: Config, f: Files, r: Record): Files {
    f[Checkpoint(cfg, 1) := Bytes(Encode(cfg.codec, Fold([r])))]
  }

  lemma {:induction false} ReachesCommit(cfg: Config, f: Files, compactor: string, p: string, r: Record, k: nat, xs: seq<Input>)
    requires k <= 7 && |xs| == 9 - k && Waiting(cfg, f, p, r) && Waiting(cfg, Drafted(cfg, f, r), p, r)
    requires forall x | x in xs :: Listed(p, x)
    ensures After(cfg, f, Stage(cfg, true, compactor, p, r, k), xs) == (Drafted(cfg, f, r), Stage(cfg, true, compactor, p, r, 9))
    decreases 9 - k
  {
    hide Waiting, Stage, Step, Listed, Drafted, After;
    AfterOne(cfg, f, Stage(cfg, true, compactor, p, r, k), xs);
    HeadListed(p, xs);
    if k < 7 {
      ReadsStage(cfg, f, true, compactor, p, r, k, xs[0]);
      ReachesCommit(cfg, f, compactor, p, r, k + 1, xs[1..]);
    } else {
      WritesStage(cfg, f, true, compactor, p, r, xs[0]);
      DraftedIs(cfg, f, r);
      var g := Drafted(cfg, f, r);
      HeadListed(p, xs[1..]);
      AfterOne(cfg, g, Stage(cfg, true, compactor, p, r, 8), xs[1..]);
      ReadsStage(cfg, g, true, compactor, p, r, 8, xs[1]);
      AfterNothing(cfg, g, Stage(cfg, true, compactor, p, r, 9), xs[1..][1..]);
    }
  }

  lemma DraftedIs(cfg: Config, f: Files, r: Record)
    ensures Drafted(cfg, f, r) == f[Checkpoint(cfg, 1) := Bytes(Encode(cfg.codec, Fold([r])))]
  {}

  lemma HeadListed(p: string, xs: seq<Input>)
    requires xs != [] && forall x | x in xs :: Listed(p, x)
    ensures Listed(p, xs[0]) && forall x | x in xs[1..] :: Listed(p, x)
  {}

  lemma AfterOne(cfg: Config, f: Files, c: Cycle, xs: seq<Input>)
    requires xs != []
    ensures
      var (g, d) := Step(cfg, f, c, xs[0]);
      After(cfg, f, c, xs) == After(cfg, g, d, xs[1..])
  {
    hide Step;
  }

  lemma AfterNothing(cfg: Config, f: Files, c: Cycle, xs: seq<Input>)
    requires xs == []
    ensures After(cfg, f, c, xs) == (f, c)
  {}

  /** Without the lock everything can be lost. Two compactors read the same record and reach their first commit;
      one commits and deletes the record's file, the other loses and removes the checkpoint. What is left, of
      a store that held one record, is a CURRENT that names nothing. */
  lemma UnlockedCompactorsLoseEverything(cfg: Config, p: string, r: Record, xs: seq<Input>, ys: seq<Input>, x: Input,
      d: Input, y: Input, z: Input)
    requires Separate(cfg) && Waiting(cfg, map[p := RecordBlob(r)], p, r)
    requires |xs| == |ys| == 9 && forall i | i in xs + ys + [d, z] :: Listed(p, i)
    ensures
      var f := map[p := RecordBlob(r)];
      var (f1, a) := After(cfg, f, Fresh(true, "a"), xs);
      var (f2, b) := After(cfg, f1, Fresh(true, "b"), ys);
      var (f3, a1) := Step(cfg, f2, a, x);
      var (f4, a2) := Step(cfg, f3, a1, d);
      var (f5, b1) := Step(cfg, f4, b, y);
      var (f6, b2) := Step(cfg, f5, b1, z);
      && a2.removed == [p] && b2.pc == Finished(false)
      && f6 == map[Current(cfg) := MetaBlob(FirstMeta(cfg, true, "a", p, r, x.now))] && DanglingCommit(cfg, f6)
  {
    hide *;
    var f := map[p := RecordBlob(r)];
    var g := Drafted(cfg, f, r);
    StartStage(cfg, "a", p, r);
    StartStage(cfg, "b", p, r);
    InputsListed(p, xs, ys, d, z);
    DraftWaits(cfg, f, p, r);
    DraftWaits(cfg, g, p, r);
    ReachesCommit(cfg, f, "a", p, r, 0, xs);
    DraftTwice(cfg, f, r);
    ReachesCommit(cfg, g, "b", p, r, 0, ys);
    WaitingHead(cfg, g, p, r);
    CommitsStage(cfg, g, true, "a", p, r, x);
    var committed := g[Current(cfg) := MetaBlob(FirstMeta(cfg, true, "a", p, r, x.now))];
    NoFault(p, d);
    DeletesStage(cfg, committed, "a", p, r, d);
    var left := committed - {p};
    SourceIsNotIndexFile(cfg, p, 1) by { WaitingInSource(cfg, f, p, r); }
    LastStages(cfg, "a", "b", p, r);
    CreateStep(cfg, left, Stage(cfg, true, "b", p, r, 9), y);
    var lost := Stage(cfg, true, "b", p, r, 9).(pc := Abandon);
    NoFault(p, z);
    AbandonStep(cfg, left, lost, z);
    CurrentIsNoCheckpoint(cfg, 1);
    DraftedIs(cfg, f, r);
    assert left - {Checkpoint(cfg, 1)} == map[Current(cfg) := MetaBlob(FirstMeta(cfg, true, "a", p, r, x.now))];
    FirstMetaParts(cfg, true, "a", p, r, x.now);
    Dangling(cfg, left - {Checkpoint(cfg, 1)}, FirstMeta(cfg, true, "a", p, r, x.now));
  }

  lemma StartStage(cfg: Config, compactor: string, p: string, r: Record)
    ensures Stage(cfg, true, compactor, p, r, 0) == Fresh(true, compactor)
  {}

  lemma InputsListed(p: string, xs: seq<Input>, ys: seq<Input>, d: Input, z: Input)
    requires forall i | i in xs + ys + [d, z] :: Listed(p, i)
    ensures (forall i | i in xs :: Listed(p, i)) && (forall i | i in ys :: Listed(p, i)) && Listed(p, d) && Listed(p, z)
  {
    hide Listed;
    assert d in [d, z] && z in [d, z];
  }

  lemma NoFault(p: string, x: Input)
    requires Listed(p, x)
    ensures !x.fault
  {}

  lemma DraftWaits(cfg: Config, f: Files, p: string, r: Record)
    requires Separate(cfg) && Waiting(cfg, f, p, r)
    ensures Waiting(cfg, Drafted(cfg, f, r), p, r)
  {
    hide Current, Checkpoint, Under, Eligible, Separate, Encode, Fold;
    WaitingInSource(cfg, f, p, r);
    SourceIsNotIndexFile(cfg, p, 1);
    CurrentIsNoCheckpoint(cfg, 1);
  }

  lemma WaitingInSource(cfg: Config, f: Files, p: string, r: Record)
    requires Waiting(cfg, f, p, r)
    ensures InSource(cfg, p)
  {
    hide Under;
    assert cfg.sources[0] in cfg.sources;
  }

  lemma DraftTwice(cfg: Config, f: Files, r: Record)
    ensures Drafted(cfg, Drafted(cfg, f, r), r) == Drafted(cfg, f, r)
  {
    hide Checkpoint, Encode, Fold;
  }

  lemma WaitingHead(cfg: Config, f: Files, p: string, r: Record)
    requires Waiting(cfg, f, p, r)
    ensures Current(cfg) !in f
  {}

  lemma LastStages(cfg: Config, a: string, b: string, p: string, r: Record)
    ensures Stage(cfg, true, a, p, r, 11).removed == [p]
    ensures
      var lost := Stage(cfg, true, b, p, r, 9);
      lost.pc.Create? && lost.generation == 0
  {
    hide Encode, Fold;
  }

  lemma Dangling(cfg: Config, f: Files, meta: Meta)
    requires f == map[Current(cfg) := MetaBlob(meta)] && meta.checkpoint == CheckpointName(1) &&
        Current(cfg) != Checkpoint(cfg, 1)
    ensures DanglingCommit(cfg, f)
  {
    hide Current, CheckpointName;
  }

  /* ---- A reader in between ---- */

  lemma Extend(cfg: Config, s: State, e: Event) returns (t: State)
    requires Reachable(cfg, s) && Enabled(cfg, s, e)
    ensures t == Apply(cfg, s, e) && Reachable(cfg, t)
  {
    hide Step, Init, L.Apply, L.Enabled, L.Careful, AppendOk, PlantOk, ListingOk;
    var states, events :| Run(cfg, states, events) && states[|states| - 1] == s;
    t := Apply(cfg, s, e);
    assert Run(cfg, states + [t], events + [e]);
  }

  const LOCK := L.Lease("c", 0, Some(0))

  /** The compactor holds a lock that has not run out. */
  function Locked(cfg: Config, f: Files, c: Cycle, p: string, r: Record): State {
    State(L.State(Some(LOCK), 0, map[0 := L.Owner(LOCK)]), f, map[0 := c], {(p, r)})
  }

  /** It has just taken it, on a store that holds nothing but the record. */
  lemma TakesLock(cfg: Config, consuming: bool, p: string, r: Record) returns (s: State)
    requires Waiting(cfg, map[p := RecordBlob(r)], p, r) && SourcePath(cfg, p) && RoundTrips(cfg.codec, r)
    ensures Reachable(cfg, s) && s == Locked(cfg, map[p := RecordBlob(r)], Fresh(consuming, "c"), p, r)
  {
    hide RoundTrips, SourcePath, Current, Under, Eligible, Reachable, Enabled, Apply;
    s := BeforeLock(cfg, p, r);
    LockEvents(cfg, s, consuming, p, r);
    s := Extend(cfg, s, Lock(L.Begin(0, "c", 0), consuming));
    s := Extend(cfg, s, Lock(L.Advance(0), consuming));
  }

  lemma BeforeLock(cfg: Config, p: string, r: Record) returns (s: State)
    requires Waiting(cfg, map[p := RecordBlob(r)], p, r) && SourcePath(cfg, p) && RoundTrips(cfg.codec, r)
    ensures Reachable(cfg, s) && s == State(L.State(None, 0, map[]), map[p := RecordBlob(r)], map[], {(p, r)})
  {
    hide RoundTrips, SourcePath, Current, Under, Eligible;
    s := State(L.State(None, 0, map[]), map[p := RecordBlob(r)], map[], {(p, r)});
    assert Init(cfg, s) by { SourcePathInSource(cfg, p); }
    assert Run(cfg, [s], []);
  }

  lemma LockEvents(cfg: Config, s: State, consuming: bool, p: string, r: Record)
    requires s == State(L.State(None, 0, map[]), map[p := RecordBlob(r)], map[], {(p, r)})
    ensures
      var begin, take := Lock(L.Begin(0, "c", 0), consuming), Lock(L.Advance(0), consuming);
      && Enabled(cfg, s, begin) && Enabled(cfg, Apply(cfg, s, begin), take)
      && Apply(cfg, Apply(cfg, s, begin), take) == Locked(cfg, map[p := RecordBlob(r)], Fresh(consuming, "c"), p, r)
  {}

  function Input0(p: string): Input {
    Input([p], false, 0)
  }

  /** A primitive of the compactor under its lock. */
  lemma LockedStep(cfg: Config, f: Files, c: Cycle, p: string, r: Record, g: Files, d: Cycle)
    requires |cfg.sources| == 1 && Under(cfg.sources[0], p) && !c.pc.Over() && !c.pc.ListIndex?
    requires Step(cfg, f, c, Input0(p)) == (g, d)
    ensures
      var s, e := Locked(cfg, f, c, p, r), Compaction.Body(0, Input0(p));
      Enabled(cfg, s, e) && Apply(cfg, s, e) == Locked(cfg, g, d, p, r)
  {
    hide Step, Under;
    assert c.source < |cfg.sources| ==> cfg.sources[c.source] == cfg.sources[0];
  }

  /** Up to its first commit. */
  lemma {:induction false} ReachesStage(cfg: Config, consuming: bool, p: string, r: Record, k: nat) returns (s: State)
    requires Separate(cfg) && Waiting(cfg, map[p := RecordBlob(r)], p, r) && SourcePath(cfg, p) && RoundTrips(cfg.codec, r)
    requires k <= 9
    ensures Reachable(cfg, s)
    ensures
      var f := map[p := RecordBlob(r)];
      s == Locked(cfg, if k < 8 then f else Drafted(cfg, f, r), Stage(cfg, consuming, "c", p, r, k), p, r)
  {
    hide Separate, Waiting, SourcePath, RoundTrips, Stage, Step, Reachable, Enabled, Apply, Locked, Drafted, Under, Input0;
    var f := map[p := RecordBlob(r)];
    if k == 0 {
      StageZero(cfg, consuming, p, r);
      s := TakesLock(cfg, consuming, p, r);
    } else {
      s := ReachesStage(cfg, consuming, p, r, k - 1);
      var x := Input0(p);
      ListedInput(p);
      OnlySource(cfg, f, p, r);
      StageGoesOn(cfg, consuming, p, r, k - 1);
      var g := if k - 1 < 8 then f else Drafted(cfg, f, r);
      DraftWaits(cfg, f, p, r);
      if k == 8 {
        WritesStage(cfg, f, consuming, "c", p, r, x);
        DraftedIs(cfg, f, r);
      } else {
        ReadsStage(cfg, g, consuming, "c", p, r, k - 1, x);
      }
      LockedStep(cfg, g, Stage(cfg, consuming, "c", p, r, k - 1), p, r, if k < 8 then f
          else Drafted(cfg, f, r), Stage(cfg, consuming, "c", p, r, k));
      s := Extend(cfg, s, Compaction.Body(0, x));
    }
  }

  lemma StageZero(cfg: Config, consuming: bool, p: string, r: Record)
    ensures Stage(cfg, consuming, "c", p, r, 0) == Fresh(consuming, "c")
  {}

  lemma ListedInput(p: string)
    ensures Listed(p, Input0(p)) && Input0(p).now == 0
  {}

  lemma OnlySource(cfg: Config, f: Files, p: string, r: Record)
    requires Waiting(cfg, f, p, r)
    ensures |cfg.sources| == 1 && Under(cfg.sources[0], p) && Eligible(p) && Current(cfg) !in f
  {}

  lemma StageGoesOn(cfg: Config, consuming: bool, p: string, r: Record, k: nat)
    requires k <= 10
    ensures !Stage(cfg, consuming, "c", p, r, k).pc.Over() && !Stage(cfg, consuming, "c", p, r, k).pc.ListIndex?
  {
    hide Encode, Fold;
  }

  lemma CallBegins(cfg: Config, s: State)
    requires Reachable(cfg, s)
    ensures Call(cfg, [(s, START)], [])
  {
    hide Reachable;
  }

  lemma CallGoesOn(cfg: Config, trace: seq<(State, Reader)>, moves: seq<Move>, m: Move, t: State, u: Reader)
    requires Call(cfg, trace, moves) && trace != [] && Moves(cfg, Final(trace), Answer(trace), m, t, u)
    ensures Call(cfg, trace + [(t, u)], moves + [m])
    ensures Final(trace + [(t, u)]) == t && Answer(trace + [(t, u)]) == u && (trace + [(t, u)])[0] == trace[0]
  {
    hide Reachable, Moves;
    var longer, more := trace + [(t, u)], moves + [m];
    forall i | 0 <= i < |more| ensures Moves(cfg, longer[i].0, longer[i].1, more[i], longer[i + 1].0, longer[i + 1].1) {
      if i < |moves| { assert Moves(cfg, trace[i].0, trace[i].1, moves[i], trace[i + 1].0, trace[i + 1].1); }
    }
  }

  /** The call's own primitives, as far as they are needed. */
  lemma ReaderSteps(cfg: Config, f: Files, rd: Reader, p: string)
    requires |cfg.sources| == 1 && rd.source == 0
    ensures InRange(cfg, rd)
    ensures rd.at.SeekHead? && Current(cfg) !in f ==> ReadStep(cfg, f, rd, None) == rd.(at := SeekMark)
    ensures rd.at.SeekMark? && Current(cfg) in f ==> ReadStep(cfg, f, rd, None) == rd.(at := ReadMark)
    ensures rd.at.ReadMark? && Current(cfg) in f && f[Current(cfg)].MetaBlob? ==>
              ReadStep(cfg, f, rd, None) == BeginWalk(cfg, f, rd, f[Current(cfg)].meta.folded)
    ensures rd.at.Walk? ==> ReadStep(cfg, f, rd, None) == rd.(source := 1, at := Done)
    ensures rd.at.Walk? && !PastWatermark(p, rd.mark) ==> ReadStep(cfg, f, rd, Some(p)) == rd.(seen := rd.seen + {p})
  {
    hide Current, Decode, PastWatermark, Ordinary;
  }

  /** The files of the source, once the record's own is the only one. */
  lemma OnlyIndexFiles(cfg: Config, p: string, r: Record, meta: Meta)
    requires Separate(cfg) && |cfg.sources| == 1
    ensures
      var f := Drafted(cfg, map[p := RecordBlob(r)], r)[Current(cfg) := MetaBlob(meta)];
      forall q | q in f && Under(cfg.sources[0], q) :: q == p
  {
    hide Under, Separate, Current, Checkpoint, Encode, Fold;
    NotIndexFiles(cfg, 1);
    assert cfg.sources[0] in cfg.sources;
    forall q | Under(cfg.sources[0], q) ensures q != Current(cfg) && q != Checkpoint(cfg, 1) {
      assert InSource(cfg, q);
    }
  }

  lemma OneMove(cfg: Config, s: State, rd: Reader, next: Option<string>)
    requires InRange(cfg, rd) && WalkOk(cfg, rd, next)
    ensures Moves(cfg, s, rd, Primitive(next), s, ReadStep(cfg, s.files, rd, next))
  {
    hide ReadStep, WalkOk;
  }

  lemma OthersMove(cfg: Config, s: State, rd: Reader, e: Event, t: State)
    requires Enabled(cfg, s, e) && t == Apply(cfg, s, e) && rd.steady == {}
    ensures Moves(cfg, s, rd, World(e), t, rd)
  {
    hide Enabled, Apply;
    assert rd.steady * t.files.Keys == {};
  }

  /** A call that found no CURRENT is about to look at the sources. */
  lemma BaseMissed(cfg: Config, consuming: bool, p: string, r: Record) returns (trace: seq<(State, Reader)>, moves: seq<Move>)
    requires Separate(cfg) && Waiting(cfg, map[p := RecordBlob(r)], p, r) && SourcePath(cfg, p) && RoundTrips(cfg.codec, r)
    ensures trace != [] && Call(cfg, trace, moves) && (p, r) in trace[0].0.log
    ensures Answer(trace) == START.(at := SeekMark)
    ensures Final(trace) == Locked(cfg, Drafted(cfg, map[p := RecordBlob(r)], r), Stage(cfg, consuming, "c", p, r, 9), p, r)
  {
    hide *;
    var f := map[p := RecordBlob(r)];
    var s := ReachesStage(cfg, consuming, p, r, 9);
    LockedParts(cfg, Drafted(cfg, f, r), Stage(cfg, consuming, "c", p, r, 9), p, r);
    DraftWaits(cfg, f, p, r);
    OnlySource(cfg, Drafted(cfg, f, r), p, r);
    CallBegins(cfg, s);
    StartParts(cfg, s);
    ReaderSteps(cfg, s.files, START, p);
    OneMove(cfg, s, START, None);
    CallGoesOn(cfg, [(s, START)], [], Primitive(None), s, START.(at := SeekMark));
    trace, moves := [(s, START)] + [(s, START.(at := SeekMark))], [] + [Primitive(None)];
  }

  lemma StartParts(cfg: Config, s: State)
    ensures START.at.SeekHead? && START.source == 0 && START.steady == {} && START.seen == {} &&
        START.base == [] && START.found == []
    ensures WalkOk(cfg, START, None)
    ensures Final([(s, START)]) == s && Answer([(s, START)]) == START
  {}

  lemma LockedParts(cfg: Config, f: Files, c: Cycle, p: string, r: Record)
    ensures Locked(cfg, f, c, p, r).files == f && (p, r) in Locked(cfg, f, c, p, r).log
  {}

  /** The compactor commits while the call is under way. */
  lemma CommitsMeanwhile(cfg: Config, consuming: bool, p: string, r: Record, trace0: seq<(State, Reader)>, moves0: seq<Move>)
    returns (trace: seq<(State, Reader)>, moves: seq<Move>)
    requires Separate(cfg) && Waiting(cfg, map[p := RecordBlob(r)], p, r) && trace0 != [] && Call(cfg, trace0, moves0)
    requires Answer(trace0) == START.(at := SeekMark)
    requires Final(trace0) == Locked(cfg, Drafted(cfg, map[p := RecordBlob(r)], r), Stage(cfg, consuming, "c", p, r, 9), p, r)
    ensures trace != [] && Call(cfg, trace, moves) && trace[0] == trace0[0] && Answer(trace) == START.(at := SeekMark)
    ensures
      var f := Drafted(cfg, map[p := RecordBlob(r)], r);
      Final(trace) == Locked(cfg, f[Current(cfg) := MetaBlob(FirstMeta(cfg, consuming, "c", p, r, 0))], Stage(cfg,
          consuming, "c", p, r, 10), p, r)
  {
    hide *;
    var f := map[p := RecordBlob(r)];
    var g := Drafted(cfg, f, r);
    DraftWaits(cfg, f, p, r);
    OnlySource(cfg, g, p, r);
    ListedInput(p);
    StageGoesOn(cfg, consuming, p, r, 9);
    CommitsStage(cfg, g, consuming, "c", p, r, Input0(p));
    var h := g[Current(cfg) := MetaBlob(FirstMeta(cfg, consuming, "c", p, r, 0))];
    var c, d := Stage(cfg, consuming, "c", p, r, 9), Stage(cfg, consuming, "c", p, r, 10);
    LockedStep(cfg, g, c, p, r, h, d);
    StartParts(cfg, Final(trace0));
    OthersMove(cfg, Locked(cfg, g, c, p, r), START.(at := SeekMark), Compaction.Body(0, Input0(p)), Locked(cfg, h, d, p, r));
    CallGoesOn(cfg, trace0, moves0, World(Compaction.Body(0, Input0(p))), Locked(cfg, h, d, p, r), START.(at := SeekMark));
    trace := trace0 + [(Locked(cfg, h, d, p, r), START.(at := SeekMark))];
    moves := moves0 + [World(Compaction.Body(0, Input0(p)))];
  }

  /** The call reads the watermark of its one source and starts to walk it. */
  lemma ReadsMark(cfg: Config, p: string, trace0: seq<(State, Reader)>, moves0: seq<Move>, mark: Option<seq<string>>)
    returns (trace: seq<(State, Reader)>, moves: seq<Move>)
    requires |cfg.sources| == 1 && trace0 != [] && Call(cfg, trace0, moves0)
    requires Answer(trace0).at.SeekMark? && Answer(trace0).source == 0
    requires
      var f := Final(trace0).files;
      Current(cfg) in f && f[Current(cfg)].MetaBlob? && f[Current(cfg)].meta.folded == mark
    ensures trace != [] && Call(cfg, trace, moves) && trace[0] == trace0[0] && Final(trace) == Final(trace0)
    ensures Answer(trace) == BeginWalk(cfg, Final(trace0).files, Answer(trace0).(at := ReadMark), mark)
  {
    hide *;
    var s := Final(trace0);
    var seek, read := Answer(trace0), Answer(trace0).(at := ReadMark);
    NoWalkYet(cfg, seek);
    NoWalkYet(cfg, read);
    ReaderSteps(cfg, s.files, seek, p);
    OneMove(cfg, s, seek, None);
    CallGoesOn(cfg, trace0, moves0, Primitive(None), s, read);
    trace, moves := trace0 + [(s, read)], moves0 + [Primitive(None)];
    ReaderSteps(cfg, s.files, read, p);
    OneMove(cfg, s, read, None);
    var walk := BeginWalk(cfg, s.files, read, mark);
    CallGoesOn(cfg, trace, moves, Primitive(None), s, walk);
    trace, moves := trace + [(s, walk)], moves + [Primitive(None)];
  }

  lemma NoWalkYet(cfg: Config, rd: Reader)
    requires !rd.at.Walk?
    ensures WalkOk(cfg, rd, None)
  {
    hide Under;
  }

  /** The walk ends with nothing found. */
  lemma EndsEmpty(cfg: Config, p: string, trace0: seq<(State, Reader)>,
      moves0: seq<Move>) returns (trace: seq<(State, Reader)>, moves: seq<Move>)
    requires |cfg.sources| == 1 && trace0 != [] && Call(cfg, trace0, moves0)
    requires
      var rd := Answer(trace0);
      rd.at.Walk? && rd.source == 0 && rd.base == [] && rd.found == [] && rd.steady <= rd.seen
    ensures trace != [] && Call(cfg, trace, moves) && trace[0] == trace0[0] && Final(trace) == Final(trace0)
    ensures Answer(trace).at.Done? && Returned(Answer(trace)) == []
  {
    hide *;
    var s, rd := Final(trace0), Answer(trace0);
    ReaderSteps(cfg, s.files, rd, p);
    WalkMayEnd(cfg, rd);
    OneMove(cfg, s, rd, None);
    var done := rd.(source := 1, at := Done);
    CallGoesOn(cfg, trace0, moves0, Primitive(None), s, done);
    trace, moves := trace0 + [(s, done)], moves0 + [Primitive(None)];
    ReturnedParts(done);
  }

  lemma WalkMayEnd(cfg: Config, rd: Reader)
    requires rd.steady <= rd.seen
    ensures WalkOk(cfg, rd, None)
  {
    hide Under;
  }

  lemma WalkParts(cfg: Config, f: Files, rd: Reader, mark: Option<seq<string>>)
    requires |cfg.sources| == 1 && rd.source == 0
    ensures
      var walk := BeginWalk(cfg, f, rd, mark);
      && walk.at.Walk? && walk.source == 0 && walk.base == rd.base && walk.found == rd.found && walk.seen == {} &&
          walk.mark == mark
      && forall q :: q in walk.steady <==> q in f && Under(cfg.sources[0], q)
  {
    hide Under;
  }

  /** A call can miss a record altogether, in consuming mode: it finds no CURRENT, a cycle then commits the
      record and deletes its file, and the sources are read last. */
  lemma ConsumedRecordIsMissed(cfg: Config, p: string, r: Record) returns (trace: seq<(State, Reader)>, moves: seq<Move>)
    requires Separate(cfg) && Waiting(cfg, map[p := RecordBlob(r)], p, r) && SourcePath(cfg, p) && RoundTrips(cfg.codec, r)
    ensures trace != [] && Call(cfg, trace, moves) && (p, r) in trace[0].0.log
    ensures Answer(trace).at.Done? && Returned(Answer(trace)) == []
  {
    hide *;
    var f := map[p := RecordBlob(r)];
    trace, moves := BaseMissed(cfg, true, p, r);
    trace, moves := CommitsMeanwhile(cfg, true, p, r, trace, moves);
    var meta := FirstMeta(cfg, true, "c", p, r, 0);
    var h := Drafted(cfg, f, r)[Current(cfg) := MetaBlob(meta)];
    var left := h - {p};
    var c, d := Stage(cfg, true, "c", p, r, 10), Stage(cfg, true, "c", p, r, 11);
    ListedInput(p);
    NoFault(p, Input0(p));
    StageGoesOn(cfg, true, p, r, 10);
    OnlySource(cfg, f, p, r);
    DeletesStage(cfg, h, "c", p, r, Input0(p));
    LockedStep(cfg, h, c, p, r, left, d);
    var s := Locked(cfg, left, d, p, r);
    StartParts(cfg, s);
    OthersMove(cfg, Locked(cfg, h, c, p, r), START.(at := SeekMark), Compaction.Body(0, Input0(p)), s);
    CallGoesOn(cfg, trace, moves, World(Compaction.Body(0, Input0(p))), s, START.(at := SeekMark));
    trace, moves := trace + [(s, START.(at := SeekMark))], moves + [World(Compaction.Body(0, Input0(p)))];
    LockedParts(cfg, left, d, p, r);
    SourceIsNotIndexFile(cfg, p, 1) by { WaitingInSource(cfg, f, p, r); }
    FirstMetaParts(cfg, true, "c", p, r, 0);
    trace, moves := ReadsMark(cfg, p, trace, moves, None);
    WalkParts(cfg, left, START.(at := ReadMark), None);
    OnlyIndexFiles(cfg, p, r, meta);
    trace, moves := EndsEmpty(cfg, p, trace, moves);
  }

  /** And in retained mode, with the file still there: the watermark read after the base already covers it. */
  lemma RetainedRecordIsMissed(cfg: Config, p: string, r: Record) returns (trace: seq<(State, Reader)>, moves: seq<Move>)
    requires Separate(cfg) && Waiting(cfg, map[p := RecordBlob(r)], p, r) && SourcePath(cfg, p) && RoundTrips(cfg.codec, r)
    ensures trace != [] && Call(cfg, trace, moves) && (p, r) in trace[0].0.log
    ensures Answer(trace).at.Done? && Returned(Answer(trace)) == [] && p in Final(trace).files
  {
    hide *;
    var f := map[p := RecordBlob(r)];
    trace, moves := BaseMissed(cfg, false, p, r);
    trace, moves := CommitsMeanwhile(cfg, false, p, r, trace, moves);
    var meta := FirstMeta(cfg, false, "c", p, r, 0);
    var h := Drafted(cfg, f, r)[Current(cfg) := MetaBlob(meta)];
    LockedParts(cfg, h, Stage(cfg, false, "c", p, r, 10), p, r);
    OnlySource(cfg, f, p, r);
    FirstMetaParts(cfg, false, "c", p, r, 0);
    StartParts(cfg, Final(trace));
    trace, moves := ReadsMark(cfg, p, trace, moves, Some([p]));
    WalkParts(cfg, h, START.(at := ReadMark), Some([p]));
    OnlyIndexFiles(cfg, p, r, meta);
    var s, walk := Final(trace), Answer(trace);
    Covers(p);
    ReaderSteps(cfg, s.files, walk, p);
    Yielded(cfg, walk, p);
    OneMove(cfg, s, walk, Some(p));
    var seen := walk.(seen := walk.seen + {p});
    CallGoesOn(cfg, trace, moves, Primitive(Some(p)), s, seen);
    trace, moves := trace + [(s, seen)], moves + [Primitive(Some(p))];
    trace, moves := EndsEmpty(cfg, p, trace, moves);
    StillThere(cfg, f, p, r, meta);
  }

  lemma Covers(p: string)
    ensures !PastWatermark(p, Some([p]))
  {
    assert p in [p];
  }

  lemma Yielded(cfg: Config, rd: Reader, p: string)
    requires |cfg.sources| == 1 && rd.source == 0 && Under(cfg.sources[0], p)
    ensures WalkOk(cfg, rd, Some(p))
  {
    hide Under;
  }

  lemma StillThere(cfg: Config, f: Files, p: string, r: Record, meta: Meta)
    requires p in f
    ensures p in Drafted(cfg, f, r)[Current(cfg) := MetaBlob(meta)]
  {
    hide Current, Checkpoint, Encode, Fold;
  }

  /** There is such an index: what the schedules above ask for can be had. */
  lemma Sample() returns (cfg: Config, p: string, r: Record)
    ensures Separate(cfg) && Waiting(cfg, map[p := RecordBlob(r)], p, r) && SourcePath(cfg, p) && RoundTrips(cfg.codec, r)
  {
    hide Basename;
    p, r := "s/a", Record("a", "a", "", "");
    cfg := Config("i", ["s"], Codec(_ => "x", _ => Some(r)), true);
    BasenameOfJoin("s", "a");
    assert "s" + "/" + "a" == p;
    assert Under("s", p);
    assert cfg.codec.ser(r) == "x" && "x"[0] == 'x' && CleanLine("x");
    assert Current(cfg)[0] == 'i';
    assert ("i" + "/")[0] == 'i' && ("s" + "/")[0] == 's';
  }
}
