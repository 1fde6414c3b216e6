/** A reader that is overtaken: it has looked at CURRENT, and before it opens the checkpoint named there, the next
    cycle commits and collects that checkpoint. The call then returns nothing of an index that had a whole
    generation all along. */
module Overtaken {
  import opened Text
  import opened Folding
  import opened Codec
  import opened Naming
  import opened Blobs
  import opened CompactCycle
  import opened Ledger
  import opened Compaction
  import opened Guarantees
  import opened Reading
  import opened FirstCommit
  import Racing
  import L = Lease

  /* ---- The second cycle, after a crash right behind the first commit ---- */

  /** The first generation is committed and its one source is still there. */
  ghost predicate Once(cfg: Config, f: Files, p: string, r: Record) {
    && |cfg.sources| == 1 && Under(cfg.sources[0], p) && Eligible(p) && p in f && f[p] == RecordBlob(r)
    && Current(cfg) in f && f[Current(cfg)].MetaBlob?
    && f[Current(cfg)].meta.generation == 1 && f[Current(cfg)].meta.checkpoint == CheckpointName(1) &&
        f[Current(cfg)].meta.folded == None
    && Checkpoint(cfg, 1) in f && f[Checkpoint(cfg, 1)].Bytes?
    && Decode(cfg.codec, f[Checkpoint(cfg, 1)].bytes) == Some(Fold([r]))
  }

  /** The cycle before its `k`-th primitive, up to the checkpoint write. */
  ghost function Second(p: string, r: Record, k: nat): Cycle {
    var start := Fresh(true, "d");
    if k == 0 then start
    else if k == 1 then start.(pc := MetaRead)
    else if k == 2 then start.(generation := 1, pc := MarkExists)
    else if k == 3 then start.(generation := 1, pc := MarkRead)
    else if k == 4 then start.(generation := 1, pc := ListSource)
    else if k == 5 then start.(generation := 1, source := 1, todo := [p], pc := ReadSource)
    else
      var read := start.(generation := 1, source := 1, paths := [p], recs := [r], pc := ReadSource);
      if k == 6 then read
      else if k == 7 then read.(pc := ListSource)
      else if k == 8 then read.(pc := BaseExists)
      else if k == 9 then read.(pc := BaseRead)
      else if k == 10 then read.(name := CheckpointName(1), pc := BodyExists)
      else if k == 11 then read.(name := CheckpointName(1), pc := BodyRead)
      else read.(name := CheckpointName(1), base := Fold([r]), pc := WriteBody)
  }

  lemma SecondReads(cfg: Config, f: Files, p: string, r: Record, k: nat, x: Input)
    requires Once(cfg, f, p, r) && Listed(p, x) && k < 12
    ensures Step(cfg, f, Second(p, r, k), x) == (f, Second(p, r, k + 1))
  {
    hide Encode, Decode, Fold, Current, Under, Eligible, CheckpointName;
    if k == 5 {
      var paths: seq<string>, recs: seq<Record> := [], [];
      assert [p][1..] == paths && paths + [p] == [p] && recs + [r] == [r];
    }
  }

  /* ---- From the checkpoint write to the collection ---- */

  ghost function Body2(cfg: Config, r: Record): string {
    Encode(cfg.codec, Fold(Fold([r]) + [r]))
  }

  ghost function Wrote(cfg: Config, p: string, r: Record, k: nat): Cycle {
    var written := Second(p, r, 12).(body := Body2(cfg, r), pc := HeadExists);
    if k == 13 then written else written.(pc := TagExists)
  }

  /** Before the swap: the second checkpoint is written, the tag of the first commit record taken. */
  ghost function Tagged(cfg: Config, f: Files, p: string, r: Record): Cycle {
    Wrote(cfg, p, r, 14).(pc := Swap, tag := if Current(cfg) in f then Some(f[Current(cfg)]) else None)
  }

  /** After it, before the first delete. */
  ghost function Swung(cfg: Config, f: Files, p: string, r: Record): Cycle {
    Tagged(cfg, f, p, r).(won := true, pc := DeleteSource)
  }

  ghost function Meta2(cfg: Config, f: Files, p: string, r: Record): Meta {
    NewMeta(Tagged(cfg, f, p, r), 1)
  }

  /** The listing the collection works through. */
  function Index(cfg: Config): (listing: seq<string>)
    ensures |listing| == 3
  {
    [Current(cfg), Checkpoint(cfg, 1), Checkpoint(cfg, 2)]
  }

  ghost function Collecting(cfg: Config, f: Files, p: string, r: Record, todo: seq<string>): Cycle {
    Swung(cfg, f, p, r).(next := 1, removed := [p], todo := todo, pc := Collect)
  }

  lemma SecondWrites(cfg: Config, f: Files, p: string, r: Record, x: Input)
    ensures Step(cfg, f, Second(p, r, 12), x) == (f[Checkpoint(cfg, 2) := Bytes(Body2(cfg, r))], Wrote(cfg, p, r, 13))
  {
    hide Encode, Fold, Checkpoint, Step;
    WriteStep(cfg, f, Second(p, r, 12), x);
  }

  lemma SecondTags(cfg: Config, f: Files, p: string, r: Record, x: Input)
    requires Current(cfg) in f
    ensures Step(cfg, f, Wrote(cfg, p, r, 13), x) == (f, Wrote(cfg, p, r, 14))
    ensures Step(cfg, f, Wrote(cfg, p, r, 14), x) == (f, Wrote(cfg, p, r, 14).(pc := TagRead))
    ensures Step(cfg, f, Wrote(cfg, p, r, 14).(pc := TagRead), x) == (f, Tagged(cfg, f, p, r))
    ensures x.now == 1 ==>
              Step(cfg, f, Tagged(cfg, f, p, r), x) == (f[Current(cfg) := MetaBlob(Meta2(cfg, f, p, r))], Swung(cfg, f, p, r))
  {
    hide Encode, Fold, Current, Step, NewMeta, CheckpointName;
    var c := Wrote(cfg, p, r, 14);
    TagSteps(cfg, f, Wrote(cfg, p, r, 13), x);
    TagSteps(cfg, f, c, x);
    TagSteps(cfg, f, c.(pc := TagRead), x);
    TagSteps(cfg, f, Tagged(cfg, f, p, r), x);
  }

  lemma Meta2Parts(cfg: Config, f: Files, p: string, r: Record)
    ensures Meta2(cfg, f, p, r).folded == None
  {
    hide Encode, Fold, CheckpointName;
  }

  lemma SecondDeletes(cfg: Config, f0: Files, f: Files, p: string, r: Record, x: Input, y: Input)
    requires !x.fault && y.listing == Index(cfg)
    ensures
      var gone := Swung(cfg, f0, p, r).(next := 1, removed := [p]);
      && Step(cfg, f, Swung(cfg, f0, p, r), x) == (f - {p}, gone)
      && Step(cfg, f - {p}, gone, x) == (f - {p}, gone.(pc := ListIndex))
      && Step(cfg, f - {p}, gone.(pc := ListIndex), y) == (f - {p}, Collecting(cfg, f0, p, r, Index(cfg)))
  {
    hide Encode, Fold, Current, CheckpointName;
    var removed: seq<string> := [];
    assert removed + [p] == [p];
  }

  lemma SecondCollects(cfg: Config, f0: Files, f: Files, p: string, r: Record, x: Input)
    requires !x.fault
    ensures Step(cfg, f, Collecting(cfg, f0, p, r, Index(cfg)), x) == (f, Collecting(cfg, f0, p, r, Index(cfg)[1..]))
    ensures Step(cfg, f, Collecting(cfg, f0, p, r, Index(cfg)[1..]), x) ==
              (f - {Checkpoint(cfg, 1)}, Collecting(cfg, f0, p, r, Index(cfg)[1..][1..]))
  {
    hide Encode, Fold, CheckpointName, Garbage;
    IndexGarbage(cfg);
  }

  lemma IndexGarbage(cfg: Config)
    ensures !Garbage(Current(cfg), CheckpointName(2)) && Garbage(Checkpoint(cfg, 1), CheckpointName(2))
  {
    hide CheckpointName;
    IndexPathsOf(cfg, 1, 2);
    CheckpointNameShape(1);
    if CheckpointName(1) == CheckpointName(2) { CheckpointNamesDistinct(1, 2); }
  }

  /* ---- The schedule ---- */

  const LOCK2 := L.Lease("d", 1, Some(1))

  /** The second compactor holds the lock. */
  function Relocked(f: Files, c: Cycle, p: string, r: Record): State {
    State(L.State(Some(LOCK2), 1, map[1 := L.Owner(LOCK2)]), f, map[1 := c], {(p, r)})
  }

  /** It is about to take it over from the first, which has crashed. */
  function Reclaiming(f: Files, phase: L.Phase, p: string, r: Record): State {
    State(L.State(Some(LOCK), 1, map[1 := phase]), f, map[], {(p, r)})
  }

  lemma CrashAndWait(cfg: Config, f: Files, c: Cycle, p: string, r: Record) returns (s: State)
    requires Reachable(cfg, Locked(cfg, f, c, p, r))
    ensures Reachable(cfg, s) && s == Reclaiming(f, L.Trying(LOCK2), p, r)
  {
    hide Reachable, Enabled, Apply;
    CrashEvents(cfg, f, c, p, r);
    s := Extend(cfg, Locked(cfg, f, c, p, r), Compaction.Crash(0));
    s := Extend(cfg, s, Lock(L.Tick(1), true));
    s := Extend(cfg, s, Lock(L.Begin(1, "d", 0), true));
  }

  lemma CrashEvents(cfg: Config, f: Files, c: Cycle, p: string, r: Record)
    ensures
      var s := Locked(cfg, f, c, p, r);
      && Enabled(cfg, s, Compaction.Crash(0))
      && var t := Apply(cfg, s, Compaction.Crash(0));
         && t == State(L.State(Some(LOCK), 0, map[]), f, map[], {(p, r)})
         && Enabled(cfg, t, Lock(L.Tick(1), true))
         && var u := Apply(cfg, t, Lock(L.Tick(1), true));
            && u == State(L.State(Some(LOCK), 1, map[]), f, map[], {(p, r)})
            && Enabled(cfg, u, Lock(L.Begin(1, "d", 0), true))
            && Apply(cfg, u, Lock(L.Begin(1, "d", 0), true)) == Reclaiming(f, L.Trying(LOCK2), p, r)
  {}

  lemma LooksOn(cfg: Config, f: Files, a: L.Phase, b: L.Phase, p: string, r: Record)
    requires !a.Holds() && !b.Owner? && L.Primitive(cfg.reread, L.State(Some(LOCK), 1, map[1 := a]),
        1) == L.State(Some(LOCK), 1, map[1 := b])
    ensures
      var s, e := Reclaiming(f, a, p, r), Lock(L.Advance(1), true);
      Enabled(cfg, s, e) && Apply(cfg, s, e) == Reclaiming(f, b, p, r)
  {
    hide L.Primitive;
  }

  lemma Phases(cfg: Config)
    ensures
      var step := (a: L.Phase) => L.Primitive(cfg.reread, L.State(Some(LOCK), 1, map[1 := a]), 1);
      var at := (b: L.Phase) => L.State(Some(LOCK), 1, map[1 := b]);
      && step(L.Trying(LOCK2)) == at(L.Blocked(LOCK2)) && step(L.Blocked(LOCK2)) == at(L.Present(LOCK2))
      && step(L.Present(LOCK2)) == at(L.Seen(LOCK2, LOCK)) && step(L.Seen(LOCK2, LOCK)) == at(L.Dead(LOCK2, LOCK))
      && step(L.Dead(LOCK2, LOCK)) == at(L.Tagged(LOCK2, LOCK))
      && step(L.Tagged(LOCK2, LOCK)) == L.State(Some(LOCK2), 1, map[1 := L.Owner(LOCK2)])
  {}

  lemma TakesOver(cfg: Config, f: Files, p: string, r: Record) returns (s: State)
    requires Reachable(cfg, Reclaiming(f, L.Trying(LOCK2), p, r))
    ensures Reachable(cfg, s) && s == Relocked(f, Second(p, r, 0), p, r)
  {
    hide Reachable, Enabled, Apply, L.Primitive, Reclaiming;
    Phases(cfg);
    var e := Lock(L.Advance(1), true);
    LooksOn(cfg, f, L.Trying(LOCK2), L.Blocked(LOCK2), p, r);
    s := Extend(cfg, Reclaiming(f, L.Trying(LOCK2), p, r), e);
    LooksOn(cfg, f, L.Blocked(LOCK2), L.Present(LOCK2), p, r);
    s := Extend(cfg, s, e);
    LooksOn(cfg, f, L.Present(LOCK2), L.Seen(LOCK2, LOCK), p, r);
    s := Extend(cfg, s, e);
    LooksOn(cfg, f, L.Seen(LOCK2, LOCK), L.Dead(LOCK2, LOCK), p, r);
    s := Extend(cfg, s, e);
    LooksOn(cfg, f, L.Dead(LOCK2, LOCK), L.Tagged(LOCK2, LOCK), p, r);
    s := Extend(cfg, s, e);
    Owns(cfg, f, p, r);
    s := Extend(cfg, s, e);
  }

  lemma Owns(cfg: Config, f: Files, p: string, r: Record)
    ensures
      var s, e := Reclaiming(f, L.Tagged(LOCK2, LOCK), p, r), Lock(L.Advance(1), true);
      Enabled(cfg, s, e) && Apply(cfg, s, e) == Relocked(f, Second(p, r, 0), p, r)
  {}

  /** What the second compactor's primitives are told. */
  function Told(listing: seq<string>): Input {
    Input(listing, false, 1)
  }

  lemma RelockedStep(cfg: Config, f: Files, c: Cycle, x: Input, p: string, r: Record, g: Files, d: Cycle)
    requires !c.pc.Over() && ListingOk(cfg, c, x) && x.now == 1 && Step(cfg, f, c, x) == (g, d)
    ensures
      var s, e := Relocked(f, c, p, r), Compaction.Body(1, x);
      Enabled(cfg, s, e) && Apply(cfg, s, e) == Relocked(g, d, p, r)
  {
    hide Step, ListingOk;
  }

  lemma SourceListing(cfg: Config, c: Cycle, p: string)
    requires |cfg.sources| == 1 && Under(cfg.sources[0], p) && !c.pc.ListIndex?
    ensures ListingOk(cfg, c, Told([p])) && Listed(p, Told([p])) && Told([p]).now == 1
  {
    hide Under;
    assert c.source < |cfg.sources| ==> cfg.sources[c.source] == cfg.sources[0];
  }

  lemma IndexListing(cfg: Config, c: Cycle)
    requires c.pc.ListIndex?
    ensures ListingOk(cfg, c, Told(Index(cfg)))
  {
    hide CheckpointName;
    assert Under(cfg.root, Current(cfg)) by { assert (cfg.root + "/") + "CURRENT" == Current(cfg); }
    assert Under(cfg.root, Checkpoint(cfg, 1)) by { assert (cfg.root + "/") + CheckpointName(1) == Checkpoint(cfg, 1); }
    assert Under(cfg.root, Checkpoint(cfg, 2)) by { assert (cfg.root + "/") + CheckpointName(2) == Checkpoint(cfg, 2); }
  }

  lemma {:induction false} ReachesSecond(cfg: Config, f: Files, p: string, r: Record, k: nat) returns (s: State)
    requires Reachable(cfg, Relocked(f, Second(p, r, 0), p, r)) && Once(cfg, f, p, r) && k <= 12
    ensures Reachable(cfg, s) && s == Relocked(f, Second(p, r, k), p, r)
  {
    hide Reachable, Enabled, Apply, Step, Once, Second, Relocked, ListingOk, Under, Told, Listed;
    if k == 0 {
      s := Relocked(f, Second(p, r, 0), p, r);
    } else {
      s := ReachesSecond(cfg, f, p, r, k - 1);
      OnceParts(cfg, f, p, r);
      SecondGoesOn(p, r, k - 1);
      SourceListing(cfg, Second(p, r, k - 1), p);
      SecondReads(cfg, f, p, r, k - 1, Told([p]));
      RelockedStep(cfg, f, Second(p, r, k - 1), Told([p]), p, r, f, Second(p, r, k));
      s := Extend(cfg, s, Compaction.Body(1, Told([p])));
    }
  }

  lemma OnceParts(cfg: Config, f: Files, p: string, r: Record)
    requires Once(cfg, f, p, r)
    ensures |cfg.sources| == 1 && Under(cfg.sources[0], p) && Current(cfg) in f && f[Current(cfg)].MetaBlob?
    ensures f[Current(cfg)].meta.checkpoint == CheckpointName(1)
  {
    hide Decode, Fold, Eligible, Under;
  }

  lemma SecondGoesOn(p: string, r: Record, k: nat)
    ensures !Second(p, r, k).pc.Over() && !Second(p, r, k).pc.ListIndex?
  {
    hide Fold;
  }

  /** The store after the first commit, and with the second checkpoint in it. */
  ghost function Committed(cfg: Config, p: string, r: Record): Files {
    Drafted(cfg, map[p := RecordBlob(r)], r)[Current(cfg) := MetaBlob(FirstMeta(cfg, true, "c", p, r, 0))]
  }

  ghost function Redrafted(cfg: Config, p: string, r: Record): Files {
    Committed(cfg, p, r)[Checkpoint(cfg, 2) := Bytes(Body2(cfg, r))]
  }

  lemma CommittedOnce(cfg: Config, p: string, r: Record)
    requires Separate(cfg) && Waiting(cfg, map[p := RecordBlob(r)], p, r) && RoundTrips(cfg.codec, r)
    ensures Once(cfg, Committed(cfg, p, r), p, r) && Once(cfg, Redrafted(cfg, p, r), p, r)
  {
    hide *;
    var f, meta := map[p := RecordBlob(r)], FirstMeta(cfg, true, "c", p, r, 0);
    WaitingInSource(cfg, f, p, r);
    SourceIsNotIndexFile(cfg, p, 1);
    SourceIsNotIndexFile(cfg, p, 2);
    IndexPathsOf(cfg, 1, 2);
    IndexPathsOf(cfg, 2, 1);
    FirstMetaParts(cfg, true, "c", p, r, 0);
    OnlySource(cfg, f, p, r);
    CommittedIs(cfg, p, r);
    DraftedIs(cfg, f, r);
    OnceFrom(cfg, Committed(cfg, p, r), p, r, meta);
    OnceFrom(cfg, Redrafted(cfg, p, r), p, r, meta);
  }

  lemma OnceFrom(cfg: Config, f: Files, p: string, r: Record, meta: Meta)
    requires |cfg.sources| == 1 && Under(cfg.sources[0], p) && Eligible(p) && p in f && f[p] == RecordBlob(r)
    requires Current(cfg) in f && f[Current(cfg)] == MetaBlob(meta)
    requires meta.generation == 1 && meta.checkpoint == CheckpointName(1) && meta.folded == None
    requires Checkpoint(cfg, 1) in f && f[Checkpoint(cfg, 1)] == Bytes(Encode(cfg.codec, Fold([r]))) && RoundTrips(cfg.codec, r)
    ensures Once(cfg, f, p, r)
  {
    hide Encode, Decode, Fold, Current, Checkpoint, CheckpointName, Under, Eligible, RoundTrips;
    Racing.FoldRoundTrips(cfg, [r]);
    DecodeEncode(cfg.codec, Fold([r]));
  }

  /** Up to the second commit. */
  lemma ReachesSwap(cfg: Config, p: string, r: Record) returns (s: State)
    requires Separate(cfg) && Waiting(cfg, map[p := RecordBlob(r)], p, r) && SourcePath(cfg, p) && RoundTrips(cfg.codec, r)
    ensures Reachable(cfg, s) && s == Relocked(Redrafted(cfg, p, r), Tagged(cfg, Redrafted(cfg, p, r), p, r), p, r)
  {
    hide *;
    var f := Committed(cfg, p, r);
    s := ReachesFirst(cfg, p, r);
    s := CrashAndWait(cfg, f, Stage(cfg, true, "c", p, r, 10), p, r);
    s := TakesOver(cfg, f, p, r);
    CommittedOnce(cfg, p, r);
    s := ReachesSecond(cfg, f, p, r, 12);
    OnceParts(cfg, f, p, r);
    s := WritesAndTags(cfg, p, r);
  }

  lemma ReachesFirst(cfg: Config, p: string, r: Record) returns (s: State)
    requires Separate(cfg) && Waiting(cfg, map[p := RecordBlob(r)], p, r) && SourcePath(cfg, p) && RoundTrips(cfg.codec, r)
    ensures Reachable(cfg, s) && s == Locked(cfg, Committed(cfg, p, r), Stage(cfg, true, "c", p, r, 10), p, r)
  {
    hide *;
    hide Committed;
    var f := map[p := RecordBlob(r)];
    var g := Drafted(cfg, f, r);
    s := ReachesStage(cfg, true, p, r, 9);
    DraftWaits(cfg, f, p, r);
    OnlySource(cfg, g, p, r);
    ListedInput(p);
    StageGoesOn(cfg, true, p, r, 9);
    CommitsStage(cfg, g, true, "c", p, r, Input0(p));
    CommittedIs(cfg, p, r);
    LockedStep(cfg, g, Stage(cfg, true, "c", p, r, 9), p, r, Committed(cfg, p, r), Stage(cfg, true, "c", p, r, 10));
    s := Extend(cfg, s, Compaction.Body(0, Input0(p)));
  }

  lemma CommittedIs(cfg: Config, p: string, r: Record)
    ensures Committed(cfg, p, r) == Drafted(cfg, map[p := RecordBlob(r)], r)[Current(cfg) := MetaBlob(FirstMeta(cfg,
        true, "c", p, r, 0))]
    ensures Redrafted(cfg, p, r) == Committed(cfg, p, r)[Checkpoint(cfg, 2) := Bytes(Body2(cfg, r))]
  {}

  lemma WritesAndTags(cfg: Config, p: string, r: Record) returns (s: State)
    requires |cfg.sources| == 1 && Under(cfg.sources[0], p)
    requires Reachable(cfg, Relocked(Committed(cfg, p, r), Second(p, r, 12), p, r)) && Once(cfg, Redrafted(cfg, p, r), p, r)
    ensures Reachable(cfg, s) && s == Relocked(Redrafted(cfg, p, r), Tagged(cfg, Redrafted(cfg, p, r), p, r), p, r)
  {
    hide *;
    var f, g, x := Committed(cfg, p, r), Redrafted(cfg, p, r), Told([p]);
    CommittedIs(cfg, p, r);
    OnceParts(cfg, g, p, r);
    CommitPoints(cfg, g, p, r);
    SecondGoesOn(p, r, 12);
    SourceListing(cfg, Second(p, r, 12), p);
    SecondWrites(cfg, f, p, r, x);
    RelockedStep(cfg, f, Second(p, r, 12), x, p, r, g, Wrote(cfg, p, r, 13));
    s := Extend(cfg, Relocked(f, Second(p, r, 12), p, r), Compaction.Body(1, x));
    SecondTags(cfg, g, p, r, x);
    SourceListing(cfg, Wrote(cfg, p, r, 13), p);
    RelockedStep(cfg, g, Wrote(cfg, p, r, 13), x, p, r, g, Wrote(cfg, p, r, 14));
    s := Extend(cfg, s, Compaction.Body(1, x));
    SourceListing(cfg, Wrote(cfg, p, r, 14), p);
    RelockedStep(cfg, g, Wrote(cfg, p, r, 14), x, p, r, g, Wrote(cfg, p, r, 14).(pc := TagRead));
    s := Extend(cfg, s, Compaction.Body(1, x));
    SourceListing(cfg, Wrote(cfg, p, r, 14).(pc := TagRead), p);
    RelockedStep(cfg, g, Wrote(cfg, p, r, 14).(pc := TagRead), x, p, r, g, Tagged(cfg, g, p, r));
    s := Extend(cfg, s, Compaction.Body(1, x));
  }

  /** None of these points is the end or the listing of the index. */
  lemma CommitPoints(cfg: Config, f: Files, p: string, r: Record)
    ensures Wrote(cfg, p, r, 13).pc.HeadExists? && Wrote(cfg, p, r, 14).pc.TagExists?
    ensures Tagged(cfg, f, p, r).pc.Swap? && Swung(cfg, f, p, r).pc.DeleteSource?
    ensures forall todo :: Collecting(cfg, f, p, r, todo).pc.Collect?
    ensures !HeadExists.Over() && !TagExists.Over() && !TagRead.Over() && !Swap.Over() && !DeleteSource.Over() &&
        !Collect.Over() && !ListIndex.Over()
  {
    hide Fold, Encode;
  }

  /* ---- The call ---- */

  /** The second compactor takes a step while the call is under way. */
  lemma Meanwhile(cfg: Config, f: Files, c: Cycle, x: Input, p: string, r: Record, g: Files, d: Cycle,
                  rd: Reader, trace0: seq<(State, Reader)>, moves0: seq<Move>)
    returns (trace: seq<(State, Reader)>, moves: seq<Move>)
    requires !c.pc.Over() && ListingOk(cfg, c, x) && x.now == 1 && Step(cfg, f, c, x) == (g, d)
    requires trace0 != [] && Call(cfg, trace0, moves0) && Final(trace0) == Relocked(f, c, p, r)
    requires Answer(trace0) == rd && rd.steady == {}
    ensures trace != [] && Call(cfg, trace, moves) && trace[0] == trace0[0]
    ensures Final(trace) == Relocked(g, d, p, r) && Answer(trace) == rd
  {
    hide *;
    RelockedStep(cfg, f, c, x, p, r, g, d);
    OthersMove(cfg, Relocked(f, c, p, r), rd, Compaction.Body(1, x), Relocked(g, d, p, r));
    CallGoesOn(cfg, trace0, moves0, World(Compaction.Body(1, x)), Relocked(g, d, p, r), rd);
    trace, moves := trace0 + [(Relocked(g, d, p, r), rd)], moves0 + [World(Compaction.Body(1, x))];
  }

  const LOOKED := START.(at := SeekBody, name := CheckpointName(1))

  lemma HeadSteps(cfg: Config, f: Files)
    requires Current(cfg) in f && f[Current(cfg)].MetaBlob? && f[Current(cfg)].meta.checkpoint == CheckpointName(1)
    ensures InRange(cfg, START) && ReadStep(cfg, f, START, None) == START.(at := ReadHead)
    ensures InRange(cfg, START.(at := ReadHead)) && ReadStep(cfg, f, START.(at := ReadHead), None) == LOOKED
  {
    hide Current, CheckpointName, Decode;
  }

  lemma BodyGone(cfg: Config, f: Files)
    requires Checkpoint(cfg, 1) !in f && |cfg.sources| == 1
    ensures InRange(cfg, LOOKED) && ReadStep(cfg, f, LOOKED, None) == LOOKED.(at := SeekMark)
    ensures LOOKED.at.SeekBody? && LOOKED.steady == {} && LOOKED.source == 0 && LOOKED.base == [] && LOOKED.found == []
  {
    hide Current, CheckpointName, Decode;
  }

  /** The call looks at CURRENT, on the eve of the second commit. */
  lemma LooksAtHead(cfg: Config, p: string, r: Record) returns (trace: seq<(State, Reader)>, moves: seq<Move>)
    requires Separate(cfg) && Waiting(cfg, map[p := RecordBlob(r)], p, r) && SourcePath(cfg, p) && RoundTrips(cfg.codec, r)
    ensures trace != [] && Call(cfg, trace, moves) && Answer(trace) == LOOKED && trace[0].0 == Final(trace)
    ensures Final(trace) == Relocked(Redrafted(cfg, p, r), Tagged(cfg, Redrafted(cfg, p, r), p, r), p, r)
  {
    hide *;
    var g := Redrafted(cfg, p, r);
    var s := ReachesSwap(cfg, p, r);
    RelockedParts(g, Tagged(cfg, g, p, r), p, r);
    CommittedOnce(cfg, p, r);
    OnceParts(cfg, g, p, r);
    CallBegins(cfg, s);
    StartParts(cfg, s);
    HeadSteps(cfg, g);
    var read := START.(at := ReadHead);
    OneMove(cfg, s, START, None);
    CallGoesOn(cfg, [(s, START)], [], Primitive(None), s, read);
    trace, moves := [(s, START)] + [(s, read)], [] + [Primitive(None)];
    NoWalkYet(cfg, read);
    OneMove(cfg, s, read, None);
    CallGoesOn(cfg, trace, moves, Primitive(None), s, LOOKED);
    trace, moves := trace + [(s, LOOKED)], moves + [Primitive(None)];
  }

  lemma RelockedParts(f: Files, c: Cycle, p: string, r: Record)
    ensures Relocked(f, c, p, r).files == f && (p, r) in Relocked(f, c, p, r).log
  {}

  /** The store after the swap, after the source delete and after the collection. */
  ghost function Swapped(cfg: Config, p: string, r: Record): Files {
    Redrafted(cfg, p, r)[Current(cfg) := MetaBlob(Meta2(cfg, Redrafted(cfg, p, r), p, r))]
  }

  ghost function Cleaned(cfg: Config, p: string, r: Record): Files {
    Swapped(cfg, p, r) - {p} - {Checkpoint(cfg, 1)}
  }

  /** The second compactor commits, deletes the source and collects the first checkpoint. */
  lemma CommitsAndCollects(cfg: Config, p: string, r: Record, trace0: seq<(State, Reader)>, moves0: seq<Move>)
    returns (trace: seq<(State, Reader)>, moves: seq<Move>, c: Cycle)
    requires Separate(cfg) && Waiting(cfg, map[p := RecordBlob(r)], p, r) && RoundTrips(cfg.codec, r)
    requires trace0 != [] && Call(cfg, trace0, moves0) && Answer(trace0) == LOOKED
    requires Final(trace0) == Relocked(Redrafted(cfg, p, r), Tagged(cfg, Redrafted(cfg, p, r), p, r), p, r)
    ensures trace != [] && Call(cfg, trace, moves) && trace[0] == trace0[0] && Answer(trace) == LOOKED
    ensures Final(trace) == Relocked(Cleaned(cfg, p, r), c, p, r)
  {
    hide *;
    var g, h, x, y := Redrafted(cfg, p, r), Swapped(cfg, p, r), Told([p]), Told(Index(cfg));
    CommittedOnce(cfg, p, r);
    OnceParts(cfg, g, p, r);
    CommitPoints(cfg, g, p, r);
    LookedParts();
    SwappedIs(cfg, p, r);
    TellsNoFault([p]);
    TellsNoFault(Index(cfg));
    SecondTags(cfg, g, p, r, x);
    SourceListing(cfg, Tagged(cfg, g, p, r), p);
    trace, moves := Meanwhile(cfg, g, Tagged(cfg, g, p, r), x, p, r, h, Swung(cfg, g, p, r), LOOKED, trace0, moves0);
    SecondDeletes(cfg, g, h, p, r, x, y);
    var gone := Swung(cfg, g, p, r).(next := 1, removed := [p]);
    SourceListing(cfg, Swung(cfg, g, p, r), p);
    trace, moves := Meanwhile(cfg, h, Swung(cfg, g, p, r), x, p, r, h - {p}, gone, LOOKED, trace, moves);
    SourceListing(cfg, gone, p);
    trace, moves := Meanwhile(cfg, h - {p}, gone, x, p, r, h - {p}, gone.(pc := ListIndex), LOOKED, trace, moves);
    IndexListing(cfg, gone.(pc := ListIndex));
    trace, moves := Meanwhile(cfg, h - {p}, gone.(pc := ListIndex), y, p, r, h - {p}, Collecting(cfg, g, p, r,
        Index(cfg)), LOOKED, trace, moves);
    SecondCollects(cfg, g, h - {p}, p, r, x);
    c := Collecting(cfg, g, p, r, Index(cfg)[1..]);
    SourceListing(cfg, Collecting(cfg, g, p, r, Index(cfg)), p);
    trace, moves := Meanwhile(cfg, h - {p}, Collecting(cfg, g, p, r, Index(cfg)), x, p, r, h - {p}, c, LOOKED, trace, moves);
    SourceListing(cfg, c, p);
    var d := Collecting(cfg, g, p, r, Index(cfg)[1..][1..]);
    trace, moves := Meanwhile(cfg, h - {p}, c, x, p, r, h - {p} - {Checkpoint(cfg, 1)}, d, LOOKED, trace, moves);
    c := d;
  }

  lemma LookedParts()
    ensures LOOKED.steady == {}
  {}

  lemma TellsNoFault(listing: seq<string>)
    ensures !Told(listing).fault && Told(listing).listing == listing && Told(listing).now == 1
  {}

  lemma SwappedIs(cfg: Config, p: string, r: Record)
    ensures Swapped(cfg, p, r) == Redrafted(cfg, p, r)[Current(cfg) := MetaBlob(Meta2(cfg, Redrafted(cfg, p, r), p, r))]
    ensures Cleaned(cfg, p, r) == Swapped(cfg, p, r) - {p} - {Checkpoint(cfg, 1)}
  {}

  /** The worst overlap: CURRENT names a generation before the call, during it and after it, each of them absorbs
      the record, and the call returns nothing. It saw the first generation's name; by the time it looks for
      the checkpoint the next cycle has collected it, and `read_current` takes that for an empty index. */
  lemma GenerationIsMissed(cfg: Config, p: string, r: Record) returns (trace: seq<(State, Reader)>, moves: seq<Move>)
    requires Separate(cfg) && Waiting(cfg, map[p := RecordBlob(r)], p, r) && SourcePath(cfg, p) && RoundTrips(cfg.codec, r)
    ensures trace != [] && Call(cfg, trace, moves) && (p, r) in trace[0].0.log
    ensures Current(cfg) in trace[0].0.files && Absorbed(r, Base(cfg, trace[0].0.files))
    ensures Absorbed(r, Base(cfg, Final(trace).files))
    ensures Answer(trace).at.Done? && Returned(Answer(trace)) == []
  {
    hide *;
    trace, moves := LooksAtHead(cfg, p, r);
    var g := Redrafted(cfg, p, r);
    RelockedParts(g, Tagged(cfg, g, p, r), p, r);
    CommittedOnce(cfg, p, r);
    OnceParts(cfg, g, p, r);
    OnceAbsorbs(cfg, g, p, r);
    var c;
    trace, moves, c := CommitsAndCollects(cfg, p, r, trace, moves);
    var left, s := Cleaned(cfg, p, r), Final(trace);
    RelockedParts(left, c, p, r);
    CleanedParts(cfg, p, r);
    BodyGone(cfg, left);
    LookedOnly(cfg);
    OneMove(cfg, s, LOOKED, None);
    CallGoesOn(cfg, trace, moves, Primitive(None), s, LOOKED.(at := SeekMark));
    trace, moves := trace + [(s, LOOKED.(at := SeekMark))], moves + [Primitive(None)];
    trace, moves := ReadsMark(cfg, p, trace, moves, None);
    WalkParts(cfg, left, LOOKED.(at := ReadMark), None);
    trace, moves := EndsEmpty(cfg, p, trace, moves);
    OnlySource(cfg, map[p := RecordBlob(r)], p, r);
    MissedIsThere(cfg, trace, moves, p, r);
  }

  lemma LookedOnly(cfg: Config)
    ensures WalkOk(cfg, LOOKED, None)
  {}

  lemma OnceAbsorbs(cfg: Config, f: Files, p: string, r: Record)
    requires Once(cfg, f, p, r)
    ensures Absorbed(r, Base(cfg, f))
  {
    hide Fold, Decode, Current, CheckpointName, Eligible, Under;
    FoldAbsorbsSame([r], r);
    SelfAbsorbed(r, [r]);
  }

  lemma CleanedParts(cfg: Config, p: string, r: Record)
    requires Separate(cfg) && Waiting(cfg, map[p := RecordBlob(r)], p, r)
    ensures
      var f := Cleaned(cfg, p, r);
      && Checkpoint(cfg, 1) !in f
      && Current(cfg) in f && f[Current(cfg)].MetaBlob? && f[Current(cfg)].meta.folded == None
      && forall q :: !(q in f && Under(cfg.sources[0], q))
  {
    hide *;
    hide Swapped, Cleaned;
    var f, g := map[p := RecordBlob(r)], Redrafted(cfg, p, r);
    OnlySource(cfg, f, p, r);
    WaitingInSource(cfg, f, p, r);
    SourceIsNotIndexFile(cfg, p, 1);
    IndexPathsOf(cfg, 1, 2);
    IndexPathsOf(cfg, 2, 1);
    CommittedIs(cfg, p, r);
    DraftedIs(cfg, f, r);
    SwappedIs(cfg, p, r);
    Meta2Parts(cfg, g, p, r);
    NotIndexFiles(cfg, 1);
    NotIndexFiles(cfg, 2);
    forall q | Under(cfg.sources[0], q) ensures InSource(cfg, q) { UnderOnlySource(cfg, q); }
  }

  lemma UnderOnlySource(cfg: Config, q: string)
    requires |cfg.sources| == 1 && Under(cfg.sources[0], q)
    ensures InSource(cfg, q)
  {
    hide Under;
    assert cfg.sources[0] in cfg.sources;
  }

  lemma MissedIsThere(cfg: Config, trace: seq<(State, Reader)>, moves: seq<Move>, p: string, r: Record)
    requires Separate(cfg) && Call(cfg, trace, moves) && trace != [] && Answer(trace).at.Done?
    requires (p, r) in trace[0].0.log && Eligible(p) && Returned(Answer(trace)) == []
    ensures Absorbed(r, Base(cfg, Final(trace).files))
  {
    hide Separate, Call, Base, Final, Answer, Fold, Below;
    assert EndsWith(p, Basename(p));
    MissedIsCommitted(cfg, trace, moves, p, r);
  }

  /** There is such an index and such a call. */
  lemma CallsCanMissGenerations() returns (cfg: Config, r: Record, trace: seq<(State, Reader)>, moves: seq<Move>)
    ensures Separate(cfg) && trace != [] && Call(cfg, trace, moves)
    ensures Current(cfg) in trace[0].0.files && Absorbed(r, Base(cfg, trace[0].0.files))
    ensures Answer(trace).at.Done? && Returned(Answer(trace)) == []
  {
    hide *;
    var p;
    cfg, p, r := Sample();
    trace, moves := GenerationIsMissed(cfg, p, r);
  }
}
