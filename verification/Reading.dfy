/** `hybrid_read` as the many primitives it is, while workers append and compactors run: what it can miss. */
module Reading {
  import opened Text
  import opened Folding
  import opened Codec
  import opened Naming
  import opened Blobs
  import opened CompactCycle
  import opened Ledger
  import opened Compaction
  import opened Guarantees
  import L = Lease

  /** Where the call stands; each is the point before one primitive. */
  datatype Point =
    | SeekHead | ReadHead | SeekBody | ReadBody   // read_current
    | SeekMark | ReadMark                           // watermark, once for each source
    | Walk                                            // the listing of iter_beyond yields its next path, or ends
    | Open(path: string)                              // before read_bytes
    | Done | Failed

  /** The call's variables. `steady` is history: the files of the source being listed that have been there ever
      since its walk began; `seen` is what the walk has yielded. */
  datatype Reader = Reader(at: Point, name: string, base: seq<Record>, source: nat, mark: Option<seq<string>>,
                           found: seq<Record>, steady: set<string>, seen: set<string>)

  const START := Reader(SeekHead, "", [], 0, None, [], {}, {})

  function NextSource(cfg: Config, r: Reader): Reader {
    r.(at := if r.source < |cfg.sources| then SeekMark else Done)
  }

  function BeginWalk(cfg: Config, f: Files, r: Reader, mark: Option<seq<string>>): Reader
    requires r.source < |cfg.sources|
  {
    r.(at := Walk, mark := mark, steady := (set p | p in f && Under(cfg.sources[r.source], p)), seen := {})
  }

  predicate Ordinary(p: string) {
    !EndsWith(p, "/") && Basename(p) != "datapackage.json"
  }

  /** One primitive of the call. `next` is what the walk yields, nothing at its end. */
  function ReadStep(cfg: Config, f: Files, r: Reader, next: Option<string>): Reader
    requires r.source <= |cfg.sources|
    requires r.at.SeekMark? || r.at.ReadMark? || r.at.Walk? || r.at.Open? ==> r.source < |cfg.sources|
  {
    var cur := Current(cfg);
    match r.at
    case SeekHead => if cur in f then r.(at := ReadHead) else NextSource(cfg, r)
    case ReadHead => if cur in f && f[cur].MetaBlob? then r.(name := f[cur].meta.checkpoint, at := SeekBody) else r.(at := Failed)
    case SeekBody => if cfg.root + "/" + r.name in f then r.(at := ReadBody) else NextSource(cfg, r)
    case ReadBody =>
      var path := cfg.root + "/" + r.name;
      if path in f && f[path].Bytes? && Decode(cfg.codec, f[path].bytes).Some?
      then NextSource(cfg, r.(base := Decode(cfg.codec, f[path].bytes).value))
      else r.(at := Failed)
    case SeekMark => if cur in f then r.(at := ReadMark) else BeginWalk(cfg, f, r, None)
    case ReadMark => if cur in f && f[cur].MetaBlob? then BeginWalk(cfg, f, r, f[cur].meta.folded) else r.(at := Failed)
    case Walk =>
      if next.None? then NextSource(cfg, r.(source := r.source + 1))
      else if Ordinary(next.value) && PastWatermark(next.value, r.mark)
          then r.(at := Open(next.value), seen := r.seen + {next.value})
      else r.(seen := r.seen + {next.value})
    case Open(p) => if p in f && f[p].RecordBlob? then r.(at := Walk, found := r.found + [f[p].rec]) else r.(at := Walk)
    case Done => r
    case Failed => r
  }

  /** A directory walk yields files of its source, and ends only when it has yielded every file that was there all
      along. Files that come or go meanwhile may be yielded or not. */
  predicate WalkOk(cfg: Config, r: Reader, next: Option<string>) {
    r.at.Walk? && r.source < |cfg.sources| ==> if next.Some? then Under(cfg.sources[r.source], next.value) else r.steady <= r.seen
  }

  predicate InRange(cfg: Config, r: Reader) {
    && r.source <= |cfg.sources|
    && (r.at.SeekMark? || r.at.ReadMark? || r.at.Walk? || r.at.Open? ==> r.source < |cfg.sources|)
  }

  datatype Move = World(e: Event) | Primitive(next: Option<string>)

  /** Everybody else takes a step, or the call does. */
  ghost predicate Moves(cfg: Config, s: State, r: Reader, m: Move, t: State, u: Reader) {
    match m
    case World(e) => Enabled(cfg, s, e) && t == Apply(cfg, s, e) && u == r.(steady := r.steady * t.files.Keys)
    case Primitive(next) => InRange(cfg, r) && WalkOk(cfg, r, next) && t == s && u == ReadStep(cfg, s.files, r, next)
  }

  /** One call of `hybrid_read` in the middle of a schedule. */
  ghost predicate Call(cfg: Config, trace: seq<(State, Reader)>, moves: seq<Move>) {
    && |trace| == |moves| + 1
    && Reachable(cfg, trace[0].0) && trace[0].1 == START
    && forall i | 0 <= i < |moves| :: Moves(cfg, trace[i].0, trace[i].1, moves[i], trace[i + 1].0, trace[i + 1].1)
  }

  /* ---- The committed generation only gains ---- */

  lemma BodyGains(cfg: Config, f: Files, log: Log, c: Cycle, x: Input, r: Record)
    requires Separate(cfg) && FilesInv(cfg, f, log) && CycleInv(cfg, f, log, c) && Absorbed(r, Base(cfg, f))
    ensures Absorbed(r, Base(cfg, Step(cfg, f, c, x).0))
  {
    hide *;
    CycleParts(cfg, f, log, c);
    PointsParts(cfg, f, c);
    if Reads(c) {
      ReadsTouchNothing(cfg, f, c, x);
    } else if c.pc.WriteBody? {
      WriteStep(cfg, f, c, x);
      NextCheckpointKeeps(cfg, f, log, c, Bytes(Step(cfg, f, c, x).1.body));
    } else if c.pc.Swap? || c.pc.Create? {
      CommitStep(cfg, f, c, x);
      CommitWrites(cfg, f, c, x.now);
      CommitKeepsFiles(cfg, f, log, c, x.now);
      FoldAbsorbsSame(c.base + c.recs, r);
      AbsorbedConcat(r, c.base, c.recs);
    } else if c.pc.DeleteSource? {
      DeletePlace(cfg, f, c, x);
      if c.consuming && c.next < |c.paths| {
        PendingIsAbsorbed(cfg, f, log, c);
        DeleteKeepsFiles(cfg, f, log, c.paths[c.next]);
      }
    } else {
      CollectStep(cfg, f, c, x);
      if c.todo != [] && Garbage(c.todo[0], CheckpointName(c.generation + 1)) {
        CollectKeepsFiles(cfg, f, log, c.todo[0]);
      }
    }
  }

  lemma PointsParts(cfg: Config, f: Files, c: Cycle)
    requires ProgressOk(cfg, f, c)
    ensures !Reads(c) ==> c.pc.WriteBody? || c.pc.Swap? || c.pc.Create? || c.pc.DeleteSource? || c.pc.Collect?
    ensures c.pc.WriteBody? ==> c.generation == Generation(cfg, f)
    ensures c.pc.Swap? || c.pc.Create? ==> Committing(c.pc) && c.base == Base(cfg, f)
    ensures c.pc.Collect? ==> Generation(cfg, f) == c.generation + 1 && Current(cfg) in f
  {
    hide Encode, Fold, Base, Covered, Current, Checkpoint, CheckpointName;
  }

  lemma DeletePlace(cfg: Config, f: Files, c: Cycle, x: Input)
    requires c.pc.DeleteSource?
    ensures
      var g := Step(cfg, f, c, x).0;
      g == f || (c.consuming && c.next < |c.paths| && g == f - {c.paths[c.next]})
  {
    hide Current;
  }

  lemma AbsorbedConcat(r: Record, a: seq<Record>, b: seq<Record>)
    ensures Absorbed(r, a + b) <==> Absorbed(r, a) || Absorbed(r, b)
  {
    hide Below;
    if Absorbed(r, a) { var s :| s in a && Below(r, s); assert s in a + b; }
    if Absorbed(r, b) { var s :| s in b && Below(r, s); assert s in a + b; }
  }

  /** Whatever happens next, a record the committed generation absorbs stays absorbed. */
  lemma StepGains(cfg: Config, s: State, e: Event, r: Record)
    requires Separate(cfg) && Inv(cfg, s) && Enabled(cfg, s, e) && Absorbed(r, Base(cfg, s.files))
    ensures Absorbed(r, Base(cfg, Apply(cfg, s, e).files))
  {
    hide FilesInv, CycleInv, Separate, Absorbed, Base, Step, ListingOk, AppendOk, PlantOk, L.Inv, L.Live, L.Enabled,
        L.Careful, L.Apply;
    match e
    case Body(w, x) => BodyGains(cfg, s.files, s.log, s.cycles[w], x, r);
    case Append(p, q) =>
      AppendAlone(cfg, s.files, ActiveCycles(s), p, q);
      AppendKeepsFiles(cfg, s.files, s.log, p, q);
    case Plant(p, b) =>
      PlantAlone(cfg, s.files, ActiveCycles(s), p, b);
      PlantKeepsFiles(cfg, s.files, s.log, p, b);
    case _ =>
  }

  lemma AppendAlone(cfg: Config, f: Files, active: set<Cycle>, p: string, r: Record)
    requires AppendOk(cfg, f, active, p, r)
    ensures AppendOk(cfg, f, {}, p, r)
  {
    hide SourcePath, RoundTrips, Below, Absorbed, Frontier, Base;
  }

  lemma PlantAlone(cfg: Config, f: Files, active: set<Cycle>, p: string, b: Blob)
    requires PlantOk(cfg, f, active, p, b)
    ensures PlantOk(cfg, f, {}, p, b)
  {
    hide InSource;
  }

  /* ---- What a call misses ---- */

  /** The appended record is in the committed generation, or its file holds it or something that outranks it,
      outside the frontier. */
  lemma AbsorbedOrThere(cfg: Config, f: Files, log: Log, p: string, r: Record)
    requires FilesInv(cfg, f, log) && (p, r) in log && !Absorbed(r, Base(cfg, f))
    ensures IsRecord(f, p) && Below(r, f[p].rec) && PastWatermark(p, Mark(cfg, f)) && InSource(cfg, p)
  {
    hide Absorbed, Below, Base, Fold, RoundTrips, InSource, PastWatermark, CommitIntact, BaseOk, Mark, SourcesLogged;
    assert Accounted(f, Base(cfg, f), (p, r).0, (p, r).1);
    assert SourcePath(cfg, (p, r).0);
    if !PastWatermark(p, Mark(cfg, f)) {
      SkippedIsOnFrontier(cfg, f, log, p);
      AbsorbedTransitive(r, f[p].rec, Base(cfg, f));
    }
  }

  /** Where the call stands with a record of source `k` that no generation has absorbed: its file is still to
      come in the walk, is about to be opened, or has been read. */
  ghost predicate Tracked(cfg: Config, rd: Reader, k: nat, p: string, r: Record) {
    && InRange(cfg, rd)
    && (rd.at.Done? ==> rd.source == |cfg.sources|)
    && (rd.source > k ==> Absorbed(r, rd.found))
    && (rd.source == k && (rd.at.Walk? || rd.at.Open?) ==>
          PastWatermark(p, rd.mark) && p in rd.steady && (p in rd.seen ==> Absorbed(r, rd.found) || rd.at == Open(p)))
    && ((rd.at.SeekHead? || rd.at.ReadHead? || rd.at.SeekBody? || rd.at.ReadBody?) ==> rd.source == 0)
  }

  lemma FoundGrows(r: Record, found: seq<Record>, s: Record)
    ensures Absorbed(r, found) || Below(r, s) ==> Absorbed(r, found + [s])
  {
    AbsorbedConcat(r, found, [s]);
    if Below(r, s) { assert s in [s]; }
  }

  lemma PrimitiveTracks(cfg: Config, f: Files, rd: Reader, next: Option<string>, k: nat, p: string, r: Record)
    requires Tracked(cfg, rd, k, p, r) && WalkOk(cfg, rd, next) && !ReadStep(cfg, f, rd, next).at.Failed?
    requires k < |cfg.sources| && Under(cfg.sources[k], p) && Ordinary(p)
    requires IsRecord(f, p) && Below(r, f[p].rec) && PastWatermark(p, Mark(cfg, f))
    ensures Tracked(cfg, ReadStep(cfg, f, rd, next), k, p, r)
  {
    hide Absorbed, Below, PastWatermark, Under, Decode, Current, Ordinary;
    match rd.at
    case Open(q) => if q in f && f[q].RecordBlob? { FoundGrows(r, rd.found, f[q].rec); }
    case Walk =>
    case SeekMark => NoMark(p);
    case ReadMark =>
    case _ =>
  }

  lemma NoMark(p: string)
    ensures PastWatermark(p, None)
  {}

  lemma LogGrows(cfg: Config, s: State, e: Event)
    requires Enabled(cfg, s, e)
    ensures s.log <= Apply(cfg, s, e).log
  {
    hide Step, AppendOk, PlantOk, ListingOk, L.Apply, L.Enabled, L.Careful, L.Live;
  }

  lemma WorldTracks(cfg: Config, f: Files, rd: Reader, k: nat, p: string, r: Record)
    requires Tracked(cfg, rd, k, p, r) && p in f
    ensures Tracked(cfg, rd.(steady := rd.steady * f.Keys), k, p, r)
  {
    hide Absorbed, PastWatermark;
  }

  lemma EnabledIsDefined(cfg: Config, s: State, e: Event)
    requires Enabled(cfg, s, e)
    ensures e.Body? || e.Raise? ==> e.w in s.cycles
  {
    hide AppendOk, PlantOk, ListingOk, L.Enabled, L.Careful;
  }

  ghost predicate Followed(cfg: Config, s: State, rd: Reader, k: nat, p: string, r: Record) {
    && Inv(cfg, s) && (p, r) in s.log
    && (Absorbed(r, Base(cfg, s.files)) || rd.at.Failed? || Tracked(cfg, rd, k, p, r))
  }

  lemma WorldFollows(cfg: Config, s: State, rd: Reader, e: Event, k: nat, p: string, r: Record)
    requires Separate(cfg) && Followed(cfg, s, rd, k, p, r) && Enabled(cfg, s, e)
    ensures
      var t := Apply(cfg, s, e);
      Followed(cfg, t, rd.(steady := rd.steady * t.files.Keys), k, p, r)
  {
    hide Separate, Inv, Enabled, Apply, Absorbed, Base, Tracked, FilesInv, PastWatermark, Below, InSource;
    EnabledIsDefined(cfg, s, e);
    var t := Apply(cfg, s, e);
    ApplyKeepsInv(cfg, s, e);
    LogGrows(cfg, s, e);
    InvParts(cfg, t);
    if Absorbed(r, Base(cfg, s.files)) {
      StepGains(cfg, s, e, r);
    } else if !Absorbed(r, Base(cfg, t.files)) && !rd.at.Failed? {
      AbsorbedOrThere(cfg, t.files, t.log, p, r);
      WorldTracks(cfg, t.files, rd, k, p, r);
    }
  }

  lemma PrimitiveFollows(cfg: Config, s: State, rd: Reader, next: Option<string>, k: nat, p: string, r: Record)
    requires Followed(cfg, s, rd, k, p, r) && InRange(cfg, rd) && WalkOk(cfg, rd, next)
    requires k < |cfg.sources| && Under(cfg.sources[k], p) && Ordinary(p)
    ensures Followed(cfg, s, ReadStep(cfg, s.files, rd, next), k, p, r)
  {
    hide Inv, Absorbed, Base, Tracked, FilesInv, PastWatermark, Below, InSource, WalkOk, Under, Ordinary, ReadStep;
    InvParts(cfg, s);
    FailedStays(cfg, s.files, rd, next);
    if !Absorbed(r, Base(cfg, s.files)) && !ReadStep(cfg, s.files, rd, next).at.Failed? {
      AbsorbedOrThere(cfg, s.files, s.log, p, r);
      PrimitiveTracks(cfg, s.files, rd, next, k, p, r);
    }
  }

  lemma FailedStays(cfg: Config, f: Files, rd: Reader, next: Option<string>)
    requires InRange(cfg, rd)
    ensures rd.at.Failed? ==> ReadStep(cfg, f, rd, next).at.Failed?
  {
    hide Current, Decode, PastWatermark, Ordinary;
  }

  lemma {:induction false} CallFollows(cfg: Config, trace: seq<(State, Reader)>, moves: seq<Move>, i: nat, k: nat,
      p: string, r: Record)
    requires Separate(cfg) && Call(cfg, trace, moves) && i < |trace|
    requires k < |cfg.sources| && Under(cfg.sources[k], p) && Ordinary(p) && (p, r) in trace[0].0.log
    ensures Followed(cfg, trace[i].0, trace[i].1, k, p, r)
  {
    hide Separate, Inv, Reachable, Enabled, Apply, Followed, WalkOk, Under, Ordinary, ReadStep;
    if i == 0 {
      ReachableInv(cfg, trace[0].0);
      StartFollowed(cfg, trace[0].0, k, p, r);
    } else {
      CallFollows(cfg, trace, moves, i - 1, k, p, r);
      var (s, rd) := trace[i - 1];
      assert Moves(cfg, s, rd, moves[i - 1], trace[i - 1 + 1].0, trace[i - 1 + 1].1);
      match moves[i - 1]
      case World(e) => WorldFollows(cfg, s, rd, e, k, p, r);
      case Primitive(next) => PrimitiveFollows(cfg, s, rd, next, k, p, r);
    }
  }

  lemma StartFollowed(cfg: Config, s: State, k: nat, p: string, r: Record)
    requires Inv(cfg, s) && (p, r) in s.log
    ensures Followed(cfg, s, START, k, p, r)
  {
    hide Inv, Absorbed, Base, PastWatermark;
  }

  lemma SourceOf(cfg: Config, p: string) returns (k: nat)
    requires InSource(cfg, p)
    ensures k < |cfg.sources| && Under(cfg.sources[k], p)
  {
    hide Under;
    var src :| src in cfg.sources && Under(src, p);
    k :| k < |cfg.sources| && cfg.sources[k] == src;
  }

  lemma LoggedInSource(cfg: Config, s: State, p: string, r: Record)
    requires Inv(cfg, s) && (p, r) in s.log
    ensures InSource(cfg, p)
  {
    hide InSource, RoundTrips, SourcesLogged, CommitIntact, BaseOk, FrontierOk, AllAccounted, CycleInv, L.Inv;
    assert SourcePath(cfg, (p, r).0);
  }

  /** The store when the call ends, and what it returns. */
  ghost function Final(trace: seq<(State, Reader)>): State
    requires trace != []
  {
    trace[|trace| - 1].0
  }

  ghost function Answer(trace: seq<(State, Reader)>): Reader
    requires trace != []
  {
    trace[|trace| - 1].1
  }

  /** `out` of `hybrid_read`. */
  function Returned(rd: Reader): seq<Record> {
    rd.base + rd.found
  }

  /** Whatever a call misses had been appended before it began and is committed when it ends: what the sources no
      longer gave is in the generation. */
  lemma MissedIsCommitted(cfg: Config, trace: seq<(State, Reader)>, moves: seq<Move>, p: string, r: Record)
    requires Separate(cfg) && Call(cfg, trace, moves) && Answer(trace).at.Done?
    requires (p, r) in trace[0].0.log && Ordinary(p)
    ensures Absorbed(r, Answer(trace).found) || Absorbed(r, Base(cfg, Final(trace).files))
  {
    hide *;
    CallLength(cfg, trace, moves);
    LoggedInSource(cfg, trace[0].0, p, r) by { StartInv(cfg, trace, moves); }
    var k := SourceOf(cfg, p);
    CallFollows(cfg, trace, moves, |trace| - 1, k, p, r);
    EndsThere(trace);
    DoneTracked(cfg, Final(trace), Answer(trace), k, p, r);
  }

  lemma EndsThere(trace: seq<(State, Reader)>)
    requires trace != []
    ensures trace[|trace| - 1] == (Final(trace), Answer(trace))
  {}

  lemma CallLength(cfg: Config, trace: seq<(State, Reader)>, moves: seq<Move>)
    requires Call(cfg, trace, moves)
    ensures |trace| == |moves| + 1
  {
    hide Moves, Reachable;
  }

  lemma StartInv(cfg: Config, trace: seq<(State, Reader)>, moves: seq<Move>)
    requires Separate(cfg) && Call(cfg, trace, moves)
    ensures Inv(cfg, trace[0].0)
  {
    hide Moves, Reachable, Inv, Separate;
    ReachableInv(cfg, trace[0].0);
  }

  lemma DoneTracked(cfg: Config, s: State, rd: Reader, k: nat, p: string, r: Record)
    requires Followed(cfg, s, rd, k, p, r) && rd.at.Done? && k < |cfg.sources|
    ensures Absorbed(r, rd.found) || Absorbed(r, Base(cfg, s.files))
  {
    hide Inv, Absorbed, Base, PastWatermark;
  }

  /** Everything appended before the call began, sidecar names apart. */
  ghost predicate Before(trace: seq<(State, Reader)>, e: (string, Record))
    requires trace != []
  {
    e in trace[0].0.log && Ordinary(e.0)
  }

  /** What was committed by the time the call ended, and was not in the base it had read. */
  ghost predicate CommittedBetween(cfg: Config, trace: seq<(State, Reader)>, e: (string, Record))
    requires trace != []
  {
    Absorbed(e.1, Base(cfg, Final(trace).files)) && !Absorbed(e.1, Answer(trace).base)
  }

  /** A call absorbs everything appended before it began if and only if it still found in the sources, or
      something there that outranks it, whatever was committed in between. */
  lemma CallIsCompleteExactly(cfg: Config, trace: seq<(State, Reader)>, moves: seq<Move>)
    requires Separate(cfg) && Call(cfg, trace, moves) && Answer(trace).at.Done?
    ensures (forall e | Before(trace, e) :: Absorbed(e.1, Returned(Answer(trace)))) <==>
            (forall e | Before(trace, e) && CommittedBetween(cfg, trace, e) :: Absorbed(e.1, Answer(trace).found))
  {
    hide Separate, Call, Absorbed, Base, Final, Answer;
    CallLength(cfg, trace, moves);
    forall e | Before(trace, e)
      ensures Absorbed(e.1, Returned(Answer(trace))) <==> Absorbed(e.1, Answer(trace).base) || Absorbed(e.1, Answer(trace).found)
      ensures Absorbed(e.1, Answer(trace).found) || Absorbed(e.1, Base(cfg, Final(trace).files))
    {
      MissedIsCommitted(cfg, trace, moves, e.0, e.1);
      AbsorbedConcat(e.1, Answer(trace).base, Answer(trace).found);
    }
  }

  /* ---- A call during which CURRENT does not change ---- */

  predicate SameHead(cfg: Config, f: Files, g: Files) {
    && (Current(cfg) in f <==> Current(cfg) in g)
    && (Current(cfg) in f ==> f[Current(cfg)] == g[Current(cfg)])
  }

  /** The generation is read off CURRENT and a checkpoint that carries the recorded bytes: the same CURRENT, at any
      two moments, is the same generation. */
  lemma SameHeadSameBase(cfg: Config, f: Files, g: Files)
    requires CommitIntact(cfg, f) && CommitIntact(cfg, g) && SameHead(cfg, f, g)
    ensures Base(cfg, f) == Base(cfg, g) && Generation(cfg, f) == Generation(cfg, g)
  {
    hide Encode, Decode, Current, CheckpointName;
  }

  lemma {:induction false} CallInv(cfg: Config, trace: seq<(State, Reader)>, moves: seq<Move>, i: nat)
    requires Separate(cfg) && Call(cfg, trace, moves) && i < |trace|
    ensures Inv(cfg, trace[i].0)
  {
    hide Separate, Inv, Reachable, Enabled, Apply, WalkOk, ReadStep;
    if i == 0 {
      ReachableInv(cfg, trace[0].0);
    } else {
      CallInv(cfg, trace, moves, i - 1);
      assert Moves(cfg, trace[i - 1].0, trace[i - 1].1, moves[i - 1], trace[i - 1 + 1].0, trace[i - 1 + 1].1);
      if moves[i - 1].World? { ApplyKeepsInv(cfg, trace[i - 1].0, moves[i - 1].e); }
    }
  }

  /** While a call runs, too, CURRENT changes only to a higher generation. */
  lemma {:induction false} CallGenerations(cfg: Config, trace: seq<(State, Reader)>, moves: seq<Move>, i: nat, j: nat)
    requires Separate(cfg) && Call(cfg, trace, moves) && i <= j < |trace|
    ensures Generation(cfg, trace[i].0.files) <= Generation(cfg, trace[j].0.files)
    ensures Generation(cfg, trace[i].0.files) == Generation(cfg, trace[j].0.files) ==>
        SameHead(cfg, trace[i].0.files, trace[j].0.files)
    decreases j - i
  {
    hide Separate, Inv, Reachable, Enabled, Apply, WalkOk, ReadStep, Current, Generation;
    if i < j {
      CallGenerations(cfg, trace, moves, i, j - 1);
      CallInv(cfg, trace, moves, j - 1);
      assert Moves(cfg, trace[j - 1].0, trace[j - 1].1, moves[j - 1], trace[j - 1 + 1].0, trace[j - 1 + 1].1);
      if moves[j - 1].World? {
        StepMovesGeneration(cfg, trace[j - 1].0, moves[j - 1].e);
        HeadGeneration(cfg, trace[j - 1].0.files, trace[j - 1 + 1].0.files);
      }
    }
  }

  lemma HeadGeneration(cfg: Config, f: Files, g: Files)
    ensures SameHead(cfg, f, g) ==> Generation(cfg, f) == Generation(cfg, g)
  {
    hide Current;
  }

  ghost predicate AllLogged(records: seq<Record>, log: Log) {
    forall b | b in records :: exists q :: (q, b) in log
  }

  /** The call has read, or is about to read, the generation that is committed now, and nothing nobody wrote. */
  ghost predicate OnTrack(cfg: Config, f: Files, log: Log, rd: Reader) {
    && !rd.at.Failed? && InRange(cfg, rd)
    && AllLogged(rd.found, log)
    && (if rd.at.SeekHead? || rd.at.ReadHead? || rd.at.SeekBody? || rd.at.ReadBody? then rd.base == []
        else rd.base == Base(cfg, f))
    && (rd.at.ReadHead? || rd.at.SeekBody? || rd.at.ReadBody? || rd.at.ReadMark? ==> Current(cfg) in f)
    && (rd.at.SeekBody? || rd.at.ReadBody? ==> f[Current(cfg)].MetaBlob? && rd.name == f[Current(cfg)].meta.checkpoint)
    && (rd.at.Open? ==> InSource(cfg, rd.at.path))
  }

  lemma PrimitiveOnTrack(cfg: Config, f: Files, log: Log, rd: Reader, next: Option<string>)
    requires OnTrack(cfg, f, log, rd) && CommitIntact(cfg, f) && SourcesLogged(cfg, f, log) && WalkOk(cfg, rd, next)
    ensures OnTrack(cfg, f, log, ReadStep(cfg, f, rd, next))
  {
    hide Encode, Decode, CheckpointName, Current, Generation, PastWatermark, Ordinary, AllLogged, Under;
    match rd.at
    case Open(p) => if IsRecord(f, p) { OneMoreLogged(rd.found, f[p].rec, log, p); }
    case SeekHead =>
    case ReadHead =>
    case SeekBody =>
    case ReadBody =>
    case SeekMark =>
    case ReadMark =>
    case Walk =>
    case _ =>
  }

  lemma OneMoreLogged(found: seq<Record>, b: Record, log: Log, p: string)
    requires AllLogged(found, log) && (p, b) in log
    ensures AllLogged(found + [b], log)
  {}

  lemma MoreLogged(found: seq<Record>, log: Log, longer: Log)
    requires AllLogged(found, log) && log <= longer
    ensures AllLogged(found, longer)
  {
    forall b | b in found ensures exists q :: (q, b) in longer {
      var q :| (q, b) in log;
      assert (q, b) in longer;
    }
  }

  lemma WorldOnTrack(cfg: Config, f: Files, log: Log, g: Files, longer: Log, rd: Reader, steady: set<string>)
    requires OnTrack(cfg, f, log, rd) && SameHead(cfg, f, g) && Base(cfg, g) == Base(cfg, f) && log <= longer
    ensures OnTrack(cfg, g, longer, rd.(steady := steady))
  {
    hide Base, Current, InSource, AllLogged;
    MoreLogged(rd.found, log, longer);
  }

  lemma {:induction false} CallOnTrack(cfg: Config, trace: seq<(State, Reader)>, moves: seq<Move>, i: nat)
    requires Separate(cfg) && Call(cfg, trace, moves) && i < |trace|
    requires SameHead(cfg, trace[0].0.files, trace[|trace| - 1].0.files)
    ensures OnTrack(cfg, trace[i].0.files, trace[i].0.log, trace[i].1)
  {
    hide Separate, Inv, Reachable, Enabled, Apply, WalkOk, ReadStep, SameHead, OnTrack, Base, Generation, FilesInv;
    CallInv(cfg, trace, moves, i);
    InvParts(cfg, trace[i].0);
    if i == 0 {
      StartOnTrack(cfg, trace[0].0.files, trace[0].0.log);
    } else {
      CallOnTrack(cfg, trace, moves, i - 1);
      var (s, rd) := trace[i - 1];
      assert Moves(cfg, s, rd, moves[i - 1], trace[i - 1 + 1].0, trace[i - 1 + 1].1);
      CallInv(cfg, trace, moves, i - 1);
      InvParts(cfg, s);
      FilesInvParts(cfg, s.files, s.log);
      FilesInvParts(cfg, trace[i].0.files, trace[i].0.log);
      match moves[i - 1]
      case World(e) =>
        HeadNeverMoves(cfg, trace, moves, i);
        SameHeadSameBase(cfg, s.files, trace[i].0.files);
        LogGrows(cfg, s, e);
        WorldOnTrack(cfg, s.files, s.log, trace[i].0.files, trace[i].0.log, rd, trace[i].1.steady);
      case Primitive(next) => PrimitiveOnTrack(cfg, s.files, s.log, rd, next);
    }
  }

  lemma StartOnTrack(cfg: Config, f: Files, log: Log)
    ensures OnTrack(cfg, f, log, START)
  {
    hide Base, Current;
  }

  lemma HeadNeverMoves(cfg: Config, trace: seq<(State, Reader)>, moves: seq<Move>, i: nat)
    requires Separate(cfg) && Call(cfg, trace, moves) && 0 < i < |trace|
    requires SameHead(cfg, trace[0].0.files, trace[|trace| - 1].0.files)
    ensures SameHead(cfg, trace[i - 1].0.files, trace[i].0.files)
  {
    hide Separate, Call, SameHead, Generation;
    HeadGeneration(cfg, trace[0].0.files, trace[|trace| - 1].0.files);
    CallGenerations(cfg, trace, moves, 0, i - 1);
    CallGenerations(cfg, trace, moves, i - 1, i);
    CallGenerations(cfg, trace, moves, i, |trace| - 1);
  }

  /** P12 over a whole call: if CURRENT is at the end what it was at the beginning, the call does not fail, and its
      fold absorbs everything appended before it began, whatever is appended, folded, collected or deleted
      meanwhile; and it returns nothing that was never appended. */
  lemma UndisturbedCallIsComplete(cfg: Config, trace: seq<(State, Reader)>, moves: seq<Move>)
    requires Separate(cfg) && Call(cfg, trace, moves)
    requires SameHead(cfg, trace[0].0.files, Final(trace).files)
    ensures !Answer(trace).at.Failed?
    ensures Answer(trace).at.Done? ==>
              && (forall e | Before(trace, e) :: Absorbed(e.1, Returned(Answer(trace))) && Absorbed(e.1, Fold(Returned(Answer(trace)))))
              && AllLogged(Returned(Answer(trace)), Final(trace).log)
  {
    hide *;
    CallLength(cfg, trace, moves);
    EndsThere(trace);
    CallOnTrack(cfg, trace, moves, |trace| - 1);
    var s, rd := Final(trace), Answer(trace);
    OnTrackParts(cfg, s.files, s.log, rd);
    if rd.at.Done? {
      CallIsCompleteExactly(cfg, trace, moves);
      BetweenNothing(cfg, trace);
      CallInv(cfg, trace, moves, |trace| - 1);
      BaseLogged(cfg, s);
      BothLogged(rd.base, rd.found, s.log);
      ReturnedParts(rd);
      forall e | Before(trace, e) ensures Absorbed(e.1, Fold(Returned(rd))) { FoldAbsorbsSame(Returned(rd), e.1); }
    }
  }

  lemma OnTrackParts(cfg: Config, f: Files, log: Log, rd: Reader)
    requires OnTrack(cfg, f, log, rd)
    ensures !rd.at.Failed? && AllLogged(rd.found, log) && (rd.at.Done? ==> rd.base == Base(cfg, f))
  {
    hide Base, Current, InSource, AllLogged;
  }

  lemma BetweenNothing(cfg: Config, trace: seq<(State, Reader)>)
    requires trace != [] && Answer(trace).base == Base(cfg, Final(trace).files)
    ensures forall e :: !CommittedBetween(cfg, trace, e)
  {
    hide Base, Absorbed, Answer, Final;
  }

  lemma BaseLogged(cfg: Config, s: State)
    requires Inv(cfg, s)
    ensures AllLogged(Base(cfg, s.files), s.log)
  {
    hide L.Inv, CycleInv, Base, Fold, LogOk, SourcesLogged, CommitIntact, FrontierOk, AllAccounted, Eligible;
    forall b | b in Base(cfg, s.files) ensures exists q :: (q, b) in s.log { assert Logged(s.log, b); }
  }

  lemma BothLogged(a: seq<Record>, b: seq<Record>, log: Log)
    requires AllLogged(a, log) && AllLogged(b, log)
    ensures AllLogged(a + b, log)
  {}

  lemma ReturnedParts(rd: Reader)
    ensures Returned(rd) == rd.base + rd.found
  {}
}
