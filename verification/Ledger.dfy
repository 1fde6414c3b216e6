/** What one cycle keeps true of the files, step by step, whatever is appended meanwhile: every record
    ever appended is still in its file or absorbed by the committed generation. */
module Ledger {
  import opened Text
  import opened Folding
  import opened Codec
  import opened Naming
  import opened Blobs
  import opened CompactCycle

  /** Everything ever appended: the path written and the record. */
  type Log = set<(string, Record)>

  /** The index does not live inside a source. */
  predicate Separate(cfg: Config) {
    forall s | s in cfg.sources :: !(s + "/" <= cfg.root + "/")
  }

  predicate InSource(cfg: Config, p: string) {
    exists s :: s in cfg.sources && Under(s, p)
  }

  /** Where a log record may live: under a source, and not named like a generation. */
  predicate SourcePath(cfg: Config, p: string) {
    InSource(cfg, p) && !(CHECKPOINT <= Basename(p))
  }

  /** The number of the committed generation, 0 before the first commit. */
  function Generation(cfg: Config, f: Files): nat {
    var cur := Current(cfg);
    if cur in f && f[cur].MetaBlob? then f[cur].meta.generation else 0
  }

  /** `watermark`. */
  function Mark(cfg: Config, f: Files): Option<seq<string>> {
    if Current(cfg) in f && f[Current(cfg)].MetaBlob? then f[Current(cfg)].meta.folded else None
  }

  /** The paths the watermark names. */
  function Frontier(cfg: Config, f: Files): seq<string> {
    if Mark(cfg, f).Some? then Mark(cfg, f).value else []
  }

  /** `read_current`: the records of the checkpoint CURRENT names; `None` without CURRENT or checkpoint, or
      where the source raises. */
  function ReadCurrent(cfg: Config, f: Files): Option<seq<Record>> {
    var cur := Current(cfg);
    if cur !in f || !f[cur].MetaBlob? then None
    else
      var path := cfg.root + "/" + f[cur].meta.checkpoint;
      if path in f && f[path].Bytes? then Decode(cfg.codec, f[path].bytes) else None
  }

  /** The records of the committed generation. */
  function Base(cfg: Config, f: Files): seq<Record> {
    var read := ReadCurrent(cfg, f);
    if read.Some? then read.value else []
  }

  ghost predicate Logged(log: Log, r: Record) {
    exists p :: (p, r) in log && Eligible(p)
  }

  ghost predicate IsRecord(f: Files, p: string) {
    p in f && f[p].RecordBlob?
  }

  /** The record is still in its file, or something that outranks it is, or the generation absorbs it. */
  ghost predicate Accounted(f: Files, base: seq<Record>, p: string, r: Record) {
    (IsRecord(f, p) && Below(r, f[p].rec)) || Absorbed(r, base)
  }

  ghost predicate LogOk(cfg: Config, log: Log) {
    forall e | e in log :: SourcePath(cfg, e.0) && RoundTrips(cfg.codec, e.1)
  }

  ghost predicate SourcesLogged(cfg: Config, f: Files, log: Log) {
    forall p | IsRecord(f, p) && InSource(cfg, p) :: (p, f[p].rec) in log
  }

  ghost predicate AllAccounted(cfg: Config, f: Files, log: Log) {
    forall e | e in log :: Accounted(f, Base(cfg, f), e.0, e.1)
  }

  /** CURRENT, once there, names an existing checkpoint that is the one of its own generation, records that
      checkpoint's hash, and the checkpoint is the encoding of what it reads back as. */
  ghost predicate CommitIntact(cfg: Config, f: Files) {
    var cur := Current(cfg);
    cur in f ==>
      && f[cur].MetaBlob?
      && f[cur].meta.generation >= 1
      && f[cur].meta.checkpoint == CheckpointName(f[cur].meta.generation)
      && Checkpoint(cfg, f[cur].meta.generation) in f
      && f[Checkpoint(cfg, f[cur].meta.generation)] == Bytes(f[cur].meta.hash)
      && ReadCurrent(cfg, f).Some?
      && f[cur].meta.hash == Encode(cfg.codec, Base(cfg, f))
  }

  /** The committed generation is a fold, of logged records. */
  ghost predicate BaseOk(cfg: Config, f: Files, log: Log) {
    && Fold(Base(cfg, f)) == Base(cfg, f)
    && forall r | r in Base(cfg, f) :: Logged(log, r)
  }

  /** Whatever lies at a path of the recorded frontier is absorbed by the committed generation. */
  ghost predicate FrontierOk(cfg: Config, f: Files, log: Log) {
    forall p | p in Frontier(cfg, f) ::
      && InSource(cfg, p)
      && (IsRecord(f, p) ==> Absorbed(f[p].rec, Base(cfg, f)))
      && (exists r :: (p, r) in log && Absorbed(r, Base(cfg, f)))
  }

  ghost predicate FilesInv(cfg: Config, f: Files, log: Log) {
    && LogOk(cfg, log)
    && SourcesLogged(cfg, f, log)
    && CommitIntact(cfg, f)
    && BaseOk(cfg, f, log)
    && FrontierOk(cfg, f, log)
    && AllAccounted(cfg, f, log)
  }

  /* ---- The running cycle ---- */

  predicate BeforeMeta(pc: Pc) { pc.MetaExists? || pc.MetaRead? }

  predicate BeforeBase(pc: Pc) {
    BeforeMeta(pc) || pc.MarkExists? || pc.MarkRead? || pc.ListSource? || pc.ReadSource? || pc.BaseExists? ||
        pc.BaseRead? || pc.BodyExists? || pc.BodyRead?
  }

  predicate Committing(pc: Pc) { pc.HeadExists? || pc.TagExists? || pc.TagRead? || pc.Swap? || pc.Create? }

  predicate Cleaning(pc: Pc) { pc.DeleteSource? || pc.ListIndex? || pc.Collect? }

  /** The file at an enumerated path still carries no more than what was read from it. */
  ghost predicate Unchanged(f: Files, p: string, r: Record) {
    p in f ==> f[p].RecordBlob? && Below(f[p].rec, r)
  }

  /** The cycle may still delete, or put on the frontier, what it enumerated at position `j`. */
  predicate Pending(c: Cycle, j: nat) {
    j < |c.paths| && (if c.won then c.pc.DeleteSource? && c.consuming && c.next <= j else !c.pc.Over())
  }

  ghost predicate EnumeratedOk(cfg: Config, f: Files, log: Log, c: Cycle) {
    && |c.paths| == |c.recs|
    && (forall i | 0 <= i < |c.paths| :: (c.paths[i], c.recs[i]) in log && Eligible(c.paths[i]) && InSource(cfg, c.paths[i]))
    && (forall j: nat | Pending(c, j) :: Unchanged(f, c.paths[j], c.recs[j]))
    && (c.pc.ReadSource? ==> forall p | p in c.todo :: InSource(cfg, p))
  }

  ghost predicate ProgressOk(cfg: Config, f: Files, c: Cycle) {
    && !c.pc.Abandon?
    && (BeforeBase(c.pc) || c.pc.WriteBody? || Committing(c.pc) || c.pc == Finished(false) ==> !c.won)
    && (!c.won ==> c.next == 0 && c.removed == [])
    && (!c.won && !c.pc.Over() && !BeforeMeta(c.pc) ==> c.generation == Generation(cfg, f))
    && (c.pc.BodyExists? || c.pc.BodyRead? ==> Current(cfg) in f && c.name == CheckpointName(c.generation))
    && (c.pc.WriteBody? || Committing(c.pc) ==> c.base == Base(cfg, f))
    && (BeforeBase(c.pc) ==> c.base == [])
    && (BeforeMeta(c.pc) ==> c.generation == 0)
    && (Committing(c.pc) ==>
          && c.body == Encode(cfg.codec, Fold(c.base + c.recs))
          && Checkpoint(cfg, c.generation + 1) in f && f[Checkpoint(cfg, c.generation + 1)] == Bytes(c.body))
    && (c.pc.MetaRead? || c.pc.MarkRead? || c.pc.BaseRead? || c.pc.TagExists? || c.pc.TagRead? ==> Current(cfg) in f)
    && (c.pc.Swap? ==> Current(cfg) in f && c.tag == Some(f[Current(cfg)]))
    && (c.pc.Create? ==> Current(cfg) !in f)
    && (Cleaning(c.pc) || c.pc == Finished(true) ==> c.won)
    && (c.won && Cleaning(c.pc) ==> Generation(cfg, f) == c.generation + 1 && Covered(c.recs, Base(cfg, f)))
  }

  ghost predicate CycleInv(cfg: Config, f: Files, log: Log, c: Cycle) {
    EnumeratedOk(cfg, f, log, c) && ProgressOk(cfg, f, c)
  }

  lemma FreshInv(cfg: Config, f: Files, log: Log, consuming: bool, compactor: string)
    ensures CycleInv(cfg, f, log, Fresh(consuming, compactor))
  {}

  /* ---- Which files a step can touch ---- */

  lemma SourceIsNotIndexFile(cfg: Config, p: string, g: nat)
    requires Separate(cfg) && InSource(cfg, p)
    ensures p != Current(cfg) && p != Checkpoint(cfg, g)
  {
    var s :| s in cfg.sources && Under(s, p);
    CheckpointNameShape(g);
    IndexFileUnderSourceExactly(cfg.root, "CURRENT", s);
    IndexFileUnderSourceExactly(cfg.root, CheckpointName(g), s);
  }

  /** The committed generation is read off CURRENT and its checkpoint alone. */
  lemma BaseFrame(cfg: Config, f: Files, g: Files)
    requires CommitIntact(cfg, f)
    requires Current(cfg) in f <==> Current(cfg) in g
    requires Current(cfg) in f ==> f[Current(cfg)] == g[Current(cfg)]
    requires Current(cfg) in f ==>
               && Checkpoint(cfg, Generation(cfg, f)) in g
               && g[Checkpoint(cfg, Generation(cfg, f))] == f[Checkpoint(cfg, Generation(cfg, f))]
    ensures CommitIntact(cfg, g) && Base(cfg, g) == Base(cfg, f) && Generation(cfg, g) == Generation(cfg, f)
    ensures Frontier(cfg, g) == Frontier(cfg, f) && ReadCurrent(cfg, g) == ReadCurrent(cfg, f)
  {
    hide Encode, Decode, Current, CheckpointName;
  }

  /* ---- Steps that only read ---- */

  ghost predicate Reads(c: Cycle) {
    !c.pc.WriteBody? && !c.pc.Swap? && !c.pc.Create? && !c.pc.Abandon? && !c.pc.DeleteSource? && !c.pc.Collect?
  }

  lemma ReadsTouchNothing(cfg: Config, f: Files, c: Cycle, x: Input)
    requires Reads(c)
    ensures Step(cfg, f, c, x).0 == f
  {}

  /** A step that only reads keeps the cycle's books, the enumeration loop's lists excepted. */
  lemma ReadsKeepBooks(cfg: Config, f: Files, c: Cycle, x: Input)
    requires Reads(c)
    ensures
      var d := Step(cfg, f, c, x).1;
      && d.won == c.won && d.next == c.next && d.removed == c.removed && d.consuming == c.consuming
      && (if c.pc.ReadSource? then d == ReadNext(f, c, x) else d.paths == c.paths && d.recs == c.recs)
      && (c.pc.ListSource? && d.pc.ReadSource? ==> c.source < |cfg.sources| && d.todo == x.listing)
  {
    hide Decode, Current, ReadNext, Encode, Fold, Commit, Garbage, Checkpoint, CheckpointName;
    match c.pc
    case MetaExists =>
    case MetaRead =>
    case MarkExists =>
    case MarkRead =>
    case ListSource =>
    case ReadSource => ReadNextFrame(f, c, x);
    case BaseExists =>
    case BaseRead =>
    case BodyExists =>
    case BodyRead =>
    case HeadExists =>
    case TagExists =>
    case TagRead =>
    case ListIndex =>
    case Finished(_) =>
    case Raised =>
  }

  /** Where a step that only reads can take the cycle. */
  lemma ReadsKeepPlace(cfg: Config, f: Files, c: Cycle, x: Input)
    requires Reads(c)
    ensures
      var d := Step(cfg, f, c, x).1;
      && (d.pc.Over() && !c.pc.Over() ==> d.pc.Raised? || d.pc == Finished(false))
      && (c.pc.Over() ==> d == c)
      && (Cleaning(d.pc) <==> Cleaning(c.pc))
      && !d.pc.DeleteSource?
      && (d.pc.ReadSource? ==> c.pc.ListSource? || c.pc.ReadSource?)
  {
    hide Decode, Current, ReadNext, Encode, Fold, Commit, Garbage, Checkpoint, CheckpointName;
    match c.pc
    case MetaExists =>
    case MetaRead =>
    case MarkExists =>
    case MarkRead =>
    case ListSource =>
    case ReadSource => ReadNextFrame(f, c, x);
    case BaseExists =>
    case BaseRead =>
    case BodyExists =>
    case BodyRead =>
    case HeadExists =>
    case TagExists =>
    case TagRead =>
    case ListIndex =>
    case Finished(_) =>
    case Raised =>
  }

  lemma ReadKeepsProgress(cfg: Config, f: Files, c: Cycle, x: Input)
    requires CommitIntact(cfg, f) && ProgressOk(cfg, f, c) && Reads(c)
    ensures ProgressOk(cfg, f, Step(cfg, f, c, x).1)
  {
    if c.pc.BaseExists? || c.pc.BaseRead? || c.pc.BodyExists? || c.pc.BodyRead? {
      ReadBaseProgress(cfg, f, c, x);
    } else if BeforeBase(c.pc) {
      EnumerationProgress(cfg, f, c, x);
    } else {
      CommitReadProgress(cfg, f, c, x);
    }
  }

  lemma EnumerationProgress(cfg: Config, f: Files, c: Cycle, x: Input)
    requires CommitIntact(cfg, f) && ProgressOk(cfg, f, c)
    requires BeforeMeta(c.pc) || c.pc.MarkExists? || c.pc.MarkRead? || c.pc.ListSource? || c.pc.ReadSource?
    ensures ProgressOk(cfg, f, Step(cfg, f, c, x).1)
  {
    hide *;
    hide ProgressOk;
    if BeforeMeta(c.pc) || c.pc.MarkExists? || c.pc.MarkRead? {
      HeadProgress(cfg, f, c, x);
    } else {
      ListProgress(cfg, f, c, x);
    }
  }

  lemma HeadProgress(cfg: Config, f: Files, c: Cycle, x: Input)
    requires CommitIntact(cfg, f) && ProgressOk(cfg, f, c)
    requires BeforeMeta(c.pc) || c.pc.MarkExists? || c.pc.MarkRead?
    ensures ProgressOk(cfg, f, Step(cfg, f, c, x).1)
  {
    hide Decode, Encode, Fold, Covered, ReadCurrent, Base, Checkpoint, ReadNext, CheckpointName;
    match c.pc
    case MetaExists =>
    case MetaRead =>
    case MarkExists =>
    case MarkRead =>
  }

  lemma ListProgress(cfg: Config, f: Files, c: Cycle, x: Input)
    requires ProgressOk(cfg, f, c) && (c.pc.ListSource? || c.pc.ReadSource?)
    ensures ProgressOk(cfg, f, Step(cfg, f, c, x).1)
  {
    hide Decode, Encode, Fold, Covered, Base, Checkpoint, ReadNext, CheckpointName, Generation, Current;
    if c.pc.ReadSource? { ReadNextFrame(f, c, x); }
  }

  /** Reading the next listed file changes nothing but the lists, and where the cycle stands. */
  lemma ReadNextFrame(f: Files, c: Cycle, x: Input)
    requires c.pc.ReadSource?
    ensures
      var d := ReadNext(f, c, x);
      d == c.(pc := d.pc, todo := d.todo, paths := d.paths, recs := d.recs) && (d.pc.ReadSource? || d.pc.ListSource?)
  {
    hide Eligible, PastWatermark;
  }

  lemma ReadBaseProgress(cfg: Config, f: Files, c: Cycle, x: Input)
    requires CommitIntact(cfg, f) && ProgressOk(cfg, f, c)
    requires c.pc.BaseExists? || c.pc.BaseRead? || c.pc.BodyExists? || c.pc.BodyRead?
    ensures ProgressOk(cfg, f, Step(cfg, f, c, x).1)
  {
    hide Decode, Encode, Fold, Covered;
  }

  lemma CommitReadProgress(cfg: Config, f: Files, c: Cycle, x: Input)
    requires ProgressOk(cfg, f, c) && Reads(c) && !BeforeBase(c.pc)
    ensures ProgressOk(cfg, f, Step(cfg, f, c, x).1)
  {
    hide Decode, Encode, Fold, Covered, Base;
  }

  /** The enumeration is unaffected by a step that neither extends it nor makes more of it pending. */
  lemma SameEnumeration(cfg: Config, f: Files, log: Log, c: Cycle, d: Cycle)
    requires EnumeratedOk(cfg, f, log, c)
    requires d.paths == c.paths && d.recs == c.recs
    requires forall j: nat | Pending(d, j) :: Pending(c, j)
    requires d.pc.ReadSource? ==> forall p | p in d.todo :: InSource(cfg, p)
    ensures EnumeratedOk(cfg, f, log, d)
  {
    hide Unchanged, InSource;
  }

  lemma ReadNextKeepsEnumerated(cfg: Config, f: Files, log: Log, c: Cycle, x: Input)
    requires SourcesLogged(cfg, f, log) && EnumeratedOk(cfg, f, log, c) && c.pc.ReadSource? && !c.won
    ensures EnumeratedOk(cfg, f, log, ReadNext(f, c, x))
  {
    hide InSource, Leq, Eligible, PastWatermark;
    var d := ReadNext(f, c, x);
    if c.todo != [] {
      var p := c.todo[0];
      assert InSource(cfg, p);
      if d.paths != c.paths {
        assert d.paths[|c.paths|] == p && d.recs[|c.paths|] == f[p].rec;
        LeqReflexive(f[p].rec);
        forall i | 0 <= i < |c.paths| ensures d.paths[i] == c.paths[i] && d.recs[i] == c.recs[i] {}
        forall j: nat | Pending(d, j) ensures Unchanged(f, d.paths[j], d.recs[j]) {
          if j < |c.paths| { assert Pending(c, j); }
        }
      } else {
        SameEnumeration(cfg, f, log, c, d);
      }
    }
  }

  lemma ReadKeepsEnumerated(cfg: Config, f: Files, log: Log, c: Cycle, x: Input)
    requires FilesInv(cfg, f, log) && CycleInv(cfg, f, log, c) && Reads(c) && ListingOk(cfg, c, x)
    ensures EnumeratedOk(cfg, f, log, Step(cfg, f, c, x).1)
  {
    hide Step, Fold, Covered, Unchanged, EnumeratedOk, FilesInv, ReadNext, CommitIntact, Encode, Decode, Base,
        Generation, Current, Checkpoint;
    ReadsKeepBooks(cfg, f, c, x);
    ReadsKeepPlace(cfg, f, c, x);
    var d := Step(cfg, f, c, x).1;
    if c.pc.ReadSource? {
      ReadNextKeepsEnumerated(cfg, f, log, c, x) by { FilesInvParts(cfg, f, log); }
    } else {
      SameEnumeration(cfg, f, log, c, d);
    }
  }

  lemma FilesInvParts(cfg: Config, f: Files, log: Log)
    requires FilesInv(cfg, f, log)
    ensures LogOk(cfg, log) && SourcesLogged(cfg, f, log) && CommitIntact(cfg, f) && BaseOk(cfg, f, log) &&
        FrontierOk(cfg, f, log) && AllAccounted(cfg, f, log)
  {}

  /* ---- Steps that write index files ---- */

  /** The two stores agree on every path under a source. */
  ghost predicate SameSources(cfg: Config, f: Files, g: Files) {
    forall p | InSource(cfg, p) :: (p in f <==> p in g) && (p in f ==> f[p] == g[p])
  }

  lemma EnumeratedFrame(cfg: Config, f: Files, g: Files, log: Log, c: Cycle)
    requires SameSources(cfg, f, g) && EnumeratedOk(cfg, f, log, c)
    ensures EnumeratedOk(cfg, g, log, c)
  {
    hide InSource, Leq;
  }

  lemma SourcesFrame(cfg: Config, f: Files, g: Files, log: Log)
    requires LogOk(cfg, log) && SameSources(cfg, f, g)
    requires SourcesLogged(cfg, f, log)
    ensures SourcesLogged(cfg, g, log)
    ensures forall e | e in log :: IsRecord(f, e.0) <==> IsRecord(g, e.0)
    ensures forall e | e in log && IsRecord(f, e.0) :: f[e.0] == g[e.0]
  {
    hide InSource;
  }

  lemma FilesFrame(cfg: Config, f: Files, g: Files, log: Log)
    requires FilesInv(cfg, f, log) && SameSources(cfg, f, g) && CommitIntact(cfg, g)
    requires Base(cfg, g) == Base(cfg, f) && Frontier(cfg, g) == Frontier(cfg, f)
    ensures FilesInv(cfg, g, log)
  {
    hide InSource, Base, Frontier, CommitIntact, Fold, Absorbed, Below, RoundTrips;
    SourcesFrame(cfg, f, g, log);
  }

  lemma IndexWriteKeepsSources(cfg: Config, f: Files, path: string, b: Blob)
    requires forall p | InSource(cfg, p) :: p != path
    ensures SameSources(cfg, f, f[path := b]) && SameSources(cfg, f, f - {path})
  {}

  lemma NotIndexFiles(cfg: Config, g: nat)
    requires Separate(cfg)
    ensures forall p | InSource(cfg, p) :: p != Current(cfg) && p != Checkpoint(cfg, g)
  {
    hide InSource;
    forall p | InSource(cfg, p) ensures p != Current(cfg) && p != Checkpoint(cfg, g) { SourceIsNotIndexFile(cfg, p, g); }
  }

  /** Writing the next generation's file keeps the store's invariant and the enumeration. */
  lemma NextCheckpointKeeps(cfg: Config, f: Files, log: Log, c: Cycle, b: Blob)
    requires Separate(cfg) && FilesInv(cfg, f, log) && EnumeratedOk(cfg, f, log, c) && c.generation == Generation(cfg, f)
    ensures FilesInv(cfg, f[Checkpoint(cfg, c.generation + 1) := b], log)
    ensures EnumeratedOk(cfg, f[Checkpoint(cfg, c.generation + 1) := b], log, c)
    ensures Base(cfg, f[Checkpoint(cfg, c.generation + 1) := b]) == Base(cfg, f)
    ensures Generation(cfg, f[Checkpoint(cfg, c.generation + 1) := b]) == Generation(cfg, f)
  {
    hide *;
    var path := Checkpoint(cfg, c.generation + 1);
    IndexPathsOf(cfg, c.generation + 1, c.generation);
    NotIndexFiles(cfg, c.generation + 1);
    IndexWriteKeepsSources(cfg, f, path, b);
    FilesInvParts(cfg, f, log);
    WriteFrame(cfg, f, path, b);
    FilesFrame(cfg, f, f[path := b], log);
    EnumeratedFrame(cfg, f, f[path := b], log, c);
  }

  lemma WriteBodyKeeps(cfg: Config, f: Files, log: Log, c: Cycle, x: Input)
    requires Separate(cfg) && FilesInv(cfg, f, log) && CycleInv(cfg, f, log, c) && c.pc.WriteBody?
    ensures FilesInv(cfg, Step(cfg, f, c, x).0, log)
    ensures CycleInv(cfg, Step(cfg, f, c, x).0, log, Step(cfg, f, c, x).1)
  {
    hide Encode, Fold, InSource, FilesInv, EnumeratedOk, Base, Checkpoint, Generation;
    var (g, d) := Step(cfg, f, c, x);
    NextCheckpointKeeps(cfg, f, log, c, Bytes(d.body));
    SameEnumeration(cfg, g, log, c, d);
    assert ProgressOk(cfg, g, d);
  }

  lemma IndexPathsOf(cfg: Config, g: nat, h: nat)
    ensures Current(cfg) != Checkpoint(cfg, g)
    ensures Checkpoint(cfg, g) == Checkpoint(cfg, h) ==> g == h
    ensures Basename(Current(cfg)) == "CURRENT" && !(CHECKPOINT <= "CURRENT")
    ensures Basename(Checkpoint(cfg, g)) == CheckpointName(g)
  {
    IndexPaths(cfg.root, g, h);
  }

  /** Writing a file other than CURRENT and the committed checkpoint leaves the commit as it was. */
  lemma WriteFrame(cfg: Config, f: Files, path: string, b: Blob)
    requires CommitIntact(cfg, f) && path != Current(cfg)
    requires path != Checkpoint(cfg, Generation(cfg, f))
    ensures
      var g := f[path := b];
      CommitIntact(cfg, g) && Base(cfg, g) == Base(cfg, f) && Generation(cfg, g) == Generation(cfg, f) &&
          Frontier(cfg, g) == Frontier(cfg, f)
    ensures
      var g := f - {path};
      CommitIntact(cfg, g) && Base(cfg, g) == Base(cfg, f) && Generation(cfg, g) == Generation(cfg, f) &&
          Frontier(cfg, g) == Frontier(cfg, f)
  {
    BaseFrame(cfg, f, f[path := b]);
    BaseFrame(cfg, f, f - {path});
  }

  /* ---- The commit ---- */

  lemma FoldInputLogged(cfg: Config, f: Files, log: Log, c: Cycle)
    requires LogOk(cfg, log) && BaseOk(cfg, f, log) && EnumeratedOk(cfg, f, log, c) && c.base == Base(cfg, f)
    ensures forall r | r in Fold(c.base + c.recs) :: Logged(log, r) && RoundTrips(cfg.codec, r)
  {
    hide Fold, Base, RoundTrips, SourcePath, Unchanged, InSource, Eligible, Covered, KeysIncrease;
    FoldMeetsSpec(c.base + c.recs);
    forall r | r in Fold(c.base + c.recs) ensures Logged(log, r) && RoundTrips(cfg.codec, r) {
      if r in c.recs {
        var i :| 0 <= i < |c.recs| && c.recs[i] == r;
        assert (c.paths[i], r) in log;
      }
    }
  }

  /** The store after the commit, and what it makes `read_current` return. */
  lemma CommittedBase(cfg: Config, f: Files, c: Cycle, now: int)
    requires Checkpoint(cfg, c.generation + 1) in f && f[Checkpoint(cfg, c.generation + 1)] == Bytes(c.body)
    requires c.body == Encode(cfg.codec, Fold(c.base + c.recs))
    requires forall r | r in Fold(c.base + c.recs) :: RoundTrips(cfg.codec, r)
    ensures
      var g := f[Current(cfg) := MetaBlob(NewMeta(c, now))];
      && Base(cfg, g) == Fold(c.base + c.recs) && CommitIntact(cfg, g)
      && Generation(cfg, g) == c.generation + 1
      && Frontier(cfg, g) == if c.consuming then [] else c.paths
  {
    hide *;
    var g := f[Current(cfg) := MetaBlob(NewMeta(c, now))];
    DecodeEncode(cfg.codec, Fold(c.base + c.recs));
    IndexPathsOf(cfg, c.generation + 1, c.generation);
    CommittedRead(cfg, f, g, c, now);
    CommittedParts(cfg, g, c, now);
  }

  /** What CURRENT's new document says. */
  lemma CommittedRead(cfg: Config, f: Files, g: Files, c: Cycle, now: int)
    requires g == f[Current(cfg) := MetaBlob(NewMeta(c, now))] && Current(cfg) != Checkpoint(cfg, c.generation + 1)
    requires Checkpoint(cfg, c.generation + 1) in f && f[Checkpoint(cfg, c.generation + 1)] == Bytes(c.body)
    ensures Current(cfg) in g && g[Current(cfg)] == MetaBlob(NewMeta(c, now))
    ensures Checkpoint(cfg, c.generation + 1) in g && g[Checkpoint(cfg, c.generation + 1)] == Bytes(c.body)
    ensures ReadCurrent(cfg, g) == Decode(cfg.codec, c.body)
  {
    hide Encode, Decode, CheckpointName, Fold, Current;
  }

  lemma CommittedParts(cfg: Config, g: Files, c: Cycle, now: int)
    requires Current(cfg) in g && g[Current(cfg)] == MetaBlob(NewMeta(c, now))
    requires Checkpoint(cfg, c.generation + 1) in g && g[Checkpoint(cfg, c.generation + 1)] == Bytes(c.body)
    requires ReadCurrent(cfg, g) == Some(Fold(c.base + c.recs)) && c.body == Encode(cfg.codec, Fold(c.base + c.recs))
    ensures Base(cfg, g) == Fold(c.base + c.recs) && CommitIntact(cfg, g)
    ensures Generation(cfg, g) == c.generation + 1
    ensures Frontier(cfg, g) == if c.consuming then [] else c.paths
  {
    hide Encode, Decode, CheckpointName, Fold, Current, Checkpoint, ReadCurrent;
  }

  lemma NewBaseCovers(cfg: Config, f: Files, g: Files, log: Log, base: seq<Record>, recs: seq<Record>)
    requires LogOk(cfg, log) && SameSources(cfg, f, g) && AllAccounted(cfg, f, log)
    requires base == Base(cfg, f) && Base(cfg, g) == Fold(base + recs)
    ensures AllAccounted(cfg, g, log) && Covered(recs, Base(cfg, g)) && Fold(Base(cfg, g)) == Base(cfg, g)
  {
    hide Fold, Base, Below, InSource, RoundTrips, Covered;
    FoldMeetsSpec(base + recs);
    FoldIdempotent(base + recs);
    CoveredParts(base, recs, Fold(base + recs));
    forall e | e in log ensures Accounted(g, Base(cfg, g), e.0, e.1) {
      assert Accounted(f, base, e.0, e.1) && SourcePath(cfg, e.0);
      if Absorbed(e.1, base) { CoveredTransitive(e.1, base, Fold(base + recs)); }
    }
  }

  lemma CoveredParts(a: seq<Record>, b: seq<Record>, c: seq<Record>)
    requires Covered(a + b, c)
    ensures Covered(a, c) && Covered(b, c)
  {
    hide Absorbed;
    assert forall r | r in a :: r in a + b;
    assert forall r | r in b :: r in a + b;
  }

  lemma NewFrontierOk(cfg: Config, f: Files, g: Files, log: Log, c: Cycle)
    requires SameSources(cfg, f, g) && EnumeratedOk(cfg, f, log, c) && !c.won && !c.pc.Over()
    requires Covered(c.recs, Base(cfg, g))
    requires Frontier(cfg, g) == [] || Frontier(cfg, g) == c.paths
    ensures FrontierOk(cfg, g, log)
  {
    hide Base, Frontier, InSource, Leq, Eligible;
    forall p | p in Frontier(cfg, g)
      ensures InSource(cfg, p)
      ensures IsRecord(g, p) ==> Absorbed(g[p].rec, Base(cfg, g))
      ensures exists r :: (p, r) in log && Absorbed(r, Base(cfg, g))
    {
      var j: nat :| j < |c.paths| && c.paths[j] == p;
      assert Pending(c, j);
      assert c.recs[j] in c.recs;
      assert (p, c.recs[j]) in log;
      if IsRecord(g, p) { AbsorbedTransitive(g[p].rec, c.recs[j], Base(cfg, g)); }
    }
  }

  lemma CommitKeepsFiles(cfg: Config, f: Files, log: Log, c: Cycle, now: int)
    requires Separate(cfg) && FilesInv(cfg, f, log) && EnumeratedOk(cfg, f, log, c) && ProgressOk(cfg, f, c)
    requires Committing(c.pc)
    ensures
      var g := f[Current(cfg) := MetaBlob(NewMeta(c, now))];
      && FilesInv(cfg, g, log) && SameSources(cfg, f, g)
      && Generation(cfg, g) == c.generation + 1 && Covered(c.recs, Base(cfg, g))
      && Base(cfg, g) == Fold(c.base + c.recs)
  {
    hide *;
    var g := f[Current(cfg) := MetaBlob(NewMeta(c, now))];
    FilesInvParts(cfg, f, log);
    CommittingParts(cfg, f, c);
    FoldInputLogged(cfg, f, log, c);
    CommittedBase(cfg, f, c, now);
    NotIndexFiles(cfg, 0);
    IndexWriteKeepsSources(cfg, f, Current(cfg), MetaBlob(NewMeta(c, now)));
    SourcesFrame(cfg, f, g, log);
    NewBaseCovers(cfg, f, g, log, c.base, c.recs);
    NewFrontierOk(cfg, f, g, log, c);
    FilesInvFrom(cfg, g, log);
  }

  lemma CommittingParts(cfg: Config, f: Files, c: Cycle)
    requires ProgressOk(cfg, f, c) && Committing(c.pc)
    ensures !c.won && !c.pc.Over() && c.base == Base(cfg, f)
    ensures c.body == Encode(cfg.codec, Fold(c.base + c.recs))
    ensures Checkpoint(cfg, c.generation + 1) in f && f[Checkpoint(cfg, c.generation + 1)] == Bytes(c.body)
  {}

  lemma FilesInvFrom(cfg: Config, g: Files, log: Log)
    requires LogOk(cfg, log) && SourcesLogged(cfg, g, log) && CommitIntact(cfg, g) && AllAccounted(cfg, g, log) &&
        FrontierOk(cfg, g, log)
    requires Fold(Base(cfg, g)) == Base(cfg, g) && forall r | r in Base(cfg, g) :: Logged(log, r)
    ensures FilesInv(cfg, g, log)
  {}

  lemma CommitKeeps(cfg: Config, f: Files, log: Log, c: Cycle, x: Input)
    requires Separate(cfg) && FilesInv(cfg, f, log) && CycleInv(cfg, f, log, c) && (c.pc.Swap? || c.pc.Create?)
    ensures FilesInv(cfg, Step(cfg, f, c, x).0, log)
    ensures CycleInv(cfg, Step(cfg, f, c, x).0, log, Step(cfg, f, c, x).1)
    ensures Step(cfg, f, c, x).1.won
  {
    hide Encode, Fold, InSource, FilesInv, EnumeratedOk, Base, Checkpoint, Generation, NewMeta, Covered, SameSources;
    var (g, d) := Step(cfg, f, c, x);
    CommitKeepsFiles(cfg, f, log, c, x.now);
    EnumeratedFrame(cfg, f, g, log, c);
    SameEnumeration(cfg, g, log, c, d);
    assert ProgressOk(cfg, g, d);
  }

  /* ---- Deleting sources and collecting garbage ---- */

  lemma DeleteKeepsFiles(cfg: Config, f: Files, log: Log, p: string)
    requires Separate(cfg) && FilesInv(cfg, f, log) && InSource(cfg, p)
    requires IsRecord(f, p) ==> Absorbed(f[p].rec, Base(cfg, f))
    ensures FilesInv(cfg, f - {p}, log)
    ensures Base(cfg, f - {p}) == Base(cfg, f) && Generation(cfg, f - {p}) == Generation(cfg, f)
  {
    hide *;
    SourceIsNotIndexFile(cfg, p, Generation(cfg, f));
    FilesInvParts(cfg, f, log);
    WriteFrame(cfg, f, p, Bytes(""));
    RemovedAccounted(cfg, f, log, p);
    RemovedSources(cfg, f, log, p);
    BaseOkParts(cfg, f, log);
    FilesInvFrom(cfg, f - {p}, log);
  }

  lemma BaseOkParts(cfg: Config, f: Files, log: Log)
    requires BaseOk(cfg, f, log)
    ensures Fold(Base(cfg, f)) == Base(cfg, f) && forall r | r in Base(cfg, f) :: Logged(log, r)
  {}

  lemma RemovedAccounted(cfg: Config, f: Files, log: Log, p: string)
    requires AllAccounted(cfg, f, log) && Base(cfg, f - {p}) == Base(cfg, f)
    requires IsRecord(f, p) ==> Absorbed(f[p].rec, Base(cfg, f))
    ensures AllAccounted(cfg, f - {p}, log)
  {
    hide Base, Below, Absorbed;
    forall e | e in log ensures Accounted(f - {p}, Base(cfg, f), e.0, e.1) {
      assert Accounted(f, Base(cfg, f), e.0, e.1);
      if e.0 == p && IsRecord(f, p) && Below(e.1, f[p].rec) { AbsorbedTransitive(e.1, f[p].rec, Base(cfg, f)); }
    }
  }

  lemma RemovedSources(cfg: Config, f: Files, log: Log, p: string)
    requires SourcesLogged(cfg, f, log) && FrontierOk(cfg, f, log)
    requires Base(cfg, f - {p}) == Base(cfg, f) && Frontier(cfg, f - {p}) == Frontier(cfg, f)
    ensures SourcesLogged(cfg, f - {p}, log) && FrontierOk(cfg, f - {p}, log)
  {
    hide Base, Frontier, InSource, Absorbed;
  }

  lemma DeleteKeeps(cfg: Config, f: Files, log: Log, c: Cycle, x: Input)
    requires Separate(cfg) && FilesInv(cfg, f, log) && CycleInv(cfg, f, log, c) && c.pc.DeleteSource?
    ensures FilesInv(cfg, Step(cfg, f, c, x).0, log)
    ensures CycleInv(cfg, Step(cfg, f, c, x).0, log, Step(cfg, f, c, x).1)
  {
    hide Encode, Fold, InSource, FilesInv, Base, Checkpoint, Generation, NewMeta, Covered, EnumeratedOk;
    var (g, d) := Step(cfg, f, c, x);
    if c.consuming && c.next < |c.paths| {
      PendingIsAbsorbed(cfg, f, log, c);
      DeleteKeepsFiles(cfg, f, log, c.paths[c.next]);
      ShrinkEnumerated(cfg, f, g, log, c, d);
    } else {
      SameEnumeration(cfg, g, log, c, d);
    }
    assert ProgressOk(cfg, g, d);
  }

  lemma PendingIsAbsorbed(cfg: Config, f: Files, log: Log, c: Cycle)
    requires EnumeratedOk(cfg, f, log, c) && ProgressOk(cfg, f, c) && c.pc.DeleteSource? && c.consuming && c.next < |c.paths|
    ensures InSource(cfg, c.paths[c.next])
    ensures IsRecord(f, c.paths[c.next]) ==> Absorbed(f[c.paths[c.next]].rec, Base(cfg, f))
  {
    hide InSource, Base, Generation, Leq, Absorbed;
    var p, r := c.paths[c.next], c.recs[c.next];
    assert Pending(c, c.next);
    if IsRecord(f, p) { AbsorbedTransitive(f[p].rec, r, Base(cfg, f)); }
  }

  lemma ShrinkEnumerated(cfg: Config, f: Files, g: Files, log: Log, c: Cycle, d: Cycle)
    requires EnumeratedOk(cfg, f, log, c) && c.pc.DeleteSource? && d.pc.DeleteSource?
    requires forall p | p in g :: p in f && g[p] == f[p]
    requires d.paths == c.paths && d.recs == c.recs && d.consuming == c.consuming && d.won == c.won && d.next == c.next + 1
    ensures EnumeratedOk(cfg, g, log, d)
  {
    hide InSource, Leq;
    forall j: nat | Pending(d, j) ensures Unchanged(g, d.paths[j], d.recs[j]) {
      assert c.won ==> Pending(c, j);
    }
  }

  /** Garbage collection never takes CURRENT, the committed checkpoint or a logged record's file. */
  lemma GarbageIsSafe(cfg: Config, f: Files, log: Log, q: string)
    requires CommitIntact(cfg, f) && Current(cfg) in f && LogOk(cfg, log)
    requires Garbage(q, CheckpointName(Generation(cfg, f)))
    ensures q != Current(cfg) && q != Checkpoint(cfg, Generation(cfg, f))
    ensures forall e | e in log :: e.0 != q
  {
    hide InSource, RoundTrips, Base, ReadCurrent;
    IndexPathsOf(cfg, Generation(cfg, f), 0);
  }

  lemma CollectKeepsFiles(cfg: Config, f: Files, log: Log, q: string)
    requires FilesInv(cfg, f, log) && Current(cfg) in f && Garbage(q, CheckpointName(Generation(cfg, f)))
    ensures FilesInv(cfg, f - {q}, log)
    ensures Base(cfg, f - {q}) == Base(cfg, f) && Generation(cfg, f - {q}) == Generation(cfg, f)
  {
    hide *;
    FilesInvParts(cfg, f, log);
    GarbageIsSafe(cfg, f, log, q);
    WriteFrame(cfg, f, q, Bytes(""));
    OtherFileAccounted(cfg, f, log, q);
    RemovedSources(cfg, f, log, q);
    BaseOkParts(cfg, f, log);
    FilesInvFrom(cfg, f - {q}, log);
  }

  lemma OtherFileAccounted(cfg: Config, f: Files, log: Log, q: string)
    requires AllAccounted(cfg, f, log) && Base(cfg, f - {q}) == Base(cfg, f)
    requires forall e | e in log :: e.0 != q
    ensures AllAccounted(cfg, f - {q}, log)
  {
    hide Base, Below, Absorbed;
  }

  lemma CollectKeeps(cfg: Config, f: Files, log: Log, c: Cycle, x: Input)
    requires FilesInv(cfg, f, log) && CycleInv(cfg, f, log, c) && c.pc.Collect?
    ensures FilesInv(cfg, Step(cfg, f, c, x).0, log)
    ensures CycleInv(cfg, Step(cfg, f, c, x).0, log, Step(cfg, f, c, x).1)
  {
    hide Encode, Fold, InSource, FilesInv, Base, Checkpoint, NewMeta, Covered, Garbage;
    var (g, d) := Step(cfg, f, c, x);
    assert Current(cfg) in f && Generation(cfg, f) == c.generation + 1;
    if c.todo != [] && Garbage(c.todo[0], CheckpointName(c.generation + 1)) {
      CollectKeepsFiles(cfg, f, log, c.todo[0]);
    }
    assert ProgressOk(cfg, g, d);
    assert forall j: nat :: !Pending(d, j);
  }

  /** Every primitive of the only active cycle keeps the store's invariant and its own. */
  lemma StepKeeps(cfg: Config, f: Files, log: Log, c: Cycle, x: Input)
    requires Separate(cfg) && FilesInv(cfg, f, log) && CycleInv(cfg, f, log, c) && ListingOk(cfg, c, x)
    ensures FilesInv(cfg, Step(cfg, f, c, x).0, log)
    ensures CycleInv(cfg, Step(cfg, f, c, x).0, log, Step(cfg, f, c, x).1)
  {
    hide FilesInv, Step, EnumeratedOk, ListingOk;
    if Reads(c) {
      ReadsTouchNothing(cfg, f, c, x);
      FilesInvParts(cfg, f, log);
      ReadKeepsProgress(cfg, f, c, x);
      ReadKeepsEnumerated(cfg, f, log, c, x);
    } else if c.pc.WriteBody? {
      WriteBodyKeeps(cfg, f, log, c, x);
    } else if c.pc.DeleteSource? {
      DeleteKeeps(cfg, f, log, c, x);
    } else if c.pc.Collect? {
      CollectKeeps(cfg, f, log, c, x);
    } else {
      CommitKeeps(cfg, f, log, c, x);
    }
  }

  /* ---- Writers ---- */

  /** An append that loses nothing: `p` is a log path, the record it replaces (if any) does not outrank
      the new one, the frontier already covers it if `p` is on it, and no active cycle that has already
      read `p` would delete the new record unread. */
  ghost predicate AppendOk(cfg: Config, f: Files, active: set<Cycle>, p: string, r: Record) {
    && SourcePath(cfg, p) && RoundTrips(cfg.codec, r)
    && (IsRecord(f, p) ==> Below(f[p].rec, r))
    && (p in Frontier(cfg, f) ==> Absorbed(r, Base(cfg, f)))
    && (forall c, j: nat | c in active && Pending(c, j) && j < |c.recs| && c.paths[j] == p :: Below(r, c.recs[j]))
  }

  function Appended(f: Files, p: string, r: Record): Files {
    f[p := RecordBlob(r)]
  }

  lemma AppendKeepsFiles(cfg: Config, f: Files, log: Log, p: string, r: Record)
    requires Separate(cfg) && FilesInv(cfg, f, log) && AppendOk(cfg, f, {}, p, r)
    ensures FilesInv(cfg, Appended(f, p, r), log + {(p, r)})
    ensures Base(cfg, Appended(f, p, r)) == Base(cfg, f) && Generation(cfg, Appended(f, p, r)) == Generation(cfg, f)
    ensures Frontier(cfg, Appended(f, p, r)) == Frontier(cfg, f)
  {
    hide Base, Frontier, Generation, Fold, RoundTrips, Below, Absorbed, CommitIntact, InSource, Checkpoint, Current,
      AllAccounted, FrontierOk, SourcesLogged;
    var g, h := Appended(f, p, r), log + {(p, r)};
    SourceIsNotIndexFile(cfg, p, Generation(cfg, f));
    WriteFrame(cfg, f, p, RecordBlob(r));
    AppendAccounted(cfg, f, log, p, r);
    AppendSources(cfg, f, log, p, r);
    assert LogOk(cfg, h);
    forall b | b in Base(cfg, g) ensures Logged(h, b) {
      assert Logged(log, b);
      var q :| (q, b) in log && Eligible(q);
      assert (q, b) in h;
    }
    FilesInvFrom(cfg, g, h);
  }

  lemma AppendAccounted(cfg: Config, f: Files, log: Log, p: string, r: Record)
    requires AllAccounted(cfg, f, log) && Base(cfg, Appended(f, p, r)) == Base(cfg, f)
    requires IsRecord(f, p) ==> Below(f[p].rec, r)
    ensures AllAccounted(cfg, Appended(f, p, r), log + {(p, r)})
  {
    hide Base, Leq, Absorbed;
    var g := Appended(f, p, r);
    LeqReflexive(r);
    forall e | e in log + {(p, r)} ensures Accounted(g, Base(cfg, f), e.0, e.1) {
      if e in log {
        assert Accounted(f, Base(cfg, f), e.0, e.1);
        if e.0 == p && IsRecord(f, p) && Below(e.1, f[p].rec) { LeqTransitive(e.1, f[p].rec, r); }
      }
    }
  }

  lemma AppendSources(cfg: Config, f: Files, log: Log, p: string, r: Record)
    requires SourcesLogged(cfg, f, log) && FrontierOk(cfg, f, log)
    requires Base(cfg, Appended(f, p, r)) == Base(cfg, f) && Frontier(cfg, Appended(f, p, r)) == Frontier(cfg, f)
    requires p in Frontier(cfg, f) ==> Absorbed(r, Base(cfg, f))
    ensures SourcesLogged(cfg, Appended(f, p, r), log + {(p, r)})
    ensures FrontierOk(cfg, Appended(f, p, r), log + {(p, r)})
  {
    hide Base, Frontier, InSource, Absorbed;
    var g, h := Appended(f, p, r), log + {(p, r)};
    forall q | q in Frontier(cfg, f)
      ensures InSource(cfg, q) && (IsRecord(g, q) ==> Absorbed(g[q].rec, Base(cfg, f)))
      ensures exists s :: (q, s) in h && Absorbed(s, Base(cfg, f))
    {
      var s :| (q, s) in log && Absorbed(s, Base(cfg, f));
      assert (q, s) in h;
    }
  }

  lemma AppendKeepsCycle(cfg: Config, f: Files, log: Log, c: Cycle, p: string, r: Record)
    requires Separate(cfg) && CycleInv(cfg, f, log, c) && AppendOk(cfg, f, {c}, p, r)
    requires Base(cfg, Appended(f, p, r)) == Base(cfg, f) && Generation(cfg, Appended(f, p, r)) == Generation(cfg, f)
    ensures CycleInv(cfg, Appended(f, p, r), log + {(p, r)}, c)
  {
    hide Base, Generation, Fold, RoundTrips, Leq, Absorbed, InSource, Checkpoint, Current, Frontier, Covered, Encode, SourcePath;
    var g := Appended(f, p, r);
    assert SourcePath(cfg, p) ==> InSource(cfg, p) by { SourcePathInSource(cfg, p); }
    SourceIsNotIndexFile(cfg, p, c.generation + 1);
    forall j: nat | Pending(c, j) ensures Unchanged(g, c.paths[j], c.recs[j]) {
      assert c in {c};
    }
    assert EnumeratedOk(cfg, g, log + {(p, r)}, c);
    assert ProgressOk(cfg, g, c);
  }

  lemma SourcePathInSource(cfg: Config, p: string)
    ensures SourcePath(cfg, p) ==> InSource(cfg, p)
  {}

  /** A file that is no record turns up in a source: a foreign or half-written document, at a fresh path. */
  ghost predicate PlantOk(cfg: Config, f: Files, active: set<Cycle>, p: string, b: Blob) {
    && InSource(cfg, p) && !b.RecordBlob? && p !in f
    && (forall c, j: nat | c in active && Pending(c, j) :: c.paths[j] != p)
  }

  lemma PlantKeepsFiles(cfg: Config, f: Files, log: Log, p: string, b: Blob)
    requires Separate(cfg) && FilesInv(cfg, f, log) && PlantOk(cfg, f, {}, p, b)
    ensures FilesInv(cfg, f[p := b], log)
    ensures Base(cfg, f[p := b]) == Base(cfg, f) && Generation(cfg, f[p := b]) == Generation(cfg, f)
    ensures Frontier(cfg, f[p := b]) == Frontier(cfg, f)
  {
    hide Base, Frontier, Generation, Fold, RoundTrips, Below, Absorbed, CommitIntact, InSource, Checkpoint, Current, SourcePath;
    SourceIsNotIndexFile(cfg, p, Generation(cfg, f));
    WriteFrame(cfg, f, p, b);
  }

  lemma PlantKeepsCycle(cfg: Config, f: Files, log: Log, c: Cycle, p: string, b: Blob)
    requires Separate(cfg) && CycleInv(cfg, f, log, c) && PlantOk(cfg, f, {c}, p, b)
    requires Base(cfg, f[p := b]) == Base(cfg, f) && Generation(cfg, f[p := b]) == Generation(cfg, f)
    ensures CycleInv(cfg, f[p := b], log, c)
  {
    hide Base, Generation, Fold, Leq, InSource, Checkpoint, Current, Covered, Encode;
    SourceIsNotIndexFile(cfg, p, c.generation + 1);
    forall j: nat | Pending(c, j) ensures Unchanged(f[p := b], c.paths[j], c.recs[j]) {
      assert c in {c};
    }
    assert EnumeratedOk(cfg, f[p := b], log, c);
    assert ProgressOk(cfg, f[p := b], c);
  }

  /** When a path always carries the same record, appending is always safe: no cycle, frontier or earlier
      record can be in the way. */
  lemma SameRecordIsSafe(cfg: Config, f: Files, log: Log, active: set<Cycle>, p: string, r: Record)
    requires FilesInv(cfg, f, log) && forall c | c in active :: CycleInv(cfg, f, log, c)
    requires SourcePath(cfg, p) && RoundTrips(cfg.codec, r)
    requires forall e | e in log && e.0 == p :: e.1 == r
    ensures AppendOk(cfg, f, active, p, r)
  {
    hide Base, Fold, RoundTrips, Leq, Absorbed, InSource, ProgressOk, CommitIntact, BaseOk, AllAccounted;
    LeqReflexive(r);
    if p in Frontier(cfg, f) {
      var s :| (p, s) in log && Absorbed(s, Base(cfg, f));
      assert (p, s).1 == r;
    }
    forall c, j: nat | c in active && Pending(c, j) && j < |c.recs| && c.paths[j] == p ensures Below(r, c.recs[j]) {
      assert CycleInv(cfg, f, log, c);
      assert (p, c.recs[j]) in log;
      assert (p, c.recs[j]).1 == r;
    }
  }

  /** No read of the only active cycle raises, and its commit is never lost: the abandon branch is dead. */
  lemma NeverRaisesOrLoses(cfg: Config, f: Files, c: Cycle, x: Input)
    requires CommitIntact(cfg, f) && ProgressOk(cfg, f, c) && !c.pc.Raised?
    ensures !Step(cfg, f, c, x).1.pc.Raised? && !Step(cfg, f, c, x).1.pc.Abandon?
  {
    hide Encode, Decode, Fold, Covered, ReadNext, Garbage, CheckpointName;
    match c.pc
    case MetaRead =>
    case MarkRead =>
    case BaseRead =>
    case BodyRead =>
    case Swap =>
    case Create =>
    case ReadSource => ReadNextFrame(f, c, x);
    case _ =>
  }

  /** With one active compactor the commit goes through. */
  lemma CommitStep(cfg: Config, f: Files, c: Cycle, x: Input)
    requires ProgressOk(cfg, f, c) && (c.pc.Swap? || c.pc.Create?)
    ensures Step(cfg, f, c, x) == Commit(cfg, f, c, x.now) && !c.won && c.removed == []
  {
    hide Current, Checkpoint, CheckpointName, Encode, Fold, Base, Covered, Commit;
  }
}
