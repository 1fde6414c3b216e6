/** One compaction cycle, `_compact_body`, as a program counter over backend primitives. The method that
    runs a cycle alone and the system that interleaves many both take these very steps. */
module CompactCycle {
  import opened Text
  import opened Folding
  import opened Codec
  import opened Naming
  import opened Blobs

  /** The index root, the roots of the log sources, the record codec of the index, and whether the backend
      has an `etag` method, which makes a reclaim of the lock read its tag again. */
  datatype Config = Config(root: string, sources: seq<string>, codec: Codec, reread: bool)

  function Current(cfg: Config): string { CurrentPath(cfg.root) }

  function Checkpoint(cfg: Config, generation: nat): string { CheckpointPath(cfg.root, generation) }

  /** Where the cycle stands; each is the point before one primitive, named after it. */
  datatype Pc =
    | MetaExists | MetaRead            // read_current_meta
    | MarkExists | MarkRead            // watermark
    | ListSource | ReadSource          // enumerate
    | BaseExists | BaseRead | BodyExists | BodyRead  // read_current
    | WriteBody
    | HeadExists | TagExists | TagRead | Swap | Create  // commit
    | Abandon
    | DeleteSource
    | ListIndex | Collect              // garbage collection
    | Finished(ok: bool)
    | Raised
  {
    predicate Over() { Finished? || Raised? }
  }

  datatype Cycle = Cycle(
    pc: Pc,
    consuming: bool,
    compactor: string,
    generation: nat,               // the generation read from CURRENT, 0 without one
    mark: Option<seq<string>>,     // the watermark: the frontier, or None for "everything is beyond it"
    source: nat,                   // sources listed so far
    todo: seq<string>,             // listed paths still to look at
    paths: seq<string>,            // paths enumerated, and the records read from them
    recs: seq<Record>,
    name: string,                  // checkpoint named by CURRENT, when the base is read
    base: seq<Record>,
    body: string,
    tag: Option<Blob>,
    won: bool,                     // the commit succeeded
    next: nat,                     // sources deleted so far
    removed: seq<string>           // history: every source path the delete step was issued for
  )

  function Fresh(consuming: bool, compactor: string): Cycle {
    Cycle(MetaExists, consuming, compactor, 0, None, 0, [], [], [], "", [], "", None, false, 0, [])
  }

  /** What the world answers to one primitive: a listing, whether a read or a delete fails, the clock. */
  datatype Input = Input(listing: seq<string>, fault: bool, now: int)

  predicate Eligible(path: string) {
    !EndsWith(path, "/") && !EndsWith(path, "datapackage.json")
  }

  /** `_past_watermark`. */
  predicate PastWatermark(path: string, mark: Option<seq<string>>) {
    mark.None? || (Basename(path) !in mark.value && path !in mark.value)
  }

  /** A watermark hides a file by its path, and also by its bare name, in whatever directory it lies. */
  lemma WatermarkExactly(dir: string, name: string, mark: Option<seq<string>>)
    requires '/' !in name
    ensures PastWatermark(dir + "/" + name, mark) <==> mark.None? || (name !in mark.value && dir + "/" + name !in mark.value)
  {
    BasenameOfJoin(dir, name);
  }

  function NewMeta(c: Cycle, now: int): Meta {
    Meta(c.generation + 1, CheckpointName(c.generation + 1), now, c.compactor, c.consuming,
         if c.consuming then None else Some(c.paths), c.body)
  }

  function Commit(cfg: Config, f: Files, c: Cycle, now: int): (Files, Cycle) {
    (f[Current(cfg) := MetaBlob(NewMeta(c, now))], c.(won := true, pc := DeleteSource))
  }

  /** `name.startswith("checkpoint.") and name != keep`. */
  predicate Garbage(path: string, keep: string) {
    CHECKPOINT <= Basename(path) && Basename(path) != keep
  }

  /** One primitive of `_compact_body`, with the straight-line code up to the next one. */
  ghost function Step(cfg: Config, f: Files, c: Cycle, x: Input): (Files, Cycle) {
    var cur := Current(cfg);
    match c.pc
    case MetaExists => (f, c.(pc := if cur in f then MetaRead else MarkExists))
    case MetaRead =>
      if cur in f && f[cur].MetaBlob? then (f, c.(generation := f[cur].meta.generation, pc := MarkExists))
          else (f, c.(pc := Raised))
    case MarkExists => (f, c.(pc := if cur in f then MarkRead else ListSource))
    case MarkRead =>
      if cur in f && f[cur].MetaBlob? then (f, c.(mark := f[cur].meta.folded, pc := ListSource)) else (f, c.(pc := Raised))
    case ListSource =>
      if c.source < |cfg.sources| then (f, c.(todo := x.listing, source := c.source + 1, pc := ReadSource))
      else if c.recs == [] && c.generation > 0 then (f, c.(pc := Finished(false)))
      else (f, c.(pc := BaseExists))
    case ReadSource => (f, ReadNext(f, c, x))
    case BaseExists => (f, c.(pc := if cur in f then BaseRead else WriteBody))
    case BaseRead =>
      if cur in f && f[cur].MetaBlob? then (f, c.(name := f[cur].meta.checkpoint, pc := BodyExists)) else (f, c.(pc := Raised))
    case BodyExists => (f, c.(pc := if cfg.root + "/" + c.name in f then BodyRead else WriteBody))
    case BodyRead =>
      var path := cfg.root + "/" + c.name;
      if path in f && f[path].Bytes? && Decode(cfg.codec, f[path].bytes).Some?
      then (f, c.(base := Decode(cfg.codec, f[path].bytes).value, pc := WriteBody))
      else (f, c.(pc := Raised))
    case WriteBody =>
      var body := Encode(cfg.codec, Fold(c.base + c.recs));
      (f[Checkpoint(cfg, c.generation + 1) := Bytes(body)], c.(body := body, pc := HeadExists))
    case HeadExists => (f, c.(pc := if cur in f then TagExists else Create))
    case TagExists => (f, c.(tag := None, pc := if cur in f then TagRead else Swap))
    case TagRead => (f, c.(tag := if cur in f then Some(f[cur]) else None, pc := Swap))
    case Swap =>
      if cur in f && (c.tag.None? || c.tag.value == f[cur]) then Commit(cfg, f, c, x.now) else (f, c.(pc := Abandon))
    case Create =>
      if cur !in f then Commit(cfg, f, c, x.now) else (f, c.(pc := Abandon))
    case Abandon =>
      (if x.fault then f else f - {Checkpoint(cfg, c.generation + 1)}, c.(pc := Finished(false)))
    case DeleteSource =>
      if !c.consuming || c.next >= |c.paths| then (f, c.(pc := ListIndex))
      else (if x.fault then f else f - {c.paths[c.next]}, c.(next := c.next + 1, removed := c.removed + [c.paths[c.next]]))
    case ListIndex => (f, c.(todo := x.listing, pc := Collect))
    case Collect =>
      if c.todo == [] then (f, c.(pc := Finished(true)))
      else (if Garbage(c.todo[0], CheckpointName(c.generation + 1)) && !x.fault then f - {c.todo[0]}
          else f, c.(todo := c.todo[1..]))
    case Finished(_) => (f, c)
    case Raised => (f, c)
  }

  /** The body of the enumeration loop for the next listed path. An unreadable or non-conforming file is
      skipped: it joins neither the fold input nor the delete list. */
  function ReadNext(f: Files, c: Cycle, x: Input): Cycle {
    if c.todo == [] then c.(pc := ListSource)
    else
      var p, rest := c.todo[0], c.todo[1..];
      if Eligible(p) && PastWatermark(p, c.mark) && p in f && f[p].RecordBlob? && !x.fault
      then c.(todo := rest, paths := c.paths + [p], recs := c.recs + [f[p].rec])
      else c.(todo := rest)
  }

  /** A listing names files under the listed root only. Nothing else is asked of it: a lazy directory walk
      may miss files that come or name files that go while it runs. */
  predicate ListingOk(cfg: Config, c: Cycle, x: Input) {
    && (c.pc.ListSource? && c.source < |cfg.sources| ==> forall p | p in x.listing :: Under(cfg.sources[c.source], p))
    && (c.pc.ListIndex? ==> forall p | p in x.listing :: Under(cfg.root, p))
  }

  /* ---- Single primitives ---- */

  lemma AbandonStep(cfg: Config, f: Files, c: Cycle, x: Input)
    requires c.pc.Abandon? && !x.fault
    ensures Step(cfg, f, c, x) == (f - {Checkpoint(cfg, c.generation + 1)}, c.(pc := Finished(false)))
  {
    hide Checkpoint, Current;
  }

  lemma WriteStep(cfg: Config, f: Files, c: Cycle, x: Input)
    requires c.pc.WriteBody?
    ensures
      var body := Encode(cfg.codec, Fold(c.base + c.recs));
      Step(cfg, f, c, x) == (f[Checkpoint(cfg, c.generation + 1) := Bytes(body)], c.(body := body, pc := HeadExists))
  {
    hide Checkpoint, Current, Encode, Fold;
  }

  lemma CreateStep(cfg: Config, f: Files, c: Cycle, x: Input)
    requires c.pc.Create?
    ensures Step(cfg, f, c, x) == if Current(cfg) !in f then Commit(cfg, f, c, x.now) else (f, c.(pc := Abandon))
  {
    hide Checkpoint, Current, Commit;
  }

  /** The commit's primitives, where CURRENT is there and nobody else writes. */
  lemma TagSteps(cfg: Config, f: Files, c: Cycle, x: Input)
    requires Current(cfg) in f
    ensures c.pc.HeadExists? ==> Step(cfg, f, c, x) == (f, c.(pc := TagExists))
    ensures c.pc.TagExists? ==> Step(cfg, f, c, x) == (f, c.(tag := None, pc := TagRead))
    ensures c.pc.TagRead? ==> Step(cfg, f, c, x) == (f, c.(tag := Some(f[Current(cfg)]), pc := Swap))
    ensures c.pc.Swap? && c.tag == Some(f[Current(cfg)]) ==> Step(cfg, f, c, x) == Commit(cfg, f, c, x.now)
  {
    hide Checkpoint, Current, Commit;
  }

  lemma CommitWrites(cfg: Config, f: Files, c: Cycle, now: int)
    ensures Commit(cfg, f, c, now).0 == f[Current(cfg) := MetaBlob(NewMeta(c, now))]
  {
    hide Current;
  }

  lemma ListIndexStep(cfg: Config, f: Files, c: Cycle, x: Input)
    requires c.pc.ListIndex?
    ensures Step(cfg, f, c, x) == (f, c.(todo := x.listing, pc := Collect))
  {
    hide Current;
  }

  lemma CollectStep(cfg: Config, f: Files, c: Cycle, x: Input)
    requires c.pc.Collect?
    ensures
      var (g, d) := Step(cfg, f, c, x);
      && (d.pc.Collect? || d.pc == Finished(true))
      && d == c.(pc := d.pc, todo := d.todo)
      && (g == f || (c.todo != [] && Garbage(c.todo[0], CheckpointName(c.generation + 1)) && g == f - {c.todo[0]}))
  {
    hide Current, Garbage, CheckpointName;
  }
}
