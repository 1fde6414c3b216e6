/** What an undisturbed cycle does to the store, file by file: which paths it touches on the way, and what each
    file holds when it is over. */
module CycleEffect {
  import opened Text
  import opened Folding
  import opened Codec
  import opened Naming
  import opened Blobs
  import opened CompactCycle
  import opened Ledger
  import opened Guarantees
  import opened Solo

  /* ---- On the way ---- */

  /** Neither CURRENT nor a source file nor named like a generation. */
  predicate Elsewhere(cfg: Config, p: string) {
    p != Current(cfg) && !InSource(cfg, p) && !(CHECKPOINT <= Basename(p))
  }

  /** From `f` to `g`, the last store of the history if it has gained any, and in every one in between, files
      elsewhere are as they were. */
  ghost predicate LeavesElsewhere(cfg: Config, f: Files, before: seq<Files>, g: Files, history: seq<Files>) {
    && before <= history
    && (if history == before then g == f else g == history[|history| - 1])
    && forall p | Elsewhere(cfg, p) :: SameAt(f, g, p) && forall i | |before| <= i < |history| :: SameAt(f, history[i], p)
  }

  lemma NothingDone(cfg: Config, f: Files, history: seq<Files>)
    ensures LeavesElsewhere(cfg, f, history, f, history)
  {}

  lemma OneWrite(cfg: Config, f: Files, before: seq<Files>, g: Files, path: string)
    requires !Elsewhere(cfg, path) && forall p | p != path :: SameAt(f, g, p)
    ensures LeavesElsewhere(cfg, f, before, g, before + [g])
  {
    hide Elsewhere;
  }

  lemma InTurn(cfg: Config, f: Files, h0: seq<Files>, g: Files, h1: seq<Files>, h: Files, h2: seq<Files>)
    requires LeavesElsewhere(cfg, f, h0, g, h1) && LeavesElsewhere(cfg, g, h1, h, h2)
    ensures LeavesElsewhere(cfg, f, h0, h, h2)
  {
    hide Elsewhere;
    forall p, i | Elsewhere(cfg, p) && |h0| <= i < |h2| ensures SameAt(f, h2[i], p) {
      if i < |h1| { assert h2[i] == h1[i]; }
    }
  }

  lemma CheckpointIsNotElsewhere(cfg: Config, g: nat)
    ensures !Elsewhere(cfg, Checkpoint(cfg, g))
  {
    hide Basename;
    IndexPaths(cfg.root, g, g);
    CheckpointNameShape(g);
  }

  lemma NorAreTheRest(cfg: Config)
    ensures !Elsewhere(cfg, Current(cfg))
    ensures forall p | InSource(cfg, p) :: !Elsewhere(cfg, p)
    ensures forall p, keep | Garbage(p, keep) :: !Elsewhere(cfg, p)
  {
    hide InSource, Basename;
  }

  /* ---- What it enumerates ---- */

  /** Of the paths seen, those wanted have been read, after what there was before. */
  ghost predicate Gathering(cfg: Config, f: Files, paths0: seq<string>, seen: seq<string>, paths: seq<string>, recs: seq<Record>) {
    && (forall p :: p in paths <==> p in paths0 || (p in seen && Wanted(cfg, f, p)))
    && ReadFrom(f, paths, recs)
  }

  lemma GatherNothing(cfg: Config, f: Files, paths: seq<string>, recs: seq<Record>)
    requires ReadFrom(f, paths, recs)
    ensures Gathering(cfg, f, paths, [], paths, recs)
  {}

  lemma GatherNext(cfg: Config, f: Files, paths0: seq<string>, seen: seq<string>, paths: seq<string>, recs: seq<Record>, p: string)
    requires Gathering(cfg, f, paths0, seen, paths, recs)
    ensures
      if Wanted(cfg, f, p) then Gathering(cfg, f, paths0, seen + [p], paths + [p], recs + [f[p].rec])
      else Gathering(cfg, f, paths0, seen + [p], paths, recs)
  {
    hide Eligible, PastWatermark, Mark;
  }

  /** The new records under the first `n` sources. */
  ghost predicate BatchOf(cfg: Config, f: Files, n: nat, paths: seq<string>, recs: seq<Record>) {
    && n <= |cfg.sources|
    && (forall p :: p in paths <==> Wanted(cfg, f, p) && exists i :: 0 <= i < n && Under(cfg.sources[i], p))
    && ReadFrom(f, paths, recs)
  }

  lemma NoBatch(cfg: Config, f: Files)
    ensures BatchOf(cfg, f, 0, [], [])
  {}

  lemma NextBatch(cfg: Config, f: Files, n: nat, paths0: seq<string>, recs0: seq<Record>, seen: seq<string>,
      paths: seq<string>, recs: seq<Record>)
    requires n < |cfg.sources| && BatchOf(cfg, f, n, paths0, recs0) && Gathering(cfg, f, paths0, seen, paths, recs)
    requires forall p :: p in seen <==> p in f && Under(cfg.sources[n], p)
    ensures BatchOf(cfg, f, n + 1, paths, recs)
  {
    hide Eligible, PastWatermark, Mark, Under, ReadFrom;
    forall p ensures p in paths <==> Wanted(cfg, f, p) && exists i :: 0 <= i < n + 1 && Under(cfg.sources[i], p) {
      if Wanted(cfg, f, p) && exists i :: 0 <= i < n + 1 && Under(cfg.sources[i], p) {
        var i :| 0 <= i < n + 1 && Under(cfg.sources[i], p);
        assert i < n || p in seen;
      }
    }
  }

  /** The batch is every record file in a source that is beyond the watermark, with what it holds. */
  ghost predicate Batch(cfg: Config, f: Files, paths: seq<string>, recs: seq<Record>) {
    && (forall p :: p in paths <==> InSource(cfg, p) && Wanted(cfg, f, p))
    && ReadFrom(f, paths, recs)
  }

  lemma WholeBatch(cfg: Config, f: Files, paths: seq<string>, recs: seq<Record>)
    requires BatchOf(cfg, f, |cfg.sources|, paths, recs)
    ensures Batch(cfg, f, paths, recs)
  {
    hide Wanted, Under, ReadFrom;
    forall p ensures p in paths <==> InSource(cfg, p) && Wanted(cfg, f, p) {
      if InSource(cfg, p) {
        var s :| s in cfg.sources && Under(s, p);
        var i :| 0 <= i < |cfg.sources| && cfg.sources[i] == s;
      }
    }
  }

  /** There is a generation, and nothing new. */
  ghost predicate Idle(cfg: Config, f: Files) {
    Generation(cfg, f) > 0 && forall p | InSource(cfg, p) :: !Wanted(cfg, f, p)
  }

  lemma IdleExactly(cfg: Config, f: Files, paths: seq<string>, recs: seq<Record>)
    requires Batch(cfg, f, paths, recs)
    ensures Idle(cfg, f) <==> recs == [] && Generation(cfg, f) > 0
  {
    hide InSource, Wanted, Generation;
    if recs != [] { assert paths[0] in paths; }
  }

  /* ---- When it is over ---- */

  /** The commit record of a cycle from `f`. */
  ghost function CommitOf(cfg: Config, f: Files, paths: seq<string>, recs: seq<Record>, consuming: bool, compactor: string,
      now: int): Meta {
    var g := Generation(cfg, f) + 1;
    Meta(g, CheckpointName(g), now, compactor, consuming, if consuming then None else Some(paths),
        Encode(cfg.codec, Fold(Base(cfg, f) + recs)))
  }

  ghost predicate Consumed(cfg: Config, f: Files, meta: Meta, p: string) {
    meta.consuming && InSource(cfg, p) && Wanted(cfg, f, p)
  }

  /** Below the index root, named like a generation, and not like this one. */
  predicate Superseded(cfg: Config, meta: Meta, p: string) {
    Under(cfg.root, p) && CHECKPOINT <= Basename(p) && Basename(p) != meta.checkpoint
  }

  /** CURRENT is the commit record, its generation has the bytes it vouches for, the consumed files and the
      superseded generations are gone, and every other file is as it was. */
  ghost predicate Effect(cfg: Config, f: Files, g: Files, meta: Meta) {
    && FileIs(g, Current(cfg), MetaBlob(meta))
    && FileIs(g, Checkpoint(cfg, meta.generation), Bytes(meta.hash))
    && forall p | p != Current(cfg) && p != Checkpoint(cfg, meta.generation) ::
         if Consumed(cfg, f, meta, p) || Superseded(cfg, meta, p) then p !in g else SameAt(f, g, p)
  }

  /** The store after a cycle that has committed: the fold of the old generation and the batch. */
  ghost predicate Compacted(cfg: Config, f: Files, g: Files, consuming: bool, compactor: string, now: int) {
    exists paths, recs :: Batch(cfg, f, paths, recs) && Effect(cfg, f, g, CommitOf(cfg, f, paths, recs, consuming, compactor, now))
  }

  /** The deletes, after the commit. */
  ghost predicate Deleted(f: Files, g: Files, consuming: bool, paths: seq<string>) {
    forall p :: if consuming && p in paths then p !in g else SameAt(f, g, p)
  }

  ghost predicate Collected(cfg: Config, f: Files, g: Files, keep: string) {
    forall p :: if Under(cfg.root, p) && Garbage(p, keep) then p !in g else SameAt(f, g, p)
  }

  lemma EffectFrom(cfg: Config, f: Files, committed: Files, deleted: Files, g: Files, paths: seq<string>,
      recs: seq<Record>, meta: Meta)
    requires Separate(cfg) && Batch(cfg, f, paths, recs) && meta.checkpoint == CheckpointName(meta.generation)
    requires committed == f[Checkpoint(cfg, meta.generation) := Bytes(meta.hash)][Current(cfg) := MetaBlob(meta)]
    requires Deleted(committed, deleted, meta.consuming, paths) && Collected(cfg, deleted, g, meta.checkpoint)
    ensures Effect(cfg, f, g, meta)
  {
    hide InSource, Wanted, ReadFrom, Under, Basename, CheckpointName, Separate;
    var cur, own := Current(cfg), Checkpoint(cfg, meta.generation);
    NotIndexFiles(cfg, meta.generation);
    CurrentIsNoCheckpoint(cfg, meta.generation);
    GarbageIsNotCurrent(cfg, cur, meta.checkpoint);
    IndexPaths(cfg.root, meta.generation, meta.generation);
    assert !Garbage(own, meta.checkpoint);
    assert cur !in paths && own !in paths;
  }

  /** A file elsewhere, such as the lock, makes no difference to a cycle. */
  lemma ElsewhereDoesNotMatter(cfg: Config, f: Files, b: Blob, q: string)
    requires Elsewhere(cfg, q)
    ensures Generation(cfg, f - {q}) == Generation(cfg, f[q := b]) && Mark(cfg, f - {q}) == Mark(cfg, f[q := b])
    ensures forall p | InSource(cfg, p) :: Wanted(cfg, f - {q}, p) <==> Wanted(cfg, f[q := b], p)
    ensures Idle(cfg, f - {q}) <==> Idle(cfg, f[q := b])
  {
    hide InSource, Eligible, PastWatermark, Basename, Current;
  }

  lemma BatchElsewhere(cfg: Config, f: Files, b: Blob, q: string, paths: seq<string>, recs: seq<Record>)
    requires Elsewhere(cfg, q) && Batch(cfg, f[q := b], paths, recs)
    ensures Batch(cfg, f - {q}, paths, recs)
  {
    hide InSource, Wanted, Basename, Current;
    ElsewhereDoesNotMatter(cfg, f, b, q);
    assert forall j | 0 <= j < |paths| :: paths[j] in paths;
  }

  lemma EffectElsewhere(cfg: Config, f: Files, b: Blob, g: Files, q: string, meta: Meta)
    requires Elsewhere(cfg, q) && Effect(cfg, f[q := b], g, meta) && q != Checkpoint(cfg, meta.generation)
    ensures Effect(cfg, f - {q}, g - {q}, meta)
  {
    hide InSource, Wanted, Basename, Current, Checkpoint;
    ElsewhereDoesNotMatter(cfg, f, b, q);
  }

  lemma CompactedElsewhere(cfg: Config, f: Files, b: Blob, g: Files, q: string, consuming: bool, compactor: string, now: int)
    requires Elsewhere(cfg, q) && Compacted(cfg, f[q := b], g, consuming, compactor, now)
    requires Base(cfg, f - {q}) == Base(cfg, f[q := b])
    ensures Compacted(cfg, f - {q}, g - {q}, consuming, compactor, now)
  {
    hide Batch, Effect, Base, Generation, Elsewhere, Fold, Encode, Checkpoint;
    var h := f[q := b];
    var paths, recs :| Batch(cfg, h, paths, recs) && Effect(cfg, h, g, CommitOf(cfg, h, paths, recs, consuming, compactor, now));
    ElsewhereDoesNotMatter(cfg, f, b, q);
    BatchElsewhere(cfg, f, b, q, paths, recs);
    CheckpointIsNotElsewhere(cfg, Generation(cfg, h) + 1);
    EffectElsewhere(cfg, f, b, g, q, CommitOf(cfg, h, paths, recs, consuming, compactor, now));
  }
}
