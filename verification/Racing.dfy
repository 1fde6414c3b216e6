/** Where the guarantees end: what a compactor does to the committed generation when another one is running,
    and what a delete does when its source was overwritten meanwhile. Each is an exact condition; the first
    failure is exhibited as a schedule. */
module Racing {
  import opened Text
  import opened Folding
  import opened Codec
  import opened Naming
  import opened Blobs
  import opened CompactCycle
  import opened Ledger
  import opened Guarantees
  import opened Solo

  /** A cycle's primitives one after another. */
  ghost function After(cfg: Config, f: Files, c: Cycle, xs: seq<Input>): (Files, Cycle)
    decreases |xs|
  {
    if xs == [] then (f, c)
    else
      var (g, d) := Step(cfg, f, c, xs[0]);
      After(cfg, g, d, xs[1..])
  }

  /* ---- The shared checkpoint name ---- */

  /** The four reads of the first commit, on a store without CURRENT and no sources. */
  lemma HeadSteps(cfg: Config, f: Files, c: Cycle, x: Input)
    requires cfg.sources == [] && Current(cfg) !in f && c.source == 0 && c.recs == [] && c.generation == 0
    ensures c.pc.MetaExists? ==> Step(cfg, f, c, x) == (f, c.(pc := MarkExists))
    ensures c.pc.MarkExists? ==> Step(cfg, f, c, x) == (f, c.(pc := ListSource))
    ensures c.pc.ListSource? ==> Step(cfg, f, c, x) == (f, c.(pc := BaseExists))
    ensures c.pc.BaseExists? ==> Step(cfg, f, c, x) == (f, c.(pc := WriteBody))
    ensures c.pc.HeadExists? ==> Step(cfg, f, c, x) == (f, c.(pc := Create))
  {
    hide Checkpoint, Current;
  }

  /** Abandoning a lost commit deletes the checkpoint of the next generation. That leaves the commit intact
      if and only if the winner's generation is another one. */
  lemma AbandonKeepsCommitExactly(cfg: Config, f: Files, c: Cycle, x: Input)
    requires CommitIntact(cfg, f) && Current(cfg) in f && c.pc.Abandon? && !x.fault
    ensures CommitIntact(cfg, Step(cfg, f, c, x).0) <==> Generation(cfg, f) != c.generation + 1
  {
    hide *;
    AbandonStep(cfg, f, c, x);
    IndexPathsOf(cfg, c.generation + 1, Generation(cfg, f));
    if Generation(cfg, f) != c.generation + 1 {
      WriteFrame(cfg, f, Checkpoint(cfg, c.generation + 1), Bytes(""));
    } else {
      Dangles(cfg, f, f - {Checkpoint(cfg, c.generation + 1)});
    }
  }

  /** A commit whose checkpoint is gone, or holds other bytes, is not intact. */
  lemma Dangles(cfg: Config, f: Files, g: Files)
    requires CommitIntact(cfg, f) && Current(cfg) in f && Current(cfg) in g && g[Current(cfg)] == f[Current(cfg)]
    requires
      var checkpoint := Checkpoint(cfg, Generation(cfg, f));
      checkpoint !in g || g[checkpoint] != f[checkpoint]
    ensures !CommitIntact(cfg, g)
  {
    hide Encode, Decode, Checkpoint, Current, CheckpointName, ReadCurrent;
  }

  /** The committed checkpoint holds the hashed bytes. */
  lemma IntactHash(cfg: Config, f: Files)
    requires CommitIntact(cfg, f) && Current(cfg) in f
    ensures f[Current(cfg)].MetaBlob? && Checkpoint(cfg, Generation(cfg, f)) in f
    ensures f[Checkpoint(cfg, Generation(cfg, f))] == Bytes(f[Current(cfg)].meta.hash)
  {
    hide Encode, Decode, Checkpoint, Current, CheckpointName, ReadCurrent;
  }

  /** Writing the next generation's file leaves the commit intact if and only if that generation is not the
      committed one, or its bytes are the same. */
  lemma WriteKeepsCommitExactly(cfg: Config, f: Files, c: Cycle, x: Input)
    requires CommitIntact(cfg, f) && Current(cfg) in f && f[Current(cfg)].MetaBlob? && c.pc.WriteBody?
    ensures CommitIntact(cfg, Step(cfg, f, c, x).0) <==>
              Generation(cfg, f) != c.generation + 1 || Encode(cfg.codec, Fold(c.base + c.recs)) == f[Current(cfg)].meta.hash
  {
    hide *;
    WriteStep(cfg, f, c, x);
    IndexPathsOf(cfg, c.generation + 1, Generation(cfg, f));
    IntactHash(cfg, f);
    var body := Encode(cfg.codec, Fold(c.base + c.recs));
    var path := Checkpoint(cfg, c.generation + 1);
    if Generation(cfg, f) != c.generation + 1 {
      WriteFrame(cfg, f, path, Bytes(body));
    } else if body == f[Current(cfg)].meta.hash {
      assert f[path := Bytes(body)] == f;
    } else {
      Dangles(cfg, f, f[path := Bytes(body)]);
    }
  }

  /** Two compactors that both reach their first commit: the winner creates CURRENT, the loser removes the
      file it names. */
  lemma LoserRemovesWinner(cfg: Config, f: Files, a: Cycle, b: Cycle, x: Input, y: Input, z: Input)
    requires Current(cfg) !in f && a.pc.Create? && b.pc.Create? && a.generation == b.generation && !z.fault
    ensures
      var f1 := Step(cfg, f, a, x).0;
      var (f2, b2) := Step(cfg, f1, b, y);
      var (f3, b3) := Step(cfg, f2, b2, z);
      b3.pc == Finished(false) && DanglingCommit(cfg, f3)
  {
    hide *;
    CurrentIsNoCheckpoint(cfg, a.generation + 1);
    CreateStep(cfg, f, a, x);
    var f1 := Step(cfg, f, a, x).0;
    CommitWrites(cfg, f, a, x.now);
    CreateStep(cfg, f1, b, y);
    var (f2, b2) := Step(cfg, f1, b, y);
    AbandonStep(cfg, f2, b2, z);
    NamesNothing(cfg, f1, f1 - {Checkpoint(cfg, a.generation + 1)}, a, x.now);
  }

  /** CURRENT names a file that is not there. */
  predicate DanglingCommit(cfg: Config, f: Files) {
    Current(cfg) in f && f[Current(cfg)].MetaBlob? && cfg.root + "/" + f[Current(cfg)].meta.checkpoint !in f
  }

  lemma NamesNothing(cfg: Config, f: Files, g: Files, c: Cycle, now: int)
    requires Current(cfg) in f && f[Current(cfg)] == MetaBlob(NewMeta(c, now))
    requires g == f - {Checkpoint(cfg, c.generation + 1)} && Current(cfg) != Checkpoint(cfg, c.generation + 1)
    ensures DanglingCommit(cfg, g)
  {
    hide Current, CheckpointName;
  }

  /** The schedule exists: on a store without CURRENT, six primitives take any compactor to its first commit,
      whatever another one has done short of committing. */
  lemma FreshReachesCreate(cfg: Config, f: Files, consuming: bool, compactor: string, xs: seq<Input>)
    requires cfg.sources == [] && Current(cfg) !in f && |xs| == 6
    ensures
      var (g, c) := After(cfg, f, Fresh(consuming, compactor), xs);
      c.pc.Create? && c.generation == 0 && Current(cfg) !in g
  {
    hide *;
    hide Step;
    CurrentIsNoCheckpoint(cfg, 1);
    var c0 := Fresh(consuming, compactor);
    FreshParts(consuming, compactor);
    var c1, c2, c3, c4 := c0.(pc := MarkExists), c0.(pc := ListSource), c0.(pc := BaseExists), c0.(pc := WriteBody);
    HeadSteps(cfg, f, c0, xs[0]);
    HeadSteps(cfg, f, c1, xs[1]);
    HeadSteps(cfg, f, c2, xs[2]);
    HeadSteps(cfg, f, c3, xs[3]);
    WriteStep(cfg, f, c4, xs[4]);
    var (f5, c5) := Step(cfg, f, c4, xs[4]);
    HeadSteps(cfg, f5, c5, xs[5]);
    AfterSix(cfg, f, c0, xs);
  }

  lemma FreshParts(consuming: bool, compactor: string)
    ensures
      var c := Fresh(consuming, compactor);
      c.pc.MetaExists? && c.source == 0 && c.recs == [] && c.generation == 0
  {}

  lemma AfterSix(cfg: Config, f: Files, c: Cycle, xs: seq<Input>)
    requires |xs| == 6
    ensures
      var (f1, c1) := Step(cfg, f, c, xs[0]);
      var (f2, c2) := Step(cfg, f1, c1, xs[1]);
      var (f3, c3) := Step(cfg, f2, c2, xs[2]);
      var (f4, c4) := Step(cfg, f3, c3, xs[3]);
      var (f5, c5) := Step(cfg, f4, c4, xs[4]);
      After(cfg, f, c, xs) == Step(cfg, f5, c5, xs[5])
  {
    hide Step;
    var (f1, c1) := Step(cfg, f, c, xs[0]);
    AfterFive(cfg, f1, c1, xs[1..]);
  }

  lemma AfterFive(cfg: Config, f: Files, c: Cycle, xs: seq<Input>)
    requires |xs| == 5
    ensures
      var (f1, c1) := Step(cfg, f, c, xs[0]);
      var (f2, c2) := Step(cfg, f1, c1, xs[1]);
      var (f3, c3) := Step(cfg, f2, c2, xs[2]);
      var (f4, c4) := Step(cfg, f3, c3, xs[3]);
      After(cfg, f, c, xs) == Step(cfg, f4, c4, xs[4])
  {
    hide Step;
    var (f1, c1) := Step(cfg, f, c, xs[0]);
    var (f2, c2) := Step(cfg, f1, c1, xs[1]);
    var (f3, c3) := Step(cfg, f2, c2, xs[2]);
    var (f4, c4) := Step(cfg, f3, c3, xs[3]);
    var (f5, c5) := Step(cfg, f4, c4, xs[4]);
    assert After(cfg, f, c, xs) == After(cfg, f1, c1, xs[1..]);
    assert xs[1..][1..] == xs[2..] && xs[2..][1..] == xs[3..] && xs[3..][1..] == xs[4..] && xs[4..][1..] == [];
    assert After(cfg, f1, c1, xs[1..]) == After(cfg, f2, c2, xs[2..]);
    assert After(cfg, f2, c2, xs[2..]) == After(cfg, f3, c3, xs[3..]);
    assert After(cfg, f3, c3, xs[3..]) == After(cfg, f4, c4, xs[4..]);
    assert After(cfg, f4, c4, xs[4..]) == After(cfg, f5, c5, []);
  }

  /** So the commit can dangle: two compactors that do not wait for the lock, on any store without CURRENT,
      end with a CURRENT that names no file, whatever the clock and the listings say. */
  lemma UnlockedCommitDangles(cfg: Config, f: Files, xs: seq<Input>, ys: seq<Input>, x: Input, y: Input, z: Input)
    requires cfg.sources == [] && Current(cfg) !in f && |xs| == |ys| == 6 && !z.fault
    ensures
      var (f1, a) := After(cfg, f, Fresh(true, "a"), xs);
      var (f2, b) := After(cfg, f1, Fresh(true, "b"), ys);
      var (f3, b3) := Step(cfg, Step(cfg, f2, a, x).0, b, y);
      DanglingCommit(cfg, Step(cfg, f3, b3, z).0)
  {
    hide *;
    var (f1, a) := After(cfg, f, Fresh(true, "a"), xs);
    FreshReachesCreate(cfg, f, true, "a", xs);
    var (f2, b) := After(cfg, f1, Fresh(true, "b"), ys);
    FreshReachesCreate(cfg, f1, true, "b", ys);
    LoserRemovesWinner(cfg, f2, a, b, x, y, z);
  }

  /* ---- The tag taken at commit time ---- */

  /** From the checkpoint write on, nothing compares the generation a cycle started from with the one in the
      store: with no other primitive in between, its commit succeeds, and the new committed generation is
      what this cycle read. */
  lemma CommitIsBlind(cfg: Config, f: Files, c: Cycle, xs: seq<Input>)
    requires Current(cfg) in f && c.pc.WriteBody? && |xs| == 5
    requires forall r | r in c.base + c.recs :: RoundTrips(cfg.codec, r)
    ensures
      var (g, d) := After(cfg, f, c, xs);
      && d.won && CommitIntact(cfg, g) && Generation(cfg, g) == c.generation + 1
      && Base(cfg, g) == Fold(c.base + c.recs)
      && g == f[Checkpoint(cfg, c.generation + 1) := Bytes(Encode(cfg.codec,
          Fold(c.base + c.recs)))][Current(cfg) := MetaBlob(NewMeta(d, xs[4].now))]
  {
    hide *;
    CurrentIsNoCheckpoint(cfg, c.generation + 1);
    WriteStep(cfg, f, c, xs[0]);
    var (f1, c1) := Step(cfg, f, c, xs[0]);
    TagSteps(cfg, f1, c1, xs[1]);
    TagSteps(cfg, f1, c1.(pc := TagExists), xs[2]);
    TagSteps(cfg, f1, c1.(tag := None, pc := TagRead), xs[3]);
    var c4 := c1.(tag := Some(f1[Current(cfg)]), pc := Swap);
    TagSteps(cfg, f1, c4, xs[4]);
    FoldRoundTrips(cfg, c.base + c.recs);
    CommittedBase(cfg, f1, c4, xs[4].now);
    AfterFive(cfg, f, c, xs);
    SameMeta(cfg, f1, c4, xs[4].now);
  }

  lemma SameMeta(cfg: Config, f: Files, c: Cycle, now: int)
    ensures
      var (g, d) := Commit(cfg, f, c, now);
      d == c.(won := true, pc := DeleteSource) && NewMeta(d, now) == NewMeta(c, now)
      && g == f[Current(cfg) := MetaBlob(NewMeta(c, now))]
  {
    hide Current, CheckpointName;
  }

  lemma FoldRoundTrips(cfg: Config, records: seq<Record>)
    requires forall r | r in records :: RoundTrips(cfg.codec, r)
    ensures forall r | r in Fold(records) :: RoundTrips(cfg.codec, r)
  {
    hide Fold, RoundTrips, Covered, KeysIncrease;
    FoldMeetsSpec(records);
  }

  /** What survives such a commit: a record stays accounted for if and only if it is still in its file or
      this cycle read it or something that outranks it. Where another compactor has folded it and deleted
      its file in the meantime, neither holds. */
  lemma StaleCommitKeepsExactly(cfg: Config, f: Files, c: Cycle, xs: seq<Input>, p: string, r: Record)
    requires Separate(cfg) && InSource(cfg, p)
    requires Current(cfg) in f && c.pc.WriteBody? && |xs| == 5
    requires forall s | s in c.base + c.recs :: RoundTrips(cfg.codec, s)
    ensures
      var g := After(cfg, f, c, xs).0;
      Accounted(g, Base(cfg, g), p, r) <==> (IsRecord(f, p) && Below(r, f[p].rec)) || Absorbed(r, c.base + c.recs)
  {
    hide *;
    hide CommitIntact;
    CommitIsBlind(cfg, f, c, xs);
    SourceIsNotIndexFile(cfg, p, c.generation + 1);
    FoldAbsorbsSame(c.base + c.recs, r);
    TwoWrites(f, After(cfg, f, c, xs).0, Checkpoint(cfg, c.generation + 1), Current(cfg), p);
    AccountedParts(f, After(cfg, f, c, xs).0, Base(cfg, After(cfg, f, c, xs).0), p, r);
  }

  lemma TwoWrites(f: Files, g: Files, q: string, cur: string, p: string)
    requires p != q && p != cur && q in g && cur in g && g == f[q := g[q]][cur := g[cur]]
    ensures p in g <==> p in f
    ensures p in f ==> g[p] == f[p]
  {}

  lemma AccountedParts(f: Files, g: Files, base: seq<Record>, p: string, r: Record)
    requires (p in g <==> p in f) && (p in f ==> g[p] == f[p])
    ensures Accounted(g, base, p, r) <==> (IsRecord(f, p) && Below(r, f[p].rec)) || Absorbed(r, base)
  {}

  /* ---- A source overwritten before it is deleted ---- */

  /** Deleting a source keeps every appended record accounted for if and only if the record that is in the
      file at that moment is absorbed by the committed generation. */
  lemma DeleteIsSafeExactly(cfg: Config, f: Files, log: Log, p: string)
    requires Separate(cfg) && FilesInv(cfg, f, log) && InSource(cfg, p) && IsRecord(f, p)
    ensures AllAccounted(cfg, f - {p}, log) <==> Absorbed(f[p].rec, Base(cfg, f))
  {
    hide *;
    FilesInvParts(cfg, f, log);
    SourceIsNotIndexFile(cfg, p, Generation(cfg, f));
    WriteFrame(cfg, f, p, Bytes(""));
    if AllAccounted(cfg, f - {p}, log) {
      StillAccounted(cfg, f, log, p);
    } else {
      RemovedAccountedOr(cfg, f, log, p);
    }
  }

  lemma RemovedAccountedOr(cfg: Config, f: Files, log: Log, p: string)
    requires AllAccounted(cfg, f, log) && Base(cfg, f - {p}) == Base(cfg, f) && IsRecord(f, p)
    ensures AllAccounted(cfg, f - {p}, log) || !Absorbed(f[p].rec, Base(cfg, f))
  {
    hide Base, Absorbed, AllAccounted;
    if Absorbed(f[p].rec, Base(cfg, f)) { RemovedAccounted(cfg, f, log, p); }
  }

  lemma StillAccounted(cfg: Config, f: Files, log: Log, p: string)
    requires SourcesLogged(cfg, f, log) && AllAccounted(cfg, f - {p}, log) && Base(cfg, f - {p}) == Base(cfg, f)
    requires InSource(cfg, p) && IsRecord(f, p)
    ensures Absorbed(f[p].rec, Base(cfg, f))
  {
    hide Base, InSource, Absorbed, Below;
    var e := (p, f[p].rec);
    assert Accounted(f - {p}, Base(cfg, f), e.0, e.1);
  }
}
