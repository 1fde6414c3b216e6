/** `hybrid_read`, primitive by primitive, on a store that does not change: the call ends as the method does. */
module Quiet {
  import opened Text
  import opened Folding
  import opened Codec
  import opened Naming
  import opened Blobs
  import opened CompactCycle
  import opened Ledger
  import opened Guarantees
  import opened Reading
  import opened Edges

  /** The call's primitives, one after the other, while nobody writes. */
  ghost predicate QuietCall(cfg: Config, f: Files, readers: seq<Reader>, walk: seq<Option<string>>) {
    && |readers| == |walk| + 1 && readers[0] == START
    && forall i | 0 <= i < |walk| ::
         InRange(cfg, readers[i]) && WalkOk(cfg, readers[i], walk[i]) && readers[i + 1] == ReadStep(cfg, f, readers[i], walk[i])
  }

  predicate BeforeSources(at: Point) {
    at.SeekHead? || at.ReadHead? || at.SeekBody? || at.ReadBody?
  }

  /** Under one of the first `n` sources, and beyond the watermark. */
  ghost predicate Beyond(cfg: Config, f: Files, n: nat, p: string) {
    ReadBeyond(f, Mark(cfg, f), p) && exists i :: 0 <= i < n && i < |cfg.sources| && Under(cfg.sources[i], p)
  }

  /** Nothing has been found but what is there to find, all of it in the sources done with, and in the present one
      all that the walk has yielded, but for the file about to be read. */
  ghost predicate FoundOk(cfg: Config, f: Files, r: Reader) {
    && (forall x | x in r.found :: exists p :: Beyond(cfg, f, r.source + 1, p) && f[p].rec == x)
    && (forall p | Beyond(cfg, f, r.source, p) :: f[p].rec in r.found)
    && (r.at.Walk? || r.at.Open? ==>
          forall p | p in r.seen && ReadBeyond(f, Mark(cfg, f), p) :: f[p].rec in r.found || r.at == Open(p))
  }

  predicate Wanted(cfg: Config, r: Reader, p: string)
    requires r.source < |cfg.sources|
  {
    Ordinary(p) && PastWatermark(p, r.mark) && Under(cfg.sources[r.source], p)
  }

  ghost predicate WalkingOk(cfg: Config, f: Files, r: Reader) {
    r.at.Walk? || r.at.Open? ==>
      && r.source < |cfg.sources| && r.mark == Mark(cfg, f)
      && (forall p :: p in r.steady <==> p in f && Under(cfg.sources[r.source], p))
      && (r.at.Open? ==> r.at.path in r.seen && Wanted(cfg, r, r.at.path))
  }

  ghost predicate QuietOk(cfg: Config, f: Files, r: Reader) {
    && InRange(cfg, r)
    && (BeforeSources(r.at) ==> r.base == [] && r.found == [] && r.source == 0)
    && (r.at.ReadHead? || r.at.SeekBody? || r.at.ReadBody? ==> Current(cfg) in f)
    && (r.at.SeekBody? || r.at.ReadBody? ==> f[Current(cfg)].MetaBlob? && r.name == f[Current(cfg)].meta.checkpoint)
    && (r.at.ReadBody? ==> cfg.root + "/" + r.name in f)
    && (r.at.ReadMark? ==> Current(cfg) in f)
    && (!BeforeSources(r.at) ==> if r.at.Failed? then !Readable(cfg, f) else Readable(cfg, f) && r.base == Base(cfg, f))
    && (r.at.Done? ==> r.source == |cfg.sources|)
    && FoundOk(cfg, f, r) && WalkingOk(cfg, f, r)
  }

  lemma HeadStep(cfg: Config, f: Files, r: Reader, next: Option<string>)
    requires QuietOk(cfg, f, r) && BeforeSources(r.at)
    ensures QuietOk(cfg, f, ReadStep(cfg, f, r, next))
  {
    hide Decode, Current, ReadBeyond, Under;
  }

  lemma MarkStep(cfg: Config, f: Files, r: Reader, next: Option<string>)
    requires QuietOk(cfg, f, r) && (r.at.SeekMark? || r.at.ReadMark?)
    ensures QuietOk(cfg, f, ReadStep(cfg, f, r, next))
  {
    hide Decode, Current, ReadBeyond, Under, Base, FoundOk;
    ReadableMeta(cfg, f);
    var t := ReadStep(cfg, f, r, next);
    MarkFound(cfg, f, r, t);
  }

  lemma MarkFound(cfg: Config, f: Files, r: Reader, t: Reader)
    requires FoundOk(cfg, f, r) && t.found == r.found && t.source == r.source && (t.at.Walk? || t.at.Open? ==> t.seen == {})
    ensures FoundOk(cfg, f, t)
  {
    hide Beyond, ReadBeyond;
  }

  lemma WalkStep(cfg: Config, f: Files, r: Reader, next: Option<string>)
    requires QuietOk(cfg, f, r) && r.at.Walk? && WalkOk(cfg, r, next)
    ensures QuietOk(cfg, f, ReadStep(cfg, f, r, next))
  {
    hide Decode, Current, Under, Base, Mark, Readable, PastWatermark, EndsWith, Basename;
    var t := ReadStep(cfg, f, r, next);
    if next.None? {
      forall p | Beyond(cfg, f, t.source, p) ensures f[p].rec in t.found {
        if !Beyond(cfg, f, r.source, p) { assert p in r.steady; }
      }
      forall x | x in t.found ensures exists p :: Beyond(cfg, f, t.source + 1, p) && f[p].rec == x {
        var p :| Beyond(cfg, f, r.source + 1, p) && f[p].rec == x;
        assert Beyond(cfg, f, t.source + 1, p);
      }
    }
  }

  lemma OpenStep(cfg: Config, f: Files, r: Reader, next: Option<string>)
    requires QuietOk(cfg, f, r) && r.at.Open?
    ensures QuietOk(cfg, f, ReadStep(cfg, f, r, next))
  {
    hide Decode, Current, Under, Base, Mark, Readable, PastWatermark, EndsWith, Basename;
    var t, p := ReadStep(cfg, f, r, next), r.at.path;
    if p in f && f[p].RecordBlob? {
      assert Beyond(cfg, f, r.source + 1, p);
      assert f[p].rec in t.found;
    }
  }

  lemma {:induction false} StaysQuiet(cfg: Config, f: Files, readers: seq<Reader>, walk: seq<Option<string>>, i: nat)
    requires QuietCall(cfg, f, readers, walk) && i < |readers|
    ensures QuietOk(cfg, f, readers[i])
  {
    hide ReadStep, QuietOk, WalkOk;
    if i == 0 {
      StartsQuiet(cfg, f);
    } else {
      StaysQuiet(cfg, f, readers, walk, i - 1);
      QuietStep(cfg, f, readers[i - 1], walk[i - 1]);
    }
  }

  lemma StartsQuiet(cfg: Config, f: Files)
    ensures QuietOk(cfg, f, START)
  {
    hide Current, ReadBeyond;
  }

  lemma QuietStep(cfg: Config, f: Files, r: Reader, next: Option<string>)
    requires QuietOk(cfg, f, r) && InRange(cfg, r) && WalkOk(cfg, r, next)
    ensures QuietOk(cfg, f, ReadStep(cfg, f, r, next))
  {
    hide QuietOk, WalkOk;
    if BeforeSources(r.at) {
      HeadStep(cfg, f, r, next);
    } else if r.at.SeekMark? || r.at.ReadMark? {
      MarkStep(cfg, f, r, next);
    } else if r.at.Walk? {
      WalkStep(cfg, f, r, next);
    } else if r.at.Open? {
      OpenStep(cfg, f, r, next);
    }
  }

  /** A call on an unchanging store that is over has raised exactly where the method raises, and has otherwise
      returned the same records: the base, and every record beyond the watermark. */
  lemma QuietCallMatches(cfg: Config, f: Files, readers: seq<Reader>, walk: seq<Option<string>>)
    requires QuietCall(cfg, f, readers, walk)
    requires readers[|readers| - 1].at.Done? || readers[|readers| - 1].at.Failed?
    ensures
      var end := readers[|readers| - 1];
      && (end.at.Done? <==> Readable(cfg, f))
      && (end.at.Done? ==> end.base == Base(cfg, f) && ListsHybrid(cfg, f, Returned(end)))
  {
    hide ReadStep, WalkOk, Readable, Base, Mark, Under, PastWatermark, EndsWith, Basename;
    var end := readers[|readers| - 1];
    StaysQuiet(cfg, f, readers, walk, |readers| - 1);
    if end.at.Done? {
      forall x ensures x in end.found <==> exists p :: InSource(cfg, p) && ReadBeyond(f, Mark(cfg, f), p) && f[p].rec == x {
        if x in end.found {
          var p :| Beyond(cfg, f, end.source + 1, p) && f[p].rec == x;
          assert InSource(cfg, p);
        }
        if p :| InSource(cfg, p) && ReadBeyond(f, Mark(cfg, f), p) && f[p].rec == x {
          assert Beyond(cfg, f, end.source, p);
        }
      }
    }
  }
}
