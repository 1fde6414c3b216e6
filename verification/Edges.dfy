/** The log and index edges, as classes over the store. */
module Edges {
  import opened Text
  import opened Folding
  import opened Codec
  import opened Naming
  import opened Blobs
  import opened Backend
  import opened CompactCycle
  import opened Ledger
  import opened Guarantees

  class PathLogEdge {
    const store: Store
    const root: string

    constructor (store: Store, root: string)
      ensures this.store == store && this.root == root
    {
      this.store, this.root := store, root;
    }

    /** The record's own path is overwritten, nothing else changes. */
    method Append(record: Record) returns (id: string)
      modifies store
      ensures id == record.id
      ensures store.files == Appended(old(store.files), LogPath(root, id), record)
      ensures store.history == old(store.history) + [store.files]
    {
      id := record.id;
      store.WriteAtomic(LogPath(root, id), RecordBlob(record));
    }

    /** Every readable record beyond the watermark, once each, and nothing else. */
    method IterBeyond(mark: Option<seq<string>>) returns (out: seq<Record>, ghost paths: seq<string>)
      ensures Yields(store.files, root, mark, paths, out)
      ensures forall r :: r in out <==> exists p :: Under(root, p) && ReadBeyond(store.files, mark, p) && store.files[p].rec == r
    {
      hide Under, Basename, EndsWith, PastWatermark, Scanned, Yields;
      var listing := store.List(root);
      out, paths := [], [];
      StartScan(store.files, mark);
      for n := 0 to |listing|
        invariant Scanned(store.files, mark, listing[..n], paths, out)
      {
        var p := listing[n];
        assert listing[..n + 1] == listing[..n] + [p];
        ScanNext(store.files, mark, listing[..n], paths, out, p);
        if !EndsWith(p, "/") && PastWatermark(p, mark) && Basename(p) != "datapackage.json" {
          var data := store.ReadBytes(p);
          if data.Ok? && data.value.RecordBlob? {
            out, paths := out + [data.value.rec], paths + [p];
          }
        }
      }
      assert listing[..|listing|] == listing;
      ScanEnd(store.files, root, mark, listing, paths, out);
      YieldedRecords(store.files, root, mark, paths, out);
    }
  }

  /** The readable files among those looked at so far, each once, and their records. */
  ghost predicate Scanned(f: Files, mark: Option<seq<string>>, seen: seq<string>, paths: seq<string>, out: seq<Record>) {
    && |out| == |paths|
    && (forall p :: p in paths <==> p in seen && ReadBeyond(f, mark, p))
    && (forall i, j | 0 <= i < j < |paths| :: paths[i] != paths[j])
    && forall i | 0 <= i < |paths| :: ReadBeyond(f, mark, paths[i]) && f[paths[i]].rec == out[i]
  }

  lemma StartScan(f: Files, mark: Option<seq<string>>)
    ensures Scanned(f, mark, [], [], [])
  {}

  lemma ScanNext(f: Files, mark: Option<seq<string>>, seen: seq<string>, paths: seq<string>, out: seq<Record>, p: string)
    requires Scanned(f, mark, seen, paths, out) && p !in seen
    ensures
      if ReadBeyond(f, mark, p) then Scanned(f, mark, seen + [p], paths + [p], out + [f[p].rec])
      else Scanned(f, mark, seen + [p], paths, out)
  {
    hide PastWatermark, EndsWith, Basename;
  }

  lemma ScanEnd(f: Files, root: string, mark: Option<seq<string>>, listing: seq<string>, paths: seq<string>, out: seq<Record>)
    requires Scanned(f, mark, listing, paths, out)
    requires forall p :: p in listing <==> p in f && Under(root, p)
    ensures Yields(f, root, mark, paths, out)
  {
    hide Under, PastWatermark, EndsWith, Basename;
  }

  /** The records of exactly the readable files beyond the watermark under a root, each file once. */
  ghost predicate Yields(f: Files, root: string, mark: Option<seq<string>>, paths: seq<string>, out: seq<Record>) {
    && |out| == |paths|
    && (forall i, j | 0 <= i < j < |paths| :: paths[i] != paths[j])
    && (forall p :: p in paths <==> Under(root, p) && ReadBeyond(f, mark, p))
    && forall i | 0 <= i < |paths| :: ReadBeyond(f, mark, paths[i]) && f[paths[i]].rec == out[i]
  }

  /** `out` is what `iter_beyond` can yield. */
  ghost predicate PartOf(f: Files, root: string, mark: Option<seq<string>>, out: seq<Record>) {
    exists paths :: Yields(f, root, mark, paths, out)
  }

  lemma PartFrom(f: Files, root: string, mark: Option<seq<string>>, paths: seq<string>, out: seq<Record>)
    requires Yields(f, root, mark, paths, out)
    ensures PartOf(f, root, mark, out)
  {}

  lemma YieldedRecords(f: Files, root: string, mark: Option<seq<string>>, paths: seq<string>, out: seq<Record>)
    requires Yields(f, root, mark, paths, out)
    ensures forall r :: r in out <==> exists p :: Under(root, p) && ReadBeyond(f, mark, p) && f[p].rec == r
  {
    hide Under, PastWatermark, EndsWith, Basename;
    forall r ensures r in out <==> exists p :: Under(root, p) && ReadBeyond(f, mark, p) && f[p].rec == r {
      if r in out {
        var i :| 0 <= i < |out| && out[i] == r;
        assert paths[i] in paths;
      }
      if p :| Under(root, p) && ReadBeyond(f, mark, p) && f[p].rec == r {
        assert p in paths;
        var i :| 0 <= i < |paths| && paths[i] == p;
        assert out[i] in out;
      }
    }
  }

  function Flatten(parts: seq<seq<Record>>): seq<Record> {
    if parts == [] then [] else Flatten(parts[..|parts| - 1]) + parts[|parts| - 1]
  }

  class PathIndexEdge {
    const store: Store
    const cfg: Config

    constructor (store: Store, cfg: Config)
      ensures this.store == store && this.cfg == cfg
    {
      this.store, this.cfg := store, cfg;
    }

    /** CURRENT's document; an exception when CURRENT holds none. */
    method ReadCurrentMeta() returns (meta: Result<Option<Meta>>)
      ensures Current(cfg) !in store.files ==> meta == Ok(None)
      ensures Current(cfg) in store.files && store.files[Current(cfg)].MetaBlob? ==>
          meta == Ok(Some(store.files[Current(cfg)].meta))
      ensures Current(cfg) in store.files && !store.files[Current(cfg)].MetaBlob? ==> meta == Raise
    {
      var there := store.Exists(Current(cfg));
      if !there { return Ok(None); }
      var data := store.ReadBytes(Current(cfg));
      if data.Raise? || !data.value.MetaBlob? { return Raise; }
      return Ok(Some(data.value.meta));
    }

    /** The watermark is the frontier CURRENT records; without one everything is beyond it. */
    method Watermark() returns (mark: Result<Option<seq<string>>>)
      ensures mark.Raise? <==> Current(cfg) in store.files && !store.files[Current(cfg)].MetaBlob?
      ensures mark.Ok? ==> mark.value == Mark(cfg, store.files)
    {
      var meta := ReadCurrentMeta();
      if meta.Raise? { return Raise; }
      return Ok(if meta.value.Some? then meta.value.value.folded else None);
    }

    method CurrentEtag() returns (tag: Option<Blob>)
      ensures tag == if Current(cfg) in store.files then Some(store.files[Current(cfg)]) else None
    {
      var there := store.Exists(Current(cfg));
      if !there { return None; }
      tag := store.Etag(Current(cfg));
    }

    /** Splits, drops blank lines and deserialises line by line. */
    method ParseBody(raw: string) returns (records: Result<seq<Record>>)
      ensures records == match Decode(cfg.codec, raw) case Some(rs) => Ok(rs) case None => Raise
    {
      hide SplitLines, NonBlank, ParseAll, Prepend, Blank;
      var lines := SplitLines(raw);
      var out := [];
      assert lines[0..] == lines;
      PrependNothing(Decode(cfg.codec, raw));
      for n := 0 to |lines|
        invariant Decode(cfg.codec, raw) == Prepend(out, ParseAll(cfg.codec, NonBlank(lines[n..])))
      {
        ParseStep(cfg.codec, out, lines, n);
        if !Blank(lines[n]) {
          var r := cfg.codec.de(lines[n]);
          if r.None? { return Raise; }
          out := out + [r.value];
        }
      }
      ParseEnd(cfg.codec, out, lines);
      return Ok(out);
    }

    /** The committed generation; nothing when there is no CURRENT or its checkpoint is missing, and an exception
        exactly where CURRENT or the checkpoint does not read. */
    method ReadBase() returns (base: Result<Option<seq<Record>>>)
      ensures base.Ok? <==> Readable(cfg, store.files)
      ensures base.Ok? ==> base.value == ReadCurrent(cfg, store.files)
    {
      hide Decode, Encode;
      var there := store.Exists(Current(cfg));
      if !there { return Ok(None); }
      var data := store.ReadBytes(Current(cfg));
      if data.Raise? || !data.value.MetaBlob? { return Raise; }
      var path := cfg.root + "/" + data.value.meta.checkpoint;
      there := store.Exists(path);
      if !there { return Ok(None); }
      var body := store.ReadBytes(path);
      if body.Raise? || !body.value.Bytes? { return Raise; }
      var records := ParseBody(body.value.bytes);
      if records.Raise? { return Raise; }
      return Ok(Some(records.value));
    }

    /** The base, then source by source the records beyond the watermark, each file once. A missing checkpoint
        hides the base only: the sources are read all the same. */
    method HybridRead() returns (out: Result<seq<Record>>, ghost parts: seq<seq<Record>>)
      ensures out.Ok? <==> Readable(cfg, store.files)
      ensures out.Ok? ==>
                && |parts| == |cfg.sources|
                && out.value == Base(cfg, store.files) + Flatten(parts)
                && forall i | 0 <= i < |parts| :: PartOf(store.files, cfg.sources[i], Mark(cfg, store.files), parts[i])
      ensures out.Ok? ==> ListsHybrid(cfg, store.files, out.value)
    {
      hide Decode, Encode, Mark, Yields, PartOf, ReadBeyond, ReadCurrent, ListsHybrid, Flatten, Current, Readable;
      parts := [];
      var base := ReadBase();
      if base.Raise? { return Raise, parts; }
      var records := if base.value.Some? then base.value.value else [];
      ghost var first := records;
      ReadableMeta(cfg, store.files);
      FlattenStep(first, [], []);
      for n := 0 to |cfg.sources|
        invariant |parts| == n && records == first + Flatten(parts)
        invariant forall i | 0 <= i < n :: PartOf(store.files, cfg.sources[i], Mark(cfg, store.files), parts[i])
      {
        var log := new PathLogEdge(store, cfg.sources[n]);
        var mark := Watermark();
        if mark.Raise? { return Raise, parts; }
        var more; ghost var paths;
        more, paths := log.IterBeyond(mark.value);
        PartFrom(store.files, cfg.sources[n], mark.value, paths, more);
        FlattenStep(first, parts, more);
        records, parts := records + more, parts + [more];
      }
      PartsAreListed(cfg, store.files, parts);
      return Ok(records), parts;
    }
  }

  /** `read_current` raises nothing: CURRENT, if there, is a commit record, and the checkpoint it names, if there,
      parses. */
  predicate Readable(cfg: Config, f: Files) {
    Current(cfg) in f ==>
      && f[Current(cfg)].MetaBlob?
      && var path := cfg.root + "/" + f[Current(cfg)].meta.checkpoint;
         path in f ==> f[path].Bytes? && Decode(cfg.codec, f[path].bytes).Some?
  }

  lemma ReadableMeta(cfg: Config, f: Files)
    ensures Readable(cfg, f) && Current(cfg) in f ==> f[Current(cfg)].MetaBlob?
  {
    hide Current, Decode;
  }

  /** An intact commit reads. */
  lemma IntactIsReadable(cfg: Config, f: Files)
    requires CommitIntact(cfg, f)
    ensures Readable(cfg, f)
  {
    hide Current, Decode, Encode, CheckpointName;
  }

  lemma FlattenStep(first: seq<Record>, parts: seq<seq<Record>>, more: seq<Record>)
    ensures first + Flatten([]) == first
    ensures first + Flatten(parts + [more]) == first + Flatten(parts) + more
  {
    assert (parts + [more])[..|parts|] == parts;
    assert first + (Flatten(parts) + more) == first + Flatten(parts) + more;
  }

  lemma {:induction false} InFlatten(parts: seq<seq<Record>>, r: Record)
    ensures r in Flatten(parts) <==> exists i :: 0 <= i < |parts| && r in parts[i]
  {
    if parts != [] {
      var n := |parts| - 1;
      InFlatten(parts[..n], r);
      if r in Flatten(parts) && r in Flatten(parts[..n]) {
        var i :| 0 <= i < n && r in parts[..n][i];
        assert r in parts[i];
      }
      if i :| 0 <= i < |parts| && r in parts[i] {
        assert i < n ==> r in parts[..n][i];
      }
    }
  }

  lemma PartMembers(f: Files, root: string, mark: Option<seq<string>>, out: seq<Record>)
    requires PartOf(f, root, mark, out)
    ensures forall r :: r in out <==> exists p :: Under(root, p) && ReadBeyond(f, mark, p) && f[p].rec == r
  {
    hide Under, ReadBeyond, Yields;
    var paths :| Yields(f, root, mark, paths, out);
    YieldedRecords(f, root, mark, paths, out);
  }

  lemma PartsAreListed(cfg: Config, f: Files, parts: seq<seq<Record>>)
    requires |parts| == |cfg.sources| && forall i | 0 <= i < |parts| :: PartOf(f, cfg.sources[i], Mark(cfg, f), parts[i])
    ensures ListsHybrid(cfg, f, Base(cfg, f) + Flatten(parts))
  {
    hide Under, PartOf, Base, Flatten, Mark, PastWatermark, EndsWith, Basename;
    var mark := Mark(cfg, f);
    forall r ensures r in Flatten(parts) <==> exists p :: InSource(cfg, p) && ReadBeyond(f, mark, p) && f[p].rec == r {
      InFlatten(parts, r);
      if i :| 0 <= i < |parts| && r in parts[i] {
        PartMembers(f, cfg.sources[i], mark, parts[i]);
        var p :| Under(cfg.sources[i], p) && ReadBeyond(f, mark, p) && f[p].rec == r;
        assert InSource(cfg, p);
      }
      if p :| InSource(cfg, p) && ReadBeyond(f, mark, p) && f[p].rec == r {
        var i :| 0 <= i < |cfg.sources| && Under(cfg.sources[i], p);
        PartMembers(f, cfg.sources[i], mark, parts[i]);
        assert r in parts[i];
      }
    }
  }

  lemma PrependNothing(records: Option<seq<Record>>)
    ensures Prepend([], records) == records
  {
    if records.Some? { assert [] + records.value == records.value; }
  }

  /** One turn of the line loop: a blank line is dropped, any other is deserialised or ends the parse. */
  lemma ParseStep(codec: Codec, front: seq<Record>, lines: seq<string>, n: nat)
    requires n < |lines|
    ensures
      var now, next := ParseAll(codec, NonBlank(lines[n..])), ParseAll(codec, NonBlank(lines[n + 1..]));
      var r := codec.de(lines[n]);
      Prepend(front, now) ==
        if Blank(lines[n]) then Prepend(front, next) else if r.None? then None else Prepend(front + [r.value], next)
  {
    hide Blank;
    assert lines[n..][1..] == lines[n + 1..];
    var rest := NonBlank(lines[n + 1..]);
    assert [] + rest == rest;
    if !Blank(lines[n]) {
      assert NonBlank(lines[n..])[1..] == rest;
      var r := codec.de(lines[n]);
      if r.Some? && ParseAll(codec, rest).Some? {
        assert front + ([r.value] + ParseAll(codec, rest).value) == front + [r.value] + ParseAll(codec, rest).value;
      }
    }
  }

  lemma ParseEnd(codec: Codec, front: seq<Record>, lines: seq<string>)
    ensures Prepend(front, ParseAll(codec, NonBlank(lines[|lines|..]))) == Some(front)
  {
    assert front + [] == front;
  }

  function Prepend(front: seq<Record>, rest: Option<seq<Record>>): Option<seq<Record>> {
    if rest.None? then None else Some(front + rest.value)
  }
}
