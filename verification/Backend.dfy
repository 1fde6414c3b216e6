/** The storage backend: a map from paths to contents and the primitives everything is built from. */
module Backend {
  import opened Text
  import opened Naming
  import opened Blobs

  /** A call's result, or the exception it raised. */
  datatype Result<+T> = Ok(value: T) | Raise

  class Store {
    var files: Files
    ghost var history: seq<Files>   // every store a reader, or a restart after a crash, could have found

    constructor ()
      ensures files == map[] && history == []
    {
      files, history := map[], [];
    }

    method Exists(path: string) returns (there: bool)
      ensures there <==> path in files
    {
      there := path in files;
    }

    method ReadBytes(path: string) returns (data: Result<Blob>)
      ensures data == if path in files then Ok(files[path]) else Raise
    {
      data := if path in files then Ok(files[path]) else Raise;
    }

    /** Tags are content hashes, so the content stands for its tag. */
    method Etag(path: string) returns (tag: Option<Blob>)
      ensures tag == if path in files then Some(files[path]) else None
    {
      tag := if path in files then Some(files[path]) else None;
    }

    method WriteAtomic(path: string, data: Blob)
      modifies this
      ensures files == old(files)[path := data]
      ensures history == old(history) + [files]
    {
      files := files[path := data];
      history := history + [files];
    }

    method Delete(path: string)
      modifies this
      ensures files == old(files) - {path}
      ensures history == old(history) + [files]
    {
      files := files - {path};
      history := history + [files];
    }

    method CreateIfAbsent(path: string, data: Blob) returns (created: bool)
      modifies this
      ensures created <==> path !in old(files)
      ensures files == if created then old(files)[path := data] else old(files)
      ensures history == if created then old(history) + [files] else old(history)
    {
      created := path !in files;
      if created { WriteAtomic(path, data); }
    }

    /** Compare-and-swap on the content tag; without a tag, an unconditional replace of an existing file. */
    method ReplaceIfMatch(path: string, data: Blob, tag: Option<Blob>) returns (swapped: bool)
      modifies this
      ensures swapped <==> path in old(files) && (tag.None? || tag.value == old(files)[path])
      ensures files == if swapped then old(files)[path := data] else old(files)
      ensures history == if swapped then old(history) + [files] else old(history)
    {
      swapped := path in files && (tag.None? || tag.value == files[path]);
      if swapped { WriteAtomic(path, data); }
    }

    /** The files under a prefix, each once, in no particular order. */
    method List(prefix: string) returns (paths: seq<string>)
      ensures forall p :: p in paths <==> p in files && Under(prefix, p)
      ensures forall i, j | 0 <= i < j < |paths| :: paths[i] != paths[j]
    {
      paths := [];
      var left := files.Keys;
      while left != {}
        invariant left <= files.Keys
        invariant forall p :: p in paths <==> p in files && p !in left && Under(prefix, p)
        invariant forall i, j | 0 <= i < j < |paths| :: paths[i] != paths[j]
        decreases left
      {
        var p :| p in left;
        left := left - {p};
        if Under(prefix, p) { paths := paths + [p]; }
      }
    }
  }
}
