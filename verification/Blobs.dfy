/** What the files hold. JSON is not modelled as text: each kind of document is a constructor, and equal
    bytes are equal values, so a value also stands for its own content tag. */
module Blobs {
  import opened Text
  import opened Folding
  import opened Lease

  /** The commit record CURRENT. `folded` is `None` when it is null, as in consuming mode. */
  datatype Meta = Meta(generation: nat, checkpoint: string, created: int, compactor: string,
                       consuming: bool, folded: Option<seq<string>>, hash: string)

  datatype Item = Item(id: string, payload: string)

  datatype Blob =
    | LeaseBlob(lease: Lease)
    | ItemBlob(item: Item)
    | DoneBlob(item: Item, worker: string, at: int, result: Record)
    | FailBlob(id: string, worker: string, at: int)
    | RecordBlob(rec: Record)
    | MetaBlob(meta: Meta)
    | Bytes(bytes: string)

  type Files = map<string, Blob>

  /** The file is what it was, or is missing as it was. */
  predicate SameAt(f: Files, g: Files, path: string) {
    (path in g <==> path in f) && (path in f ==> g[path] == f[path])
  }

  predicate FileIs(f: Files, path: string, b: Blob) {
    path in f && f[path] == b
  }
}
