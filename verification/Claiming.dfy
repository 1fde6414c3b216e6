/** `backends/claim.py` as the source runs it, on a store nobody else is touching. */
module Claiming {
  import opened Text
  import opened Blobs
  import opened Backend
  import L = Lease

  /** The lease at the path, if any, can be taken at this time. */
  predicate Free(f: Files, path: string, now: int) {
    path !in f || (f[path].LeaseBlob? && L.Expired(f[path].lease, now))
  }

  /** A lease shuts everybody out up to its expiry and nobody after it; one that names no expiry, and a file that
      is no lease, shut everybody out for good. */
  lemma FreeExactly(f: Files, path: string, now: int)
    ensures path !in f ==> Free(f, path, now)
    ensures path in f && !f[path].LeaseBlob? ==> !Free(f, path, now)
    ensures path in f && f[path].LeaseBlob? && f[path].lease.expires.None? ==> !Free(f, path, now)
    ensures path in f && f[path].LeaseBlob? && f[path].lease.expires.Some? ==>
              (Free(f, path, now) <==> f[path].lease.expires.value < now)
  {}

  /** The file says that this worker has claimed it, and until when; and until then nobody else can. */
  ghost predicate HeldUntil(f: Files, path: string, worker: string, claimed: int, expires: int) {
    && path in f && f[path] == LeaseBlob(L.Lease(worker, claimed, Some(expires)))
    && forall t :: Free(f, path, t) <==> expires < t
  }

  lemma WrittenIsHeld(f: Files, path: string, worker: string, claimed: int, expires: int)
    requires path in f && f[path] == LeaseBlob(L.Lease(worker, claimed, Some(expires)))
    ensures HeldUntil(f, path, worker, claimed, expires)
  {
    hide Free;
    forall t ensures Free(f, path, t) <==> expires < t { FreeExactly(f, path, t); }
  }

  method TryCreateLease(store: Store, path: string, lease: L.Lease) returns (owned: bool)
    modifies store
    ensures owned <==> path !in old(store.files)
    ensures store.files == if owned then old(store.files)[path := LeaseBlob(lease)] else old(store.files)
    ensures store.history == if owned then old(store.history) + [store.files] else old(store.history)
  {
    owned := store.CreateIfAbsent(path, LeaseBlob(lease));
  }

  method TryReclaimLease(store: Store, path: string, lease: L.Lease, now: int) returns (owned: bool)
    modifies store
    ensures owned <==> Free(old(store.files), path, now)
    ensures store.files == if owned then old(store.files)[path := LeaseBlob(lease)] else old(store.files)
    ensures store.history == if owned then old(store.history) + [store.files] else old(store.history)
  {
    var there := store.Exists(path);
    if !there {
      owned := store.CreateIfAbsent(path, LeaseBlob(lease));
      return;
    }
    // Alone, the file cannot vanish here; Lease.Vanished is where it can.
    var current := store.ReadBytes(path);
    if !(current.Ok? && current.value.LeaseBlob? && L.Expired(current.value.lease, now)) { return false; }
    var tag := store.Etag(path);
    owned := store.ReplaceIfMatch(path, LeaseBlob(lease), TagOr(tag, current.value));
  }

  /** `_backend_etag`: the backend's tag, or that of the bytes read. */
  function TagOr(tag: Option<Blob>, current: Blob): Option<Blob> {
    if tag.Some? then tag else Some(current)
  }

  /** The lease is acquired exactly when it is free, and then the store carries the caller's record. */
  method AcquireLease(store: Store, path: string, lease: L.Lease, now: int) returns (owned: bool)
    modifies store
    ensures owned <==> Free(old(store.files), path, now)
    ensures store.files == if owned then old(store.files)[path := LeaseBlob(lease)] else old(store.files)
    ensures store.history == if owned then old(store.history) + [store.files] else old(store.history)
  {
    owned := TryCreateLease(store, path, lease);
    if !owned {
      owned := TryReclaimLease(store, path, lease, now);
    }
  }
}
