/** `PathQueueEdge` as the source runs it on a store nobody else is touching. */
module QueueEdge {
  import opened Text
  import opened Folding
  import opened Naming
  import opened Blobs
  import opened Backend
  import opened Claiming
  import opened Edges
  import opened Ledger
  import L = Lease

  /** A claim in hand: `SimpleLease`. */
  datatype Holding = Holding(id: string, worker: string, claimedAt: int, expires: int)

  datatype Claimed = Got(item: Item, lease: Holding) | Nothing | Raised(id: string)

  /** The item is pending and its lease is absent or expired. */
  predicate Claimable(root: string, f: Files, id: string, now: int) {
    PendingItem(root, id) in f && Free(f, LeasePath(root, id), now)
  }

  /** The one change is the lease file, which says what the holding says: nobody else can claim the id up to the
      expiry it names, and anybody can after it, if the item is still there. */
  ghost predicate TookLease(root: string, f: Files, g: Files, lease: Holding) {
    var path := LeasePath(root, lease.id);
    && (forall p | p != path :: (p in g <==> p in f) && (p in f ==> g[p] == f[p]))
    && HeldUntil(g, path, lease.worker, lease.claimedAt, lease.expires)
    && forall t :: Claimable(root, g, lease.id, t) <==> PendingItem(root, lease.id) in f && lease.expires < t
  }

  lemma TookLeaseIsOneWrite(root: string, f: Files, g: Files, lease: Holding)
    ensures TookLease(root, f, g, lease) <==>
              g == f[LeasePath(root, lease.id) := LeaseBlob(L.Lease(lease.worker, lease.claimedAt, Some(lease.expires)))]
  {
    hide Free, PendingItem, LeasePath;
    var path := LeasePath(root, lease.id);
    QueuePathsDistinct(root, lease.id, lease.id);
    if g == f[path := LeaseBlob(L.Lease(lease.worker, lease.claimedAt, Some(lease.expires)))] {
      WrittenIsHeld(g, path, lease.worker, lease.claimedAt, lease.expires);
    }
  }

  function LeaseFor(worker: string, now: int, ttl: int): Blob {
    LeaseBlob(L.Lease(worker, now, Some(now + ttl)))
  }

  /** After a terminal record: the pending item and the lease are gone, nothing else has changed. */
  function Settle(root: string, f: Files, terminal: string, record: Blob, id: string): Files {
    f[terminal := record] - {PendingItem(root, id)} - {LeasePath(root, id)}
  }

  /** The stores between the terminal record and the end: the record is there before anything is deleted. */
  predicate Settling(root: string, f: Files, terminal: string, record: Blob, id: string, h: Files) {
    var written := f[terminal := record];
    h == written || h == written - {PendingItem(root, id)} || h == Settle(root, f, terminal, record, id)
  }

  class PathQueueEdge {
    const store: Store
    const root: string

    constructor (store: Store, root: string)
      ensures this.store == store && this.root == root
    {
      this.store, this.root := store, root;
    }

    /** The first placement of an id wins; placing it again changes nothing. */
    method Enqueue(item: Item) returns (id: string)
      modifies store
      ensures id == item.id
      ensures store.files == if PendingItem(root, id) in old(store.files) then old(store.files)
          else old(store.files)[PendingItem(root, id) := ItemBlob(item)]
    {
      id := item.id;
      var created := store.CreateIfAbsent(PendingItem(root, id), ItemBlob(item));
      // When the create fails the item is there; Pipeline.Placing is where it can be gone again.
    }

    /** Exact, for every candidate order: nothing is returned just when no pending item's lease can be taken;
        otherwise the stored item of one that can, whose lease file is now the caller's and the only change.
        A malformed item raises, its lease already taken. */
    method Claim(worker: string, ttl: int, now: int) returns (claimed: Claimed)
      modifies store
      ensures MarkerUnambiguous(root) && claimed.Nothing? ==>
                store.files == old(store.files) && forall id :: !Claimable(root, store.files, id, now)
      ensures MarkerUnambiguous(root) && claimed.Got? ==>
                && Claimable(root, old(store.files), claimed.lease.id, now)
                && old(store.files)[PendingItem(root, claimed.lease.id)] == ItemBlob(claimed.item)
                && claimed.lease == Holding(claimed.lease.id, worker, now, now + ttl)
                && TookLease(root, old(store.files), store.files, claimed.lease)
      ensures old(store.history) <= store.history
      ensures forall i | |old(store.history)| <= i < |store.history| :: store.history[i] == store.files
      ensures MarkerUnambiguous(root) && claimed.Raised? ==>
                && Claimable(root, old(store.files), claimed.id, now)
                && !old(store.files)[PendingItem(root, claimed.id)].ItemBlob?
                && TookLease(root, old(store.files), store.files, Holding(claimed.id, worker, now, now + ttl))
    {
      hide Find, Basename, EndsWith, MarkerUnambiguous, ItemId, Under, Free, TookLease, HeldUntil;
      var listing := store.List(root + "/pending");
      var candidates := Candidates(listing);
      for i := 0 to |candidates|
        invariant store.files == old(store.files) && store.history == old(store.history)
        invariant forall j, id | 0 <= j < i && MarkerUnambiguous(root) && candidates[j] == PendingItem(root, id) ::
            !Free(store.files, LeasePath(root, id), now)
      {
        var id := ItemId(candidates[i]);
        CandidateRoundTrip(root, candidates[i]);
        assert candidates[i] in candidates;
        var owned := AcquireLease(store, LeasePath(root, id), L.Lease(worker, now, Some(now + ttl)), now);
        if owned {
          QueuePathsDistinct(root, id, id);
          var raw := store.ReadBytes(PendingItem(root, id));
          TookLeaseIsOneWrite(root, old(store.files), store.files, Holding(id, worker, now, now + ttl));
          if raw.Raise? || !raw.value.ItemBlob? { return Raised(id); }
          return Got(raw.value.item, Holding(id, worker, now, now + ttl));
        }
        forall other | MarkerUnambiguous(root) && candidates[i] == PendingItem(root, other) ensures other == id {
          QueuePathsInjective(root, "completed", other, id);
        }
      }
      if MarkerUnambiguous(root) {
        forall id ensures !Claimable(root, store.files, id, now) {
          if PendingItem(root, id) in store.files {
            PendingIsListed(root, id);
            var j :| 0 <= j < |candidates| && candidates[j] == PendingItem(root, id);
          }
        }
      }
      return Nothing;
    }

    /** The `.json` files of a listing. The source then shuffles them; any order will do. */
    method Candidates(listing: seq<string>) returns (candidates: seq<string>)
      ensures forall p :: p in candidates <==> p in listing && EndsWith(p, ".json") && !EndsWith(p, "/") && !EndsWith(p, ".lease")
      ensures forall p | p in candidates :: EndsWith(Basename(p), ".json")
    {
      hide EndsWith, Basename;
      candidates := [];
      for i := 0 to |listing|
        invariant forall p :: p in candidates <==> p in listing[..i] && EndsWith(p, ".json") && !EndsWith(p, "/") && !EndsWith(p, ".lease")
      {
        var p := listing[i];
        assert listing[..i + 1] == listing[..i] + [p];
        if EndsWith(p, "/") || EndsWith(p, ".lease") || !EndsWith(p, ".json") { continue; }
        candidates := candidates + [p];
      }
      assert listing[..|listing|] == listing;
      forall p | p in candidates ensures EndsWith(Basename(p), ".json") { BasenameKeepsSuffix(p, ".json"); }
    }

    /** Terminal record first, then the pending item, then the lease: whoever looks in between, or after a
        crash, finds the completed record. */
    method Complete(item: Item, lease: Holding, result: Record, now: int)
      modifies store
      ensures store.files == Settle(root, old(store.files), Terminal(root, "completed", lease.id), DoneBlob(item,
          lease.worker, now, result), lease.id)
      ensures old(store.history) <= store.history
      ensures forall i | |old(store.history)| <= i < |store.history| ::
                Settling(root, old(store.files), Terminal(root, "completed", lease.id), DoneBlob(item, lease.worker,
                    now, result), lease.id, store.history[i])
    {
      var terminal := Terminal(root, "completed", lease.id);
      store.WriteAtomic(terminal, DoneBlob(item, lease.worker, now, result));
      ghost var mid, written := store.history, store.files;
      Clear(lease.id);
      assert forall i | |old(store.history)| <= i < |mid| :: store.history[i] == mid[i] == written;
    }

    method Fail(lease: Holding, now: int)
      modifies store
      ensures store.files == Settle(root, old(store.files), Terminal(root, "failed", lease.id), FailBlob(lease.id,
          lease.worker, now), lease.id)
      ensures old(store.history) <= store.history
      ensures forall i | |old(store.history)| <= i < |store.history| ::
                Settling(root, old(store.files), Terminal(root, "failed", lease.id), FailBlob(lease.id, lease.worker,
                    now), lease.id, store.history[i])
    {
      var terminal := Terminal(root, "failed", lease.id);
      store.WriteAtomic(terminal, FailBlob(lease.id, lease.worker, now));
      ghost var mid, written := store.history, store.files;
      Clear(lease.id);
      assert forall i | |old(store.history)| <= i < |mid| :: store.history[i] == mid[i] == written;
    }

    /** The deletes both endings share: the pending item, then the lease. */
    method Clear(id: string)
      modifies store
      ensures store.files == old(store.files) - {PendingItem(root, id)} - {LeasePath(root, id)}
      ensures old(store.history) <= store.history
      ensures forall i | |old(store.history)| <= i < |store.history| ::
                store.history[i] == old(store.files) - {PendingItem(root, id)} || store.history[i] == store.files
    {
      var there := store.Exists(PendingItem(root, id));
      if there { store.Delete(PendingItem(root, id)); }
      there := store.Exists(LeasePath(root, id));
      if there { store.Delete(LeasePath(root, id)); }
    }
  }

  lemma CandidateRoundTrip(root: string, path: string)
    requires EndsWith(path, ".json") && EndsWith(Basename(path), ".json")
    ensures MarkerUnambiguous(root) && Under(root + "/pending", path) ==> path == PendingItem(root, ItemId(path))
  {
    if MarkerUnambiguous(root) && Under(root + "/pending", path) {
      assert root + "/pending" + "/" == root + MARKER;
      CandidateHasId(root, path);
      var id :| path == PendingItem(root, id);
      ClaimRoundTripExactly(root, id);
    }
  }

  lemma PendingIsListed(root: string, id: string)
    ensures Under(root + "/pending", PendingItem(root, id)) && EndsWith(PendingItem(root, id), ".json")
    ensures !EndsWith(PendingItem(root, id), "/") && !EndsWith(PendingItem(root, id), ".lease")
  {
    hide EndsWith, OccursAt, Basename, PendingItem, Under;
    PendingItemParts(root, id);
    PendingItemPlace(root, id);
  }
}
