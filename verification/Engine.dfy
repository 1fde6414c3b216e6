/** `DefaultTransformEngine.run_once` as the source runs it alone, what a crash in the middle leaves behind, and
    when a terminal record comes too late. */
module Engine {
  import opened Text
  import opened Folding
  import opened Naming
  import opened Blobs
  import opened Backend
  import opened Claiming
  import opened Edges
  import opened Ledger
  import opened QueueEdge

  datatype Outcome = Worked | Idle | Raised

  /** How the sink's write goes: it may raise, before or after the record is in place. */
  datatype Write = Written | Refused | WrittenThenRaised

  /** What the world answers to one call: the clock at the claim, before the sink, after it and at the
      terminal record, and how the sink's write goes. */
  datatype Readings = Readings(claim: int, before: int, after: int, terminal: int, write: Write)

  /** A worker on a queue that feeds a log; `None` is a transform that raises. */
  datatype Station = Station(root: string, sink: string, transform: Item -> Option<Record>, worker: string, ttl: int)

  function Completed(st: Station, id: string): string {
    Terminal(st.root, "completed", id)
  }

  function Failed(st: Station, id: string): string {
    Terminal(st.root, "failed", id)
  }

  function Held(st: Station, f: Files, id: string, at: Readings): Files {
    f[LeasePath(st.root, id) := LeaseFor(st.worker, at.claim, st.ttl)]
  }

  /** The store once `item`, pending as `id`, has been worked on. */
  function Processed(st: Station, f: Files, id: string, item: Item, at: Readings): Files {
    var held := Held(st, f, id, at);
    match st.transform(item)
    case None => Settle(st.root, held, Failed(st, id), FailBlob(id, st.worker, at.terminal), id)
    case Some(out) =>
      if at.before > at.claim + st.ttl then held
      else
        var sunk := if at.write.Refused? then held else Appended(held, LogPath(st.sink, out.id), out);
        if !at.write.Written? then Settle(st.root, sunk, Failed(st, id), FailBlob(id, st.worker, at.terminal), id)
        else if at.after > at.claim + st.ttl then sunk
        else Settle(st.root, sunk, Completed(st, id), DoneBlob(item, st.worker, at.terminal, out), id)
  }

  /** One call takes the store from `f` to `g`. */
  ghost predicate Ran(st: Station, f: Files, g: Files, at: Readings, outcome: Outcome) {
    match outcome
    case Idle => g == f && forall id :: !Claimable(st.root, f, id, at.claim)
    case Raised => exists id :: RaisedOn(st, f, g, at, id)
    case Worked => exists id, item :: WorkedOn(st, f, g, at, id, item)
  }

  predicate RaisedOn(st: Station, f: Files, g: Files, at: Readings, id: string) {
    && Claimable(st.root, f, id, at.claim)
    && !f[PendingItem(st.root, id)].ItemBlob?
    && g == Held(st, f, id, at)
  }

  predicate WorkedOn(st: Station, f: Files, g: Files, at: Readings, id: string, item: Item) {
    && Claimable(st.root, f, id, at.claim)
    && f[PendingItem(st.root, id)] == ItemBlob(item)
    && g == Processed(st, f, id, item, at)
  }

  /** What a crash at this point leaves behind: every id pending at `f` is still pending or has its
      terminal record, and a new completed record never comes before its output is in the sink. */
  ghost predicate Survives(st: Station, f: Files, h: Files) {
    && (forall id | PendingItem(st.root, id) in f :: PendingItem(st.root, id) in h || Completed(st, id) in h || Failed(st, id) in h)
    && (forall id | Completed(st, id) in h && Completed(st, id) !in f :: Sunk(st, f, h, id))
  }

  /** Every store the history has gained survives. */
  ghost predicate Survive(st: Station, f: Files, before: seq<Files>, history: seq<Files>) {
    forall i | |before| <= i < |history| :: Survives(st, f, history[i])
  }

  predicate Sunk(st: Station, f: Files, h: Files, id: string) {
    var p := PendingItem(st.root, id);
    && p in f && f[p].ItemBlob?
    && var out := st.transform(f[p].item);
       out.Some? && LogPath(st.sink, out.value.id) in h && h[LogPath(st.sink, out.value.id)] == RecordBlob(out.value)
  }

  /** Neither root lies inside the other. */
  predicate Apart(a: string, b: string) {
    !(a + "/" <= b + "/") && !(b + "/" <= a + "/")
  }

  /** Two roots share a path if and only if one lies inside the other. */
  lemma RootsDisjointExactly(a: string, b: string)
    ensures Apart(a, b) <==> forall p :: !(Under(a, p) && Under(b, p))
  {
    if forall p :: !(Under(a, p) && Under(b, p)) {
      assert !(Under(a, a + "/") && Under(b, a + "/"));
      assert !(Under(a, b + "/") && Under(b, b + "/"));
    }
    if Apart(a, b) {
      forall p ensures !(Under(a, p) && Under(b, p)) {
        if Under(a, p) && Under(b, p) { PrefixesNest(a + "/", b + "/", p); }
      }
    }
  }

  /** Of two prefixes of one string, one is a prefix of the other. */
  lemma PrefixesNest(a: string, b: string, s: string)
    requires a <= s && b <= s
    ensures a <= b || b <= a
  {
    if |a| <= |b| { assert a == s[..|a|] == b[..|a|]; } else { assert b == s[..|b|] == a[..|b|]; }
  }

  class DefaultTransformEngine {

    constructor () {}

    /** One call is one of the three outcomes, exactly; and at every step on the way a crash loses nothing. */
    method RunOnce(source: PathQueueEdge, sink: PathLogEdge, transform: Item -> Option<Record>, worker: string,
        ttl: int, at: Readings) returns (outcome: Outcome)
      requires sink.store == source.store
      modifies source.store
      ensures MarkerUnambiguous(source.root) ==>
                Ran(Station(source.root, sink.root, transform, worker, ttl), old(source.store.files),
                    source.store.files, at, outcome)
      ensures old(source.store.history) <= source.store.history
      ensures MarkerUnambiguous(source.root) && Apart(source.root, sink.root) ==>
                Survive(Station(source.root, sink.root, transform, worker, ttl), old(source.store.files),
                    old(source.store.history), source.store.history)
    {
      hide Survive, MarkerUnambiguous, Apart, Ran, Settling, Free, TookLease, LeasePath, Settle;
      ghost var st := Station(source.root, sink.root, transform, worker, ttl);
      ghost var f, h := source.store.files, source.store.history;
      ghost var sound := MarkerUnambiguous(st.root) && Apart(st.root, st.sink);
      var claimed := source.Claim(worker, ttl, at.claim);
      ghost var held, claims := source.store.files, source.store.history;
      if claimed.Nothing? {
        if MarkerUnambiguous(st.root) { IdleRan(st, f, at); }
        if sound { SameSurvive(st, f, h, claims); }
        return Idle;
      }
      ghost var id := if claimed.Raised? then claimed.id else claimed.lease.id;
      TookLeaseIsOneWrite(st.root, f, held, Holding(id, worker, at.claim, at.claim + ttl));
      if sound { ClaimSurvive(st, f, h, claims, id, at); }
      if claimed.Raised? {
        if MarkerUnambiguous(st.root) { RaisedRan(st, f, held, at, id); }
        return Outcome.Raised;
      }
      var item, lease := claimed.item, claimed.lease;
      var out := transform(item);
      if out.None? {
        source.Fail(lease, at.terminal);
        if sound { FailSurvive(st, f, h, claims, source.store.history, id, None, at); }
      } else if !LeaseExpired(lease, at.before) {
        if !at.write.Refused? { var _ := sink.Append(out.value); }
        ghost var appends := source.store.history;
        ghost var written := if at.write.Refused? then None else out;
        if sound { AppendSurvive(st, f, h, claims, appends, id, written, at); }
        if !at.write.Written? {
          source.Fail(lease, at.terminal);
          if sound { FailSurvive(st, f, h, appends, source.store.history, id, written, at); }
        } else if !LeaseExpired(lease, at.after) {
          source.Complete(item, lease, out.value, at.terminal);
          if sound { CompleteSurvive(st, f, h, appends, source.store.history, id, item, out.value, at); }
        }
      }
      if MarkerUnambiguous(st.root) { WorkedRan(st, f, source.store.files, at, id, item); }
      return Worked;
    }
  }

  /** No queue file is a log file. */
  lemma SinkIsElsewhere(st: Station, id: string, x: string)
    requires Apart(st.root, st.sink)
    ensures LogPath(st.sink, x) !in {PendingItem(st.root, id), LeasePath(st.root, id), Completed(st, id), Failed(st, id)}
  {
    RootsDisjointExactly(st.root, st.sink);
    var out := LogPath(st.sink, x);
    assert Under(st.sink, out) by { assert out[..|st.sink| + 1] == st.sink + "/"; }
    forall p | p in {PendingItem(st.root, id), LeasePath(st.root, id), Completed(st, id), Failed(st,
        id)} ensures Under(st.root, p) {
      assert p[..|st.root| + 1] == st.root + "/";
    }
  }

  lemma NothingIsLost(st: Station, f: Files)
    ensures Survives(st, f, f)
  {}

  lemma HeldSurvives(st: Station, f: Files, id: string, at: Readings)
    ensures Survives(st, f, Held(st, f, id, at))
    ensures forall other :: !(Completed(st, other) in Held(st, f, id, at) && Completed(st, other) !in f)
  {
    hide Sunk;
    forall other ensures Completed(st, other) != LeasePath(st.root, id) { QueuePathsDistinct(st.root, id, other); }
  }

  lemma SunkSurvives(st: Station, f: Files, id: string, out: Record, at: Readings)
    requires Apart(st.root, st.sink)
    ensures
      var h := Appended(Held(st, f, id, at), LogPath(st.sink, out.id), out);
      Survives(st, f, h) && forall other :: !(Completed(st, other) in h && Completed(st, other) !in f)
  {
    hide Sunk, LogPath, Apart;
    HeldSurvives(st, f, id, at);
    var h := Appended(Held(st, f, id, at), LogPath(st.sink, out.id), out);
    forall other ensures !(Completed(st, other) in h && Completed(st, other) !in f) {
      SinkIsElsewhere(st, other, out.id);
      QueuePathsDistinct(st.root, id, other);
    }
  }

  /** What is pending stays pending, the deleted id excepted, which has its terminal record. */
  lemma SettlingKeeps(st: Station, f: Files, base: Files, h: Files, terminal: string, record: Blob, id: string, other: string)
    requires terminal == Completed(st, id) || terminal == Failed(st, id)
    requires f.Keys <= base.Keys && Settling(st.root, base, terminal, record, id, h)
    ensures terminal in h
    ensures PendingItem(st.root, other) in f ==> PendingItem(st.root, other) in h || other == id
  {
    QueuePathsDistinct(st.root, other, id);
    QueuePathsDistinct(st.root, id, id);
    QueuePathsInjective(st.root, "completed", other, id);
  }

  lemma FailSurvives(st: Station, f: Files, base: Files, h: Files, id: string, at: Readings)
    requires f.Keys <= base.Keys
    requires forall other :: !(Completed(st, other) in base && Completed(st, other) !in f)
    requires Settling(st.root, base, Failed(st, id), FailBlob(id, st.worker, at.terminal), id, h)
    ensures Survives(st, f, h)
  {
    hide Sunk, Settling;
    forall other | PendingItem(st.root, other) in f ensures PendingItem(st.root, other) in h ||
        Completed(st, other) in h || Failed(st, other) in h {
      SettlingKeeps(st, f, base, h, Failed(st, id), FailBlob(id, st.worker, at.terminal), id, other);
    }
    forall other ensures !(Completed(st, other) in h && Completed(st, other) !in f) {
      if Completed(st, other) in h {
        SettlingAdds(st, base, h, Failed(st, id), FailBlob(id, st.worker, at.terminal), id, Completed(st, other));
        QueuePathsDistinct(st.root, id, other);
        QueuePathsDistinct(st.root, other, id);
      }
    }
  }

  lemma SettlingAdds(st: Station, base: Files, h: Files, terminal: string, record: Blob, id: string, p: string)
    requires Settling(st.root, base, terminal, record, id, h) && p in h
    ensures p == terminal || (p in base && h[p] == base[p])
  {}

  lemma CompleteSurvives(st: Station, f: Files, h: Files, id: string, item: Item, out: Record, at: Readings)
    requires Apart(st.root, st.sink)
    requires PendingItem(st.root, id) in f && f[PendingItem(st.root, id)] == ItemBlob(item) && st.transform(item) == Some(out)
    requires
      var sunk := Appended(Held(st, f, id, at), LogPath(st.sink, out.id), out);
      Settling(st.root, sunk, Completed(st, id), DoneBlob(item, st.worker, at.terminal, out), id, h)
    ensures Survives(st, f, h)
  {
    hide LogPath, Apart, Settling;
    var sunk := Appended(Held(st, f, id, at), LogPath(st.sink, out.id), out);
    forall other | PendingItem(st.root, other) in f ensures PendingItem(st.root, other) in h ||
        Completed(st, other) in h || Failed(st, other) in h {
      SettlingKeeps(st, f, sunk, h, Completed(st, id), DoneBlob(item, st.worker, at.terminal, out), id, other);
    }
    forall other | Completed(st, other) in h && Completed(st, other) !in f ensures Sunk(st, f, h, other) {
      SettlingAdds(st, sunk, h, Completed(st, id), DoneBlob(item, st.worker, at.terminal, out), id, Completed(st, other));
      SinkIsElsewhere(st, other, out.id);
      QueuePathsDistinct(st.root, id, other);
      QueuePathsInjective(st.root, "completed", other, id);
      SettlingLeaves(st, sunk, h, Completed(st, id), DoneBlob(item, st.worker, at.terminal, out), id, LogPath(st.sink, out.id));
    }
  }

  lemma SettlingLeaves(st: Station, base: Files, h: Files, terminal: string, record: Blob, id: string, p: string)
    requires Settling(st.root, base, terminal, record, id, h)
    requires p in base && p != terminal && p != PendingItem(st.root, id) && p != LeasePath(st.root, id)
    ensures p in h && h[p] == base[p]
  {}

  /** The store when the terminal record is due: the lease taken, and the output in the sink if it got there. */
  function Basis(st: Station, f: Files, id: string, out: Option<Record>, at: Readings): Files {
    var held := Held(st, f, id, at);
    if out.None? then held else Appended(held, LogPath(st.sink, out.value.id), out.value)
  }

  lemma BasisSurvives(st: Station, f: Files, id: string, out: Option<Record>, at: Readings)
    requires Apart(st.root, st.sink)
    ensures Survives(st, f, Basis(st, f, id, out, at)) && f.Keys <= Basis(st, f, id, out, at).Keys
    ensures forall other :: !(Completed(st, other) in Basis(st, f, id, out, at) && Completed(st, other) !in f)
  {
    hide Survives, Apart, LogPath, LeasePath;
    HeldSurvives(st, f, id, at);
    if out.Some? { SunkSurvives(st, f, id, out.value, at); }
  }

  lemma SameSurvive(st: Station, f: Files, before: seq<Files>, history: seq<Files>)
    requires forall i | |before| <= i < |history| :: history[i] == f
    ensures Survive(st, f, before, history)
  {
    hide Survives;
    NothingIsLost(st, f);
  }

  lemma ClaimSurvive(st: Station, f: Files, before: seq<Files>, history: seq<Files>, id: string, at: Readings)
    requires Apart(st.root, st.sink)
    requires forall i | |before| <= i < |history| :: history[i] == Held(st, f, id, at)
    ensures Survive(st, f, before, history)
  {
    hide Survives, Apart, LeasePath;
    BasisSurvives(st, f, id, None, at);
  }

  lemma AppendSurvive(st: Station, f: Files, before: seq<Files>, mid: seq<Files>, history: seq<Files>, id: string,
      out: Option<Record>, at: Readings)
    requires Apart(st.root, st.sink) && Survive(st, f, before, mid) && before <= mid
    requires history == if out.None? then mid else mid + [Basis(st, f, id, out, at)]
    ensures Survive(st, f, before, history)
  {
    hide Survives, Apart, Basis;
    BasisSurvives(st, f, id, out, at);
  }

  lemma FailSurvive(st: Station, f: Files, before: seq<Files>, mid: seq<Files>, history: seq<Files>, id: string,
      out: Option<Record>, at: Readings)
    requires Apart(st.root, st.sink) && Survive(st, f, before, mid) && before <= mid <= history
    requires forall i | |mid| <= i < |history| ::
               Settling(st.root, Basis(st, f, id, out, at), Failed(st, id), FailBlob(id, st.worker, at.terminal), id, history[i])
    ensures Survive(st, f, before, history)
  {
    hide Survives, Apart, Basis, Settling;
    BasisSurvives(st, f, id, out, at);
    forall i | |mid| <= i < |history| ensures Survives(st, f, history[i]) {
      FailSurvives(st, f, Basis(st, f, id, out, at), history[i], id, at);
    }
  }

  lemma CompleteSurvive(st: Station, f: Files, before: seq<Files>, mid: seq<Files>, history: seq<Files>, id: string,
      item: Item, out: Record, at: Readings)
    requires Apart(st.root, st.sink) && Survive(st, f, before, mid) && before <= mid <= history
    requires PendingItem(st.root, id) in f && f[PendingItem(st.root, id)] == ItemBlob(item) && st.transform(item) == Some(out)
    requires forall i | |mid| <= i < |history| ::
               Settling(st.root, Basis(st, f, id, Some(out), at), Completed(st, id), DoneBlob(item, st.worker,
                   at.terminal, out), id, history[i])
    ensures Survive(st, f, before, history)
  {
    hide Survives, Apart, Settling, PendingItem, LogPath, LeasePath;
    forall i | |mid| <= i < |history| ensures Survives(st, f, history[i]) {
      CompleteSurvives(st, f, history[i], id, item, out, at);
    }
  }

  lemma IdleRan(st: Station, f: Files, at: Readings)
    requires forall id :: !Claimable(st.root, f, id, at.claim)
    ensures Ran(st, f, f, at, Idle)
  {}

  lemma RaisedRan(st: Station, f: Files, g: Files, at: Readings, id: string)
    requires RaisedOn(st, f, g, at, id)
    ensures Ran(st, f, g, at, Outcome.Raised)
  {}

  lemma WorkedRan(st: Station, f: Files, g: Files, at: Readings, id: string, item: Item)
    requires WorkedOn(st, f, g, at, id, item)
    ensures Ran(st, f, g, at, Worked)
  {}

  /** `_lease_expired`: strictly past the expiry. */
  predicate LeaseExpired(lease: Holding, now: int) {
    now > lease.expires
  }

  /* ---- What a call does to each file ---- */

  /** The output goes to the sink: there is one, the lease has not run out, and the write does not fail. */
  predicate Appends(st: Station, item: Item, at: Readings) {
    st.transform(item).Some? && at.before <= at.claim + st.ttl && !at.write.Refused?
  }

  /** The item fails: the transform raises, or the sink does when it is tried. */
  predicate Fails(st: Station, item: Item, at: Readings) {
    st.transform(item).None? || (at.before <= at.claim + st.ttl && !at.write.Written?)
  }

  predicate Completes(st: Station, item: Item, at: Readings) {
    Appends(st, item, at) && at.write.Written? && at.after <= at.claim + st.ttl
  }

  /** Each file after a call that has worked on an item: which log path carries the output and when, which terminal
      record is written and when, what is left of the item and its lease; and no other file is touched. */
  lemma WorkedExactly(st: Station, f: Files, g: Files, at: Readings, id: string, item: Item)
    requires Apart(st.root, st.sink) && WorkedOn(st, f, g, at, id, item)
    ensures forall x :: if Appends(st, item, at) && st.transform(item).value.id == x
                        then FileIs(g, LogPath(st.sink, x), RecordBlob(st.transform(item).value))
                        else SameAt(f, g, LogPath(st.sink, x))
    ensures if Completes(st, item, at)
            then FileIs(g, Completed(st, id), DoneBlob(item, st.worker, at.terminal, st.transform(item).value))
            else SameAt(f, g, Completed(st, id))
    ensures if Fails(st, item, at) then FileIs(g, Failed(st, id), FailBlob(id, st.worker, at.terminal))
            else SameAt(f, g, Failed(st, id))
    ensures
      var item_, lease := PendingItem(st.root, id), LeasePath(st.root, id);
      if Completes(st, item, at) || Fails(st, item, at) then item_ !in g && lease !in g
      else SameAt(f, g, item_) && HeldUntil(g, lease, st.worker, at.claim, at.claim + st.ttl)
    ensures forall p | p !in {PendingItem(st.root, id), LeasePath(st.root, id), Completed(st, id), Failed(st, id)} &&
                (st.transform(item).Some? ==> p != LogPath(st.sink, st.transform(item).value.id)) :: SameAt(f, g, p)
  {
    hide Apart, LogPath, Free, HeldUntil, PendingItem, LeasePath, Terminal, Claimable;
    var out := st.transform(item);
    QueuePathsDistinct(st.root, id, id);
    if out.Some? { SinkIsElsewhere(st, id, out.value.id); }
    forall x ensures if Appends(st, item, at) && out.value.id == x then FileIs(g, LogPath(st.sink, x), RecordBlob(out.value))
        else SameAt(f, g, LogPath(st.sink, x)) {
      SinkIsElsewhere(st, id, x);
      if out.Some? { LogPathsInjective(st.sink, x, out.value.id); }
    }
    if !Completes(st, item, at) && !Fails(st, item, at) {
      WrittenIsHeld(g, LeasePath(st.root, id), st.worker, at.claim, at.claim + st.ttl);
    }
  }

  lemma LogPathsInjective(root: string, x: string, y: string)
    ensures LogPath(root, x) == LogPath(root, y) ==> x == y
  {
    if LogPath(root, x) == LogPath(root, y) { Between(root + "/", x, y, ".json"); }
  }

  /** The checks guard the sink and the completion: past its expiry at the first one a worker with an output
      touches nothing but its lease, and past it at the second only the lease and the output's file. */
  lemma ChecksGuard(st: Station, f: Files, g: Files, at: Readings, id: string, item: Item)
    requires Apart(st.root, st.sink) && WorkedOn(st, f, g, at, id, item) && st.transform(item).Some?
    ensures at.claim + st.ttl < at.before ==> forall p | p != LeasePath(st.root, id) :: SameAt(f, g, p)
    ensures at.write.Written? && at.claim + st.ttl < at.after ==>
              forall p | p != LeasePath(st.root, id) && p != LogPath(st.sink, st.transform(item).value.id) :: SameAt(f, g, p)
  {
    hide Apart, LogPath, PendingItem, LeasePath, Terminal, WorkedOn, SameAt, FileIs, HeldUntil;
    WorkedExactly(st, f, g, at, id, item);
  }

  /* ---- Terminal records past the lease's expiry ---- */

  predicate PastExpiry(st: Station, at: Readings) {
    at.terminal > at.claim + st.ttl
  }

  /** The call has written the id's terminal record and cleared the pending item. */
  predicate Settles(st: Station, g: Files, id: string, at: Readings) {
    var done, failed := Completed(st, id), Failed(st, id);
    && PendingItem(st.root, id) !in g
    && ((done in g && g[done].DoneBlob? && g[done].worker == st.worker && g[done].at == at.terminal)
        || (failed in g && g[failed] == FailBlob(id, st.worker, at.terminal)))
  }

  predicate PassesChecks(st: Station, item: Item, at: Readings) {
    var expires := at.claim + st.ttl;
    || st.transform(item).None?
    || (at.before <= expires && !at.write.Written?)
    || (at.before <= expires && at.after <= expires)
  }

  /** The clock is compared with the expiry before and after the sink, never at the terminal record: a call writes
      one if and only if the transform raises, or the first check passes and the sink raises, or both checks pass,
      and so it writes one past its lease's expiry exactly when, besides, that moment is past it. */
  lemma LateTerminalExactly(st: Station, f: Files, g: Files, at: Readings, id: string, item: Item)
    requires Apart(st.root, st.sink) && WorkedOn(st, f, g, at, id, item)
    ensures Settles(st, g, id, at) <==> PassesChecks(st, item, at)
  {
    hide Apart, LogPath, Free;
    QueuePathsDistinct(st.root, id, id);
    if st.transform(item).Some? { SinkIsElsewhere(st, id, st.transform(item).value.id); }
  }

  /** Both ways it happens: a transform that raises after the lease has run out, and a completion that comes
      after the second check has passed. */
  lemma LateTerminals() returns (raising: Station, working: Station, late: Readings, slow: Readings, f: Files)
    ensures late.claim <= late.before <= late.after <= late.terminal && slow.claim <= slow.before <= slow.after <= slow.terminal
    ensures PastExpiry(raising, late) && PastExpiry(working, slow)
    ensures Apart(raising.root, raising.sink) && Apart(working.root, working.sink)
    ensures
      var g := Processed(raising, f, "a", Item("a", ""), late);
      Ran(raising, f, g, late, Worked) && Settles(raising, g, "a", late)
    ensures
      var g := Processed(working, f, "a", Item("a", ""), slow);
      Ran(working, f, g, slow, Worked) && Settles(working, g, "a", slow)
  {
    hide Settles, Processed, PendingItem, LeasePath;
    var out := Record("a", "a", "", "");
    raising, working := Station("q", "s", i => None, "w", 900), Station("q", "s", i => Some(out), "w", 900);
    late, slow := Readings(0, 1000, 1000, 1000, Written), Readings(0, 800, 800, 1000, Written);
    f := map[PendingItem("q", "a") := ItemBlob(Item("a", ""))];
    QueuePathsDistinct("q", "a", "a");
    var g, h := Processed(raising, f, "a", Item("a", ""), late), Processed(working, f, "a", Item("a", ""), slow);
    assert Apart("q", "s") by { assert ("q" + "/")[0] == 'q' && ("s" + "/")[0] == 's'; }
    assert WorkedOn(raising, f, g, late, "a", Item("a", ""));
    assert WorkedOn(working, f, h, slow, "a", Item("a", ""));
    LateTerminalExactly(raising, f, g, late, "a", Item("a", ""));
    LateTerminalExactly(working, f, h, slow, "a", Item("a", ""));
  }

  /** A terminal record stops nobody: an item that is still pending is worked again, its output appended again
      and its completed record written anew, whatever the terminal folders hold. */
  lemma TerminalIsNotConsulted(st: Station, f: Files, id: string, item: Item, at: Readings, out: Record)
    requires Apart(st.root, st.sink) && Claimable(st.root, f, id, at.claim) && f[PendingItem(st.root, id)] == ItemBlob(item)
    requires Completed(st, id) in f && st.transform(item) == Some(out)
    requires at.write.Written? && at.before <= at.claim + st.ttl && at.after <= at.claim + st.ttl
    ensures
      var g := Processed(st, f, id, item, at);
      && Ran(st, f, g, at, Worked)
      && LogPath(st.sink, out.id) in g && g[LogPath(st.sink, out.id)] == RecordBlob(out)
      && Completed(st, id) in g && g[Completed(st, id)] == DoneBlob(item, st.worker, at.terminal, out)
  {
    hide Apart, LogPath, Free;
    QueuePathsDistinct(st.root, id, id);
    SinkIsElsewhere(st, id, out.id);
    assert WorkedOn(st, f, Processed(st, f, id, item, at), at, id, item);
  }
}
