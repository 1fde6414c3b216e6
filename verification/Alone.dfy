/** One worker, nobody else about: the pipeline's steps take it through `run_once` and `enqueue` to the very store
    that the methods leave. What is proved of schedules is so proved of the methods' calls. */
module Alone {
  import opened Text
  import opened Folding
  import opened Naming
  import opened Blobs
  import opened Ledger
  import opened Claiming
  import opened QueueEdge
  import opened Engine
  import P = Pipeline
  import Compaction
  import L = Lease

  /** The worker's next step, the world answering as it did to the call. */
  function Next(q: P.Queue, w: nat, st: Station, at: Readings): P.Event {
    var expires := at.claim + st.ttl;
    match P.At(q, w)
    case Working(_, _) => P.Advance(w, at.before <= expires)
    case Ready(_, _, _) => if at.write.Refused? then P.Advance(w, false) else P.Sink(w, at.write.Written?)
    case Sunk(_, _, _) => P.Advance(w, at.after <= expires)
    case _ => P.Advance(w, true)
  }

  ghost function Stepped(cfg: P.Config, s: P.State, w: nat, st: Station, at: Readings): P.State {
    P.Apply(cfg, s, Next(s.q, w, st, at))
  }

  /** The worker's next `n` steps, or fewer when it is done before. */
  ghost function Played(cfg: P.Config, s: P.State, w: nat, st: Station, at: Readings, n: nat): P.State
    decreases n
  {
    if n == 0 || P.At(s.q, w).Idle? then s else Played(cfg, Stepped(cfg, s, w, st, at), w, st, at, n - 1)
  }

  ghost predicate Fits(cfg: P.Config, st: Station) {
    cfg.sink == st.sink && forall item :: cfg.transform(item) == st.transform(item)
  }

  /** The state's folders and sink are those in the store. */
  ghost predicate Shows(st: Station, f: Files, s: P.State) {
    && (forall id :: ShowsId(st, f, s.q, id))
    && (forall x :: SameAt(f, s.c.files, LogPath(st.sink, x)))
  }

  predicate ShowsId(st: Station, f: Files, q: P.Queue, id: string) {
    && (if id in q.pending then FileIs(f, PendingItem(st.root, id), ItemBlob(q.pending[id])) else PendingItem(st.root, id) !in f)
    && (if id in q.completed then DoneWith(f, Completed(st, id), q.completed[id]) else Completed(st, id) !in f)
    && (id in q.failed <==> Failed(st, id) in f)
  }

  predicate DoneWith(f: Files, path: string, item: Item) {
    path in f && f[path].DoneBlob? && f[path].item == item
  }

  /** What the steps of a whole call do to the folders. */
  function Settled(q: P.Queue, w: nat, st: Station, id: string, item: Item, at: Readings): P.Queue {
    var done := P.Move(q, w, P.Idle);
    if Completes(st, item, at) then done.(completed := q.completed[id := item], pending := q.pending - {id})
    else if Fails(st, item, at) then done.(failed := q.failed + {id}, pending := q.pending - {id})
    else done
  }

  /** And to the log. */
  function Delivered(s: P.State, st: Station, item: Item, at: Readings): Compaction.State {
    if !Appends(st, item, at) then s.c
    else
      var out := st.transform(item).value;
      var path := LogPath(st.sink, out.id);
      s.c.(files := Appended(s.c.files, path, out), log := s.c.log + {(path, out)})
  }

  /** One step ahead. */
  lemma Ahead(cfg: P.Config, s: P.State, w: nat, st: Station, at: Readings, n: nat)
    requires n > 0 && !P.At(s.q, w).Idle?
    ensures Played(cfg, s, w, st, at, n) == Played(cfg, Stepped(cfg, s, w, st, at), w, st, at, n - 1)
  {}

  lemma Done(cfg: P.Config, s: P.State, w: nat, st: Station, at: Readings, n: nat)
    requires P.At(s.q, w).Idle?
    ensures Played(cfg, s, w, st, at, n) == s
  {}

  /** The steps from the claim to the end of the call. */
  lemma CallSteps(cfg: P.Config, s: P.State, w: nat, st: Station, id: string, item: Item, at: Readings)
    requires Fits(cfg, st) && P.At(s.q, w) == P.Claimed(id) && id in s.q.pending && s.q.pending[id] == item
    ensures Played(cfg, s, w, st, at, 7) == s.(q := Settled(s.q, w, st, id, item, at), c := Delivered(s, st, item, at))
  {
    hide Played, Fits, LogPath;
    Ahead(cfg, s, w, st, at, 7);
    var working := s.(q := P.Move(s.q, w, P.Working(id, item)));
    assert Stepped(cfg, s, w, st, at) == working;
    WorkingSteps(cfg, working, w, st, id, item, at);
  }

  lemma WorkingSteps(cfg: P.Config, s: P.State, w: nat, st: Station, id: string, item: Item, at: Readings)
    requires Fits(cfg, st) && P.At(s.q, w) == P.Working(id, item) && id in s.q.pending
    ensures Played(cfg, s, w, st, at, 6) == s.(q := Settled(s.q, w, st, id, item, at), c := Delivered(s, st, item, at))
  {
    hide Played, LogPath;
    Ahead(cfg, s, w, st, at, 6);
    var out, t := st.transform(item), Stepped(cfg, s, w, st, at);
    if out.None? {
      FailingSteps(cfg, t, w, st, id, at, 5);
    } else if at.before <= at.claim + st.ttl {
      ReadySteps(cfg, t, w, st, id, item, at);
    } else {
      Done(cfg, t, w, st, at, 5);
    }
  }

  lemma ReadySteps(cfg: P.Config, s: P.State, w: nat, st: Station, id: string, item: Item, at: Readings)
    requires Fits(cfg, st) && st.transform(item).Some? && at.before <= at.claim + st.ttl && id in s.q.pending
    requires P.At(s.q, w) == P.Ready(id, item, st.transform(item).value)
    ensures Played(cfg, s, w, st, at, 5) == s.(q := Settled(s.q, w, st, id, item, at), c := Delivered(s, st, item, at))
  {
    hide Played, LogPath;
    Ahead(cfg, s, w, st, at, 5);
    var t := Stepped(cfg, s, w, st, at);
    if !at.write.Written? {
      FailingSteps(cfg, t, w, st, id, at, 4);
    } else {
      SunkSteps(cfg, t, w, st, id, item, st.transform(item).value, at);
    }
  }

  lemma SunkSteps(cfg: P.Config, s: P.State, w: nat, st: Station, id: string, item: Item, out: Record, at: Readings)
    requires P.At(s.q, w) == P.Sunk(id, item, out) && id in s.q.pending
    ensures
      var done := P.Move(s.q, w, P.Idle);
      Played(cfg, s, w, st, at, 4) ==
        s.(q := if at.after > at.claim + st.ttl then done
                else done.(completed := s.q.completed[id := item], pending := s.q.pending - {id}))
  {
    hide Played;
    Ahead(cfg, s, w, st, at, 4);
    var t := Stepped(cfg, s, w, st, at);
    if at.after > at.claim + st.ttl {
      Done(cfg, t, w, st, at, 3);
    } else {
      Ahead(cfg, t, w, st, at, 3);
      ClearingSteps(cfg, Stepped(cfg, t, w, st, at), w, st, id, at, 2);
    }
  }

  lemma FailingSteps(cfg: P.Config, s: P.State, w: nat, st: Station, id: string, at: Readings, n: nat)
    requires P.At(s.q, w) == P.Failing(id) && n >= 3 && id in s.q.pending
    ensures Played(cfg, s, w, st, at, n) ==
              s.(q := P.Move(s.q, w, P.Idle).(failed := s.q.failed + {id}, pending := s.q.pending - {id}))
  {
    hide Played;
    Ahead(cfg, s, w, st, at, n);
    ClearingSteps(cfg, Stepped(cfg, s, w, st, at), w, st, id, at, n - 1);
  }

  lemma ClearingSteps(cfg: P.Config, s: P.State, w: nat, st: Station, id: string, at: Readings, n: nat)
    requires P.At(s.q, w) == P.Written(id) && id in s.q.pending && n >= 2
    ensures Played(cfg, s, w, st, at, n) == s.(q := P.Move(s.q, w, P.Idle).(pending := s.q.pending - {id}))
  {
    hide Played;
    Ahead(cfg, s, w, st, at, n);
    var t := Stepped(cfg, s, w, st, at);
    Ahead(cfg, t, w, st, at, n - 1);
    Done(cfg, Stepped(cfg, t, w, st, at), w, st, at, n - 2);
  }

  /* ---- The two stores ---- */

  /** The folders of every id but this one are untouched by the call. */
  lemma OtherIds(st: Station, f: Files, g: Files, at: Readings, id: string, item: Item, other: string)
    requires Apart(st.root, st.sink) && WorkedOn(st, f, g, at, id, item) && other != id
    ensures SameAt(f, g, PendingItem(st.root, other)) && SameAt(f, g, Completed(st, other)) && SameAt(f, g, Failed(st, other))
  {
    hide Apart, LogPath, PendingItem, LeasePath, Terminal, WorkedOn, SameAt, HeldUntil, FileIs;
    WorkedExactly(st, f, g, at, id, item);
    QueuePathsDistinct(st.root, other, id);
    QueuePathsDistinct(st.root, id, other);
    QueuePathsInjective(st.root, "completed", other, id);
    QueuePathsInjective(st.root, "failed", other, id);
    if st.transform(item).Some? { SinkIsElsewhere(st, other, st.transform(item).value.id); }
  }

  lemma OwnId(st: Station, f: Files, g: Files, at: Readings, id: string, item: Item, q: P.Queue, w: nat)
    requires Apart(st.root, st.sink) && WorkedOn(st, f, g, at, id, item)
    requires ShowsId(st, f, q, id) && id in q.pending && q.pending[id] == item
    ensures ShowsId(st, g, Settled(q, w, st, id, item, at), id)
  {
    hide Apart, LogPath, PendingItem, LeasePath, Terminal, WorkedOn, HeldUntil;
    WorkedExactly(st, f, g, at, id, item);
  }

  lemma SinkMatches(st: Station, f: Files, g: Files, at: Readings, id: string, item: Item, s: P.State, x: string)
    requires Apart(st.root, st.sink) && WorkedOn(st, f, g, at, id, item) && SameAt(f, s.c.files, LogPath(st.sink, x))
    ensures SameAt(g, Delivered(s, st, item, at).files, LogPath(st.sink, x))
  {
    hide Apart, LogPath, PendingItem, LeasePath, Terminal, WorkedOn, HeldUntil;
    WorkedExactly(st, f, g, at, id, item);
    if st.transform(item).Some? { LogPathsInjective(st.sink, x, st.transform(item).value.id); }
  }

  /** The steps of a worker who holds an item's lease, with nobody else about, end where `run_once` ends: in its
      folders, its terminal records and its sink, whatever the clock and the sink answer. */
  lemma CallMatches(cfg: P.Config, st: Station, f: Files, g: Files, at: Readings, id: string, item: Item, s: P.State, w: nat)
    requires Fits(cfg, st) && Apart(st.root, st.sink) && WorkedOn(st, f, g, at, id, item)
    requires Shows(st, f, s) && P.At(s.q, w) == P.Claimed(id)
    ensures
      var t := Played(cfg, s, w, st, at, 7);
      P.At(t.q, w).Idle? && Shows(st, g, t)
  {
    hide Fits, Apart, Played, ShowsId, LogPath, SameAt, Settled, Delivered;
    PendingShown(st, f, s.q, id, item);
    CallSteps(cfg, s, w, st, id, item, at);
    var q := Settled(s.q, w, st, id, item, at);
    SettledIdle(s.q, w, st, id, item, at);
    forall other ensures ShowsId(st, g, q, other) {
      if other == id {
        OwnId(st, f, g, at, id, item, s.q, w);
      } else {
        OtherIds(st, f, g, at, id, item, other);
        OtherShown(st, f, g, s.q, w, id, item, at, other);
      }
    }
    forall x ensures SameAt(g, Delivered(s, st, item, at).files, LogPath(st.sink, x)) {
      SinkMatches(st, f, g, at, id, item, s, x);
    }
  }

  lemma PendingShown(st: Station, f: Files, q: P.Queue, id: string, item: Item)
    requires ShowsId(st, f, q, id) && FileIs(f, PendingItem(st.root, id), ItemBlob(item))
    ensures id in q.pending && q.pending[id] == item
  {}

  lemma SettledIdle(q: P.Queue, w: nat, st: Station, id: string, item: Item, at: Readings)
    ensures P.At(Settled(q, w, st, id, item, at), w).Idle?
  {
    hide Completes, Fails;
  }

  lemma OtherShown(st: Station, f: Files, g: Files, q: P.Queue, w: nat, id: string, item: Item, at: Readings, other: string)
    requires ShowsId(st, f, q, other) && other != id
    requires SameAt(f, g, PendingItem(st.root, other)) && SameAt(f, g, Completed(st, other)) && SameAt(f, g, Failed(st, other))
    ensures ShowsId(st, g, Settled(q, w, st, id, item, at), other)
  {
    hide Completes, Fails, PendingItem, Terminal;
  }

  /** `enqueue` alone: the offer, and where the item was there already one look at it. */
  lemma EnqueueMatches(cfg: P.Config, st: Station, f: Files, item: Item, at: Readings, s: P.State, w: nat)
    requires Apart(st.root, st.sink) && Shows(st, f, s) && P.At(s.q, w).Idle?
    ensures
      var path := PendingItem(st.root, item.id);
      var g := if path in f then f else f[path := ItemBlob(item)];
      var t := Played(cfg, s.(q := P.Offer(s.q, w, item)), w, st, at, 1);
      P.At(t.q, w).Idle? && Shows(st, g, t)
  {
    hide Apart, PendingItem, LeasePath, Terminal, LogPath, Played;
    var path, offered := PendingItem(st.root, item.id), s.(q := P.Offer(s.q, w, item));
    var g := if path in f then f else f[path := ItemBlob(item)];
    assert ShowsId(st, f, s.q, item.id);
    OfferPlayed(cfg, s, w, item, st, at);
    var t := Played(cfg, offered, w, st, at, 1);
    forall id ensures ShowsId(st, g, t.q, id) {
      assert ShowsId(st, f, s.q, id);
      QueuePathsDistinct(st.root, item.id, id);
      QueuePathsInjective(st.root, "completed", item.id, id);
    }
    forall x ensures SameAt(g, t.c.files, LogPath(st.sink, x)) { SinkIsElsewhere(st, item.id, x); }
  }

  lemma OfferPlayed(cfg: P.Config, s: P.State, w: nat, item: Item, st: Station, at: Readings)
    requires P.At(s.q, w).Idle?
    ensures
      var t := Played(cfg, s.(q := P.Offer(s.q, w, item)), w, st, at, 1);
      && P.At(t.q, w).Idle? && t.c == s.c && t.q.completed == s.q.completed && t.q.failed == s.q.failed
      && t.q.pending == if item.id in s.q.pending then s.q.pending else s.q.pending[item.id := item]
  {
    hide Played;
    var offered := s.(q := P.Offer(s.q, w, item));
    if P.At(offered.q, w).Idle? {
      Done(cfg, offered, w, st, at, 1);
    } else {
      Ahead(cfg, offered, w, st, at, 1);
      Done(cfg, Stepped(cfg, offered, w, st, at), w, st, at, 0);
    }
  }

  /* ---- `acquire_lease` ---- */

  /** Primitives of one worker up to the end of its `acquire_lease`, at most `n`. */
  function Tried(reread: bool, v: L.State, w: nat, n: nat): L.State
    decreases n
  {
    if n == 0 || L.At(v, w).Idle? || L.At(v, w).Holds() then v else Tried(reread, L.Primitive(reread, v, w), w, n - 1)
  }

  /** The call would succeed from here if nobody interfered any more: nothing has been seen yet and the lease is
      absent or has run out; the file was gone and still is; or what was judged has run out and the tag is, or will
      be, that of what is there. */
  predicate WouldTake(reread: bool, file: Option<L.Lease>, now: int, p: L.Phase) {
    match p
    case Vanished(_) => file.None?
    case Seen(_, seen) => L.Expired(seen, now) && file.Some? && (reread || file.value == seen)
    case Dead(_, seen) => file.Some? && (reread || file.value == seen)
    case Tagged(_, tag) => file == Some(tag)
    case _ => file.None? || L.Expired(file.value, now)
  }

  /** From any point of `acquire_lease` the worker left alone takes the lease if and only if it would, with its own
      record as the only change, and gives up otherwise. */
  lemma AcquiresExactly(reread: bool, v: L.State, w: nat)
    requires !L.At(v, w).Idle? && !L.At(v, w).Holds()
    ensures Tried(reread, v, w, 6) ==
              if WouldTake(reread, v.file, v.now, L.At(v, w)) then L.Take(v, w, L.At(v, w).mine) else L.Move(v, w, L.Idle)
  {
    hide L.Expired;
    TriedStep(reread, v, w, 6);
  }

  lemma {:induction false} TriedStep(reread: bool, v: L.State, w: nat, n: nat)
    requires Left(L.At(v, w)) <= n
    requires !L.At(v, w).Idle? && !L.At(v, w).Holds()
    ensures Tried(reread, v, w, n) ==
              if WouldTake(reread, v.file, v.now, L.At(v, w)) then L.Take(v, w, L.At(v, w).mine) else L.Move(v, w, L.Idle)
    decreases n
  {
    hide L.Expired;
    var t := L.Primitive(reread, v, w);
    if !L.At(t, w).Idle? && !L.At(t, w).Holds() { TriedStep(reread, t, w, n - 1); }
  }

  /** At most so many primitives are left. */
  function Left(p: L.Phase): nat {
    match p
    case Trying(_) => 6
    case Blocked(_) => 5
    case Present(_) => 4
    case Seen(_, _) => 3
    case Dead(_, _) => 2
    case _ => 1
  }

  /** So the primitives of a whole call are the method's: the lease is taken exactly when it is free. */
  lemma AcquireMatches(reread: bool, f: Files, path: string, v: L.State, w: nat, mine: L.Lease)
    requires L.At(v, w) == L.Trying(mine) && (path in f ==> f[path].LeaseBlob?)
    requires v.file == if path in f then Some(f[path].lease) else None
    ensures
      var t := Tried(reread, v, w, 6);
      && (L.At(t, w) == L.Owner(mine) <==> Free(f, path, v.now))
      && t.file == if Free(f, path, v.now) then Some(mine) else v.file
  {
    hide L.Expired, L.Primitive, Tried;
    AcquiresExactly(reread, v, w);
  }
}
