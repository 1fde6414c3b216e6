/** What two deliveries of one id can do to each other: schedules, leases and clock included, that end with an
    id both completed and failed, or with an item nobody has worked on. */
module Overlap {
  import opened Text
  import opened Folding
  import opened Naming
  import opened Blobs
  import opened Leased
  import opened Ledger
  import P = Pipeline
  import Compaction
  import CompactCycle
  import L = Lease

  const NOBODY := P.Queue(map[], map[], {}, map[], {}, {}, {})

  lemma Start(cfg: P.Config) returns (s: State)
    ensures Reachable(cfg, s)
    ensures s == State(P.State(NOBODY, Compaction.State(L.State(None, 0, map[]), map[], map[], {}), {}), map[], map[], map[])
  {
    s := State(P.State(NOBODY, Compaction.State(L.State(None, 0, map[]), map[], map[], {}), {}), map[], map[], map[]);
    assert Run(cfg, [s], []);
  }

  lemma Extend(cfg: P.Config, s: State, e: Event) returns (t: State)
    requires Reachable(cfg, s) && Enabled(cfg, s, e)
    ensures t == Apply(cfg, s, e) && Reachable(cfg, t)
  {
    hide P.Apply, P.Enabled, L.Primitive, L.At, Init, InTime;
    var states, events :| Run(cfg, states, events) && states[|states| - 1] == s;
    t := Apply(cfg, s, e);
    assert Run(cfg, states + [t], events + [e]);
  }

  /** An item is placed. */
  lemma Put(cfg: P.Config, s: State, w: nat, item: Item) returns (t: State)
    requires Reachable(cfg, s) && w !in s.hands && P.At(s.p.q, w).Idle? && item.id !in s.p.q.pending && s.p.others == {}
    requires forall o | o in s.p.q.offered :: P.Agree(cfg, item, o)
    ensures Reachable(cfg, t)
    ensures t == s.(p := s.p.(q := P.Place(s.p.q.(offered := s.p.q.offered + {item},
        workers := s.p.q.workers[w := P.Idle]), item)))
  {
    hide Reachable, P.Agree, P.AgreesWith;
    t := Extend(cfg, s, World(P.Enqueue(w, item)));
  }

  /** Time passes. */
  lemma Wait(cfg: P.Config, s: State, now: int) returns (t: State)
    requires Reachable(cfg, s) && Now(s) <= now
    ensures Reachable(cfg, t) && t == s.(p := s.p.(c := s.p.c.(lock := s.p.c.lock.(now := now))))
  {
    hide Reachable, CompactCycle.ListingOk, AppendOk, PlantOk;
    t := Extend(cfg, s, World(P.Compact(Compaction.Lock(L.Tick(now), false))));
  }

  /** The worker holds the id's lease and is about to read the item. */
  function Held(s: State, w: nat, id: string, worker: string, ttl: int): State {
    var mine := L.Lease(worker, Now(s), Some(Now(s) + ttl));
    s.(leases := s.leases[id := mine], hands := s.hands[w := Hand(id, L.Owner(mine))],
       p := s.p.(q := P.Move(s.p.q, w, P.Claimed(id))))
  }

  function About(s: State, w: nat, id: string, phase: L.Phase): State {
    s.(hands := s.hands[w := Hand(id, phase)])
  }

  lemma Began(cfg: P.Config, s: State, w: nat, id: string, worker: string, ttl: int) returns (t: State)
    requires Reachable(cfg, s) && w !in s.hands && P.At(s.p.q, w).Idle?
    ensures Reachable(cfg, t) && t == About(s, w, id, L.Trying(L.Lease(worker, Now(s), Some(Now(s) + ttl))))
  {
    hide Reachable;
    t := Extend(cfg, s, Claim(w, id, worker, ttl));
  }

  /** One primitive of acquire_lease that neither takes the lease nor gives up. */
  lemma Goes(cfg: P.Config, s: State, w: nat, id: string, a: L.Phase, b: L.Phase) returns (t: State)
    requires Reachable(cfg, About(s, w, id, a)) && !a.Holds() && !b.Idle? && !b.Owner? && id in s.leases
    requires LooksOn(cfg, s, w, id, a, b)
    ensures Reachable(cfg, t) && t == About(s, w, id, b)
  {
    hide Reachable, P.Apply, L.Primitive;
    t := Extend(cfg, About(s, w, id, a), Acquire(w));
    assert s.leases[id := s.leases[id]] == s.leases;
  }

  /** The primitive that takes it. */
  lemma Takes(cfg: P.Config, s: State, w: nat, id: string, a: L.Phase, mine: L.Lease) returns (t: State)
    requires Reachable(cfg, About(s, w, id, a)) && !a.Holds() && P.At(s.p.q, w).Idle?
    requires
      var v := View(About(s, w, id, a), id);
      L.Primitive(cfg.index.reread, v, w) == L.Take(v, w, mine)
    ensures Reachable(cfg, t)
    ensures t == s.(leases := s.leases[id := mine], hands := s.hands[w := Hand(id, L.Owner(mine))],
                    p := s.p.(q := P.Move(s.p.q, w, P.Claimed(id))))
  {
    hide Reachable, L.Primitive, P.At;
    ClaimStep(cfg, s.p, w, id);
    t := Extend(cfg, About(s, w, id, a), Acquire(w));
  }

  /** A free lease is taken at once. */
  lemma Grab(cfg: P.Config, s: State, w: nat, id: string, worker: string, ttl: int) returns (t: State)
    requires Reachable(cfg, s) && w !in s.hands && P.At(s.p.q, w).Idle? && id !in s.leases
    ensures Reachable(cfg, t) && t == Held(s, w, id, worker, ttl)
  {
    hide Reachable;
    var mine := L.Lease(worker, Now(s), Some(Now(s) + ttl));
    t := Began(cfg, s, w, id, worker, ttl);
    t := Takes(cfg, s, w, id, L.Trying(mine), mine);
  }

  /** What the worker sees of its id, and where it stands. */
  lemma SeesOwnId(s: State, w: nat, id: string, a: L.Phase)
    ensures View(About(s, w, id, a), id).file == LeaseAt(s, id) && View(About(s, w, id, a), id).now == Now(s)
    ensures L.At(View(About(s, w, id, a), id), w) == a
  {}

  /** With the lease there and run out, each look leads on to the next. */
  lemma LooksThrough(reread: bool, v: L.State, w: nat, mine: L.Lease, dead: L.Lease)
    requires v.file == Some(dead) && L.Expired(dead, v.now)
    ensures L.At(v, w) == L.Trying(mine) ==> L.Primitive(reread, v, w) == L.Move(v, w, L.Blocked(mine))
    ensures L.At(v, w) == L.Blocked(mine) ==> L.Primitive(reread, v, w) == L.Move(v, w, L.Present(mine))
    ensures L.At(v, w) == L.Present(mine) ==> L.Primitive(reread, v, w) == L.Move(v, w, L.Seen(mine, dead))
    ensures L.At(v, w) == L.Seen(mine, dead) ==> L.Primitive(reread, v, w) == L.Move(v, w, L.Dead(mine, dead))
    ensures L.At(v, w) == L.Dead(mine, dead) ==> L.Primitive(reread, v, w) == L.Move(v, w, L.Tagged(mine, dead))
  {
    hide L.At, L.Move;
  }

  lemma ReclaimPrimitives(cfg: P.Config, s: State, w: nat, id: string, mine: L.Lease, dead: L.Lease)
    requires id in s.leases && s.leases[id] == dead && L.Expired(dead, Now(s))
    ensures LooksOn(cfg, s, w, id, L.Trying(mine), L.Blocked(mine)) && LooksOn(cfg, s, w, id, L.Blocked(mine), L.Present(mine))
    ensures LooksOn(cfg, s, w, id, L.Present(mine), L.Seen(mine, dead))
    ensures LooksOn(cfg, s, w, id, L.Seen(mine, dead), L.Dead(mine, dead))
    ensures LooksOn(cfg, s, w, id, L.Dead(mine, dead), L.Tagged(mine, dead))
  {
    hide View, About, L.Primitive, L.At, L.Move, L.Expired;
    var from := [L.Trying(mine), L.Blocked(mine), L.Present(mine), L.Seen(mine, dead), L.Dead(mine, dead)];
    forall k | 0 <= k < |from|
      ensures L.At(View(About(s, w, id, from[k]), id), w) == from[k]
      ensures View(About(s, w, id, from[k]), id).file == Some(dead) && View(About(s, w, id, from[k]), id).now == Now(s)
    {
      SeesOwnId(s, w, id, from[k]);
    }
    forall k | 0 <= k < |from| { LooksThrough(cfg.index.reread, View(About(s, w, id, from[k]), id), w, mine, dead); }
    assert from[0] == L.Trying(mine) && from[1] == L.Blocked(mine) && from[2] == L.Present(mine);
    assert from[3] == L.Seen(mine, dead) && from[4] == L.Dead(mine, dead);
  }

  /** The swap under the tag of the lease that has run out. */
  lemma SwapTakes(cfg: P.Config, s: State, w: nat, id: string, mine: L.Lease, dead: L.Lease)
    requires id in s.leases && s.leases[id] == dead
    ensures
      var v := View(About(s, w, id, L.Tagged(mine, dead)), id);
      L.Primitive(cfg.index.reread, v, w) == L.Take(v, w, mine)
  {
    hide View, About, L.Take;
    SeesOwnId(s, w, id, L.Tagged(mine, dead));
  }

  predicate LooksOn(cfg: P.Config, s: State, w: nat, id: string, a: L.Phase, b: L.Phase) {
    var v := View(About(s, w, id, a), id);
    L.Primitive(cfg.index.reread, v, w) == L.Move(v, w, b)
  }

  /** One that has run out after a look at it. */
  lemma Reclaim(cfg: P.Config, s: State, w: nat, id: string, worker: string, ttl: int) returns (t: State)
    requires Reachable(cfg, s) && w !in s.hands && P.At(s.p.q, w).Idle?
    requires id in s.leases && L.Expired(s.leases[id], Now(s))
    ensures Reachable(cfg, t) && t == Held(s, w, id, worker, ttl)
  {
    hide Reachable, P.At, L.Primitive, View, About;
    var mine, dead := L.Lease(worker, Now(s), Some(Now(s) + ttl)), s.leases[id];
    ReclaimPrimitives(cfg, s, w, id, mine, dead);
    SwapTakes(cfg, s, w, id, mine, dead);
    t := Began(cfg, s, w, id, worker, ttl);
    t := Goes(cfg, s, w, id, L.Trying(mine), L.Blocked(mine));
    t := Goes(cfg, s, w, id, L.Blocked(mine), L.Present(mine));
    t := Goes(cfg, s, w, id, L.Present(mine), L.Seen(mine, dead));
    t := Goes(cfg, s, w, id, L.Seen(mine, dead), L.Dead(mine, dead));
    t := Goes(cfg, s, w, id, L.Dead(mine, dead), L.Tagged(mine, dead));
    t := Takes(cfg, s, w, id, L.Tagged(mine, dead), mine);
  }

  /** In time, it reads the item and transforms it. */
  lemma Prepare(cfg: P.Config, s: State, w: nat, id: string, out: Record) returns (t: State)
    requires Reachable(cfg, s) && P.At(s.p.q, w) == P.Claimed(id) && InTime(s, w)
    requires id in s.p.q.pending && cfg.transform(s.p.q.pending[id]) == Some(out)
    ensures Reachable(cfg, t)
    ensures
      var item := s.p.q.pending[id];
      t == s.(p := s.p.(q := P.Move(s.p.q, w, P.Ready(id, item, out))), held := s.held[w := item])
  {
    hide Reachable;
    t := Extend(cfg, s, Work(w));
    t := Extend(cfg, t, Work(w));
  }

  /** In time, it appends the output and passes the second check. */
  lemma Append(cfg: P.Config, s: State, w: nat, id: string, item: Item, out: Record) returns (t: State)
    requires Reachable(cfg, s) && P.At(s.p.q, w) == P.Ready(id, item, out) && InTime(s, w)
    ensures Reachable(cfg, t)
    ensures t == s.(p := Logged(cfg, s.p, w, P.Passed(id, item, out), out))
  {
    hide Reachable, P.OutPath, Appended;
    t := Extend(cfg, s, Sink(w, true));
    t := Extend(cfg, t, Work(w));
  }

  function Logged(cfg: P.Config, p: P.State, w: nat, phase: P.Phase, out: Record): P.State {
    var path := P.OutPath(cfg, out);
    p.(q := P.Move(p.q, w, phase), c := p.c.(files := Appended(p.c.files, path, out), log := p.c.log + {(path, out)}))
  }

  /** After the terminal record: the pending item goes, if it is there. Nobody asks for the time any more. */
  lemma Clear(cfg: P.Config, s: State, w: nat, id: string) returns (t: State)
    requires Reachable(cfg, s) && P.At(s.p.q, w) == P.Written(id)
    ensures Reachable(cfg, t)
    ensures t == s.(p := s.p.(q := P.Move(s.p.q, w, P.Idle).(pending := s.p.q.pending - {id})))
  {
    hide Reachable, InTime;
    t := Extend(cfg, s, Work(w));
    if id in s.p.q.pending {
      t := Extend(cfg, t, Work(w));
    } else {
      assert s.p.q.pending - {id} == s.p.q.pending;
    }
  }

  lemma Complete(cfg: P.Config, s: State, w: nat, id: string, item: Item, out: Record) returns (t: State)
    requires Reachable(cfg, s) && P.At(s.p.q, w) == P.Passed(id, item, out)
    ensures Reachable(cfg, t)
    ensures t == s.(p := s.p.(q := P.Move(s.p.q, w, P.Idle).(completed := s.p.q.completed[id := item],
        pending := s.p.q.pending - {id})))
  {
    hide Reachable, InTime;
    t := Extend(cfg, s, Work(w));
    t := Clear(cfg, t, w, id);
  }

  /** The sink raises: the item fails, whatever the time. */
  lemma Spoil(cfg: P.Config, s: State, w: nat, id: string, item: Item, out: Record) returns (t: State)
    requires Reachable(cfg, s) && P.At(s.p.q, w) == P.Ready(id, item, out)
    ensures Reachable(cfg, t) && t.p.q.completed == s.p.q.completed && id in t.p.q.failed
  {
    hide Reachable, InTime, P.OutPath, Appended;
    t := Extend(cfg, s, Sink(w, false));
    t := Extend(cfg, t, Work(w));
  }

  /** The lease file goes. */
  lemma LetLeaseGo(cfg: P.Config, s: State, w: nat, id: string, mine: L.Lease) returns (t: State)
    requires Reachable(cfg, s) && w in s.hands && s.hands[w] == Hand(id, L.Owner(mine)) && P.At(s.p.q, w).Idle? && id in s.leases
    ensures Reachable(cfg, t) && t == s.(leases := s.leases - {id}, hands := s.hands - {w})
  {
    hide Reachable, P.At;
    t := Extend(cfg, s, Release(w));
    t := Extend(cfg, t, Release(w));
    assert s.hands[w := Hand(id, L.Releasing(mine))] - {w} == s.hands - {w};
  }

  /** An id can end in both terminal folders. A worker prepares an output in time; its lease runs out, another
      reclaims it, delivers and completes; then the first one's sink raises, and `fail` asks neither for the
      time nor for a completed record. */
  lemma BothTerminal(cfg: P.Config, item: Item)
    requires cfg.transform(item).Some?
    ensures exists s :: Reachable(cfg, s) && item.id in s.p.q.completed && item.id in s.p.q.failed
  {
    hide Reachable, Appended, P.OutPath;
    var id, out := item.id, cfg.transform(item).value;
    var s := Start(cfg);
    s := Put(cfg, s, 2, item);
    s := Grab(cfg, s, 0, id, "a", 10);
    s := Prepare(cfg, s, 0, id, out);
    s := Wait(cfg, s, 11);
    s := Reclaim(cfg, s, 1, id, "b", 10);
    s := Prepare(cfg, s, 1, id, out);
    s := Append(cfg, s, 1, id, item, out);
    s := Complete(cfg, s, 1, id, item, out);
    assert P.At(s.p.q, 0) == P.Ready(id, item, out) && id in s.p.q.completed;
    s := Spoil(cfg, s, 0, id, item, out);
  }

  /** A worker passes both checks in time and stalls before its terminal record; its lease runs out, another
      reclaims it, completes, and clears item and lease. */
  lemma StallsAndIsOvertaken(cfg: P.Config, item: Item) returns (s: State)
    requires cfg.transform(item).Some?
    ensures
      var out := cfg.transform(item).value;
      && P.At(s.p.q, 0) == P.Passed(item.id, item, out)
      && s.p.c.log == {(P.OutPath(cfg, out), out)}
    ensures Reachable(cfg, s) && P.At(s.p.q, 2).Idle? && 2 !in s.hands && s.p.q.offered == {item} && s.p.others == {}
    ensures s.p.q.pending == map[] && s.p.q.failed == {}
  {
    hide Reachable, Appended, P.OutPath;
    var id, out := item.id, cfg.transform(item).value;
    s := Start(cfg);
    s := Put(cfg, s, 2, item);
    s := Grab(cfg, s, 0, id, "a", 10);
    s := Prepare(cfg, s, 0, id, out);
    s := Append(cfg, s, 0, id, item, out);
    s := Wait(cfg, s, 11);
    s := Reclaim(cfg, s, 1, id, "b", 10);
    s := Prepare(cfg, s, 1, id, out);
    s := Append(cfg, s, 1, id, item, out);
    s := Complete(cfg, s, 1, id, item, out);
    s := LetLeaseGo(cfg, s, 1, id, L.Lease("b", 11, Some(21)));
  }

  /** Why an item needs its worker to be in time: after that a second payload is placed under the id, and the
      first worker's completion, too late, deletes it. Nothing is pending, nothing has failed, and the second
      payload's output was never appended. */
  lemma SecondPayloadIsForgotten(cfg: P.Config, first: Item, second: Item)
    requires first.id == second.id && cfg.transform(first).Some? && cfg.transform(second).Some?
    requires P.OutPath(cfg, cfg.transform(first).value) != P.OutPath(cfg, cfg.transform(second).value)
    ensures exists s :: Reachable(cfg, s) && Forgotten(cfg, s, second)
  {
    hide Reachable, P.OutPath;
    var id, out := first.id, cfg.transform(first).value;
    var s := StallsAndIsOvertaken(cfg, first);
    s := Put(cfg, s, 2, second);
    s := Complete(cfg, s, 0, id, first, out);
    assert s.p.q.pending == map[];
    assert s.p.c.log == {(P.OutPath(cfg, out), out)};
  }

  /** And why its lease does: a completion that comes too late deletes the lease of the worker who has reclaimed
      the item, and that worker, still in time, no longer has a lease in the store. */
  lemma LateCompletionFreesAnothersLease(cfg: P.Config, item: Item)
    requires cfg.transform(item).Some?
    ensures exists s :: Reachable(cfg, s) && InTime(s, 1) && s.hands[1].id == item.id && item.id !in s.leases
  {
    hide Reachable, Appended, P.OutPath;
    var id, out := item.id, cfg.transform(item).value;
    var s := Start(cfg);
    s := Put(cfg, s, 2, item);
    s := Grab(cfg, s, 0, id, "a", 10);
    s := Prepare(cfg, s, 0, id, out);
    s := Append(cfg, s, 0, id, item, out);
    s := Wait(cfg, s, 11);
    s := Reclaim(cfg, s, 1, id, "b", 10);
    s := Complete(cfg, s, 0, id, item, out);
    s := LetLeaseGo(cfg, s, 0, id, L.Lease("a", 0, Some(10)));
  }

  /** An item found in place by `enqueue`, then completed and cleared before the call goes on. */
  lemma FoundThenCleared(cfg: P.Config, item: Item) returns (s: State)
    requires cfg.transform(item).Some?
    ensures Reachable(cfg, s) && P.At(s.p.q, 3) == P.Placing(item) && P.At(s.p.q, 2).Idle? && 2 !in s.hands && 3 !in s.hands
    ensures s.p.q.pending == map[] && s.p.q.failed == {} && s.p.q.offered == {item} && s.p.others == {}
    ensures s.p.c.log == {(P.OutPath(cfg, cfg.transform(item).value), cfg.transform(item).value)}
  {
    hide Reachable, Appended, P.OutPath;
    var id, out := item.id, cfg.transform(item).value;
    s := Start(cfg);
    s := Put(cfg, s, 2, item);
    s := Again(cfg, s, 3, item);
    s := Grab(cfg, s, 0, id, "a", 10);
    s := Prepare(cfg, s, 0, id, out);
    s := Append(cfg, s, 0, id, item, out);
    s := Complete(cfg, s, 0, id, item, out);
  }

  /** And why `enqueue` must not write late: it finds an item under the id, which is then completed and cleared;
      it sees that, and before it writes, another item is placed there. Its write replaces that item. */
  lemma LateEnqueueOverwrites(cfg: P.Config, first: Item, second: Item)
    requires first.id == second.id && first != second && cfg.transform(first).Some? && cfg.transform(second).Some?
    requires P.OutPath(cfg, cfg.transform(first).value) != P.OutPath(cfg, cfg.transform(second).value)
    ensures exists s :: Reachable(cfg, s) && second in s.p.q.placed && !P.ItemSafe(cfg, s.p.q, s.p.c.log, second)
  {
    hide Reachable, P.OutPath;
    var s := FoundThenCleared(cfg, first);
    s := FindsNothing(cfg, s, 3, first);
    s := Put(cfg, s, 2, second);
    assert P.At(s.p.q, 3) == P.Replacing(first);
    s := Overwrites(cfg, s, 3, first);
    assert second in s.p.q.placed && s.p.q.pending[first.id] == first;
  }

  /** `enqueue` of an item that is already there: the create fails. */
  lemma Again(cfg: P.Config, s: State, w: nat, item: Item) returns (t: State)
    requires Reachable(cfg, s) && w !in s.hands && P.At(s.p.q, w).Idle? && item.id in s.p.q.pending && s.p.others == {}
    requires forall o | o in s.p.q.offered :: P.Agree(cfg, item, o)
    ensures Reachable(cfg, t) && t == s.(p := s.p.(q := P.Offer(s.p.q, w, item)))
  {
    hide Reachable, P.Agree, P.AgreesWith;
    t := Extend(cfg, s, World(P.Enqueue(w, item)));
  }

  lemma FindsNothing(cfg: P.Config, s: State, w: nat, item: Item) returns (t: State)
    requires Reachable(cfg, s) && w !in s.hands && P.At(s.p.q, w) == P.Placing(item) && item.id !in s.p.q.pending
    ensures Reachable(cfg, t) && t == s.(p := s.p.(q := P.Move(s.p.q, w, P.Replacing(item))))
  {
    hide Reachable, InTime;
    t := Extend(cfg, s, Work(w));
  }

  lemma Overwrites(cfg: P.Config, s: State, w: nat, item: Item) returns (t: State)
    requires Reachable(cfg, s) && w !in s.hands && P.At(s.p.q, w) == P.Replacing(item)
    ensures Reachable(cfg, t) && t.p.q == P.Move(P.Place(s.p.q, item), w, P.Idle) && t.p.c == s.p.c
  {
    hide Reachable, InTime;
    t := Extend(cfg, s, Work(w));
  }

  predicate Forgotten(cfg: P.Config, s: State, item: Item) {
    && s.p.q.pending == map[] && s.p.q.failed == {}
    && item in s.p.q.placed && !P.Delivered(cfg, s.p.c.log, item)
  }

  ghost predicate OneEnding(q: P.Queue) {
    forall id | id in q.completed :: id !in q.failed
  }

  /** A step leaves every id in at most one terminal folder if and only if it writes no terminal record for
      an id that has one in the other folder. */
  lemma OneEndingExactly(cfg: P.Config, q: P.Queue, w: nat, ok: bool)
    requires OneEnding(q)
    ensures OneEnding(P.Work(cfg, q, w, ok)) <==>
              !(P.At(q, w).Failing? && P.At(q, w).id in q.completed) && !(P.At(q, w).Passed? && P.At(q, w).id in q.failed)
  {
    var r, p := P.Work(cfg, q, w, ok), P.At(q, w);
    if p.Failing? { assert p.id in r.failed; }
    if p.Passed? { assert p.id in r.completed; }
  }

}
