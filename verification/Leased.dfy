/** The pipeline with its leases and its clock: a worker comes to an item only through `acquire_lease` on the
    item's lease file, its expiry checks read the clock, and `complete` and `fail` delete the lease at the end,
    whoever's it is by then. */
module Leased {
  import opened Text
  import opened Folding
  import opened Blobs
  import opened Ledger
  import P = Pipeline
  import Compaction
  import CompactCycle
  import L = Lease

  /** What a worker is about: the id, and where it stands with that id's lease. */
  datatype Hand = Hand(id: string, phase: L.Phase)

  /** The pipeline, the lease files, the workers' hands and, as history, the item each worker read last. The clock
      is the one the compactors read. */
  datatype State = State(p: P.State, leases: map<string, L.Lease>, hands: map<nat, Hand>, held: map<nat, Item>)

  datatype Event =
    | World(e: P.Event)                                   // enqueue, compactors, other writers, the clock
    | Claim(w: nat, id: string, worker: string, ttl: int) // one turn of the claim loop begins
    | Acquire(w: nat)                                     // the next primitive of acquire_lease
    | Work(w: nat)                                        // the next primitive of enqueue or run_once
    | Sink(w: nat, ok: bool)
    | Release(w: nat)                                     // exists, then delete, of the lease file
    | Stop(w: nat)                                        // crash, or an exception

  function Now(s: State): int {
    s.p.c.lock.now
  }

  function LeaseAt(s: State, id: string): Option<L.Lease> {
    if id in s.leases then Some(s.leases[id]) else None
  }

  /** One id's lease file and the workers about it, as the lease protocol sees them. */
  function View(s: State, id: string): L.State {
    L.State(LeaseAt(s, id), Now(s), map w | w in s.hands && s.hands[w].id == id :: s.hands[w].phase)
  }

  /** The worker owns its lease and the lease has not run out: `_lease_expired` is false. */
  predicate InTime(s: State, w: nat) {
    w in s.hands && s.hands[w].phase.Holds() && !L.Expired(s.hands[w].phase.mine, Now(s))
  }

  function WithLease(leases: map<string, L.Lease>, id: string, file: Option<L.Lease>): map<string, L.Lease> {
    if file.Some? then leases[id := file.value] else leases - {id}
  }

  function WithHand(hands: map<nat, Hand>, w: nat, id: string, phase: L.Phase): map<nat, Hand> {
    if phase.Idle? then hands - {w} else hands[w := Hand(id, phase)]
  }

  ghost function AcquireStep(cfg: P.Config, s: State, w: nat): State
    requires w in s.hands
  {
    var id := s.hands[w].id;
    var t := L.Primitive(cfg.index.reread, View(s, id), w);
    s.(leases := WithLease(s.leases, id, t.file),
       hands := WithHand(s.hands, w, id, L.At(t, w)),
       p := if L.At(t, w).Owner? then P.Apply(cfg, s.p, P.Claim(w, id)) else s.p)
  }

  /** A call that is over without a terminal record forgets its lease and leaves the file. */
  ghost function WorkStep(cfg: P.Config, s: State, w: nat): State {
    var before := P.At(s.p.q, w);
    var p := P.Apply(cfg, s.p, P.Advance(w, InTime(s, w)));
    var after := P.At(p.q, w);
    s.(p := p,
       hands := if after.Idle? && !before.Written? && !before.Clearing? then s.hands - {w} else s.hands,
       held := if before.Claimed? && after.Working? then s.held[w := after.item] else s.held)
  }

  /** `complete` and `fail` do not look whose lease it is. */
  function ReleaseStep(s: State, w: nat): State
    requires w in s.hands
  {
    var id := s.hands[w].id;
    match s.hands[w].phase
    case Owner(mine) => s.(hands := if id in s.leases then s.hands[w := Hand(id, L.Releasing(mine))] else s.hands - {w})
    case Releasing(_) => s.(leases := s.leases - {id}, hands := s.hands - {w})
    case _ => s
  }

  ghost function Apply(cfg: P.Config, s: State, e: Event): State
    requires Enabled(cfg, s, e)
  {
    match e
    case World(x) => s.(p := P.Apply(cfg, s.p, x))
    case Claim(w, id, worker, ttl) => s.(hands := s.hands[w := Hand(id, L.Trying(L.Lease(worker, Now(s), Some(Now(s) + ttl))))])
    case Acquire(w) => AcquireStep(cfg, s, w)
    case Work(w) => WorkStep(cfg, s, w)
    case Sink(w, ok) => s.(p := P.Apply(cfg, s.p, P.Sink(w, ok)))
    case Release(w) => ReleaseStep(s, w)
    case Stop(w) => s.(p := P.Apply(cfg, s.p, P.Stop(w)), hands := s.hands - {w})
  }

  ghost predicate Enabled(cfg: P.Config, s: State, e: Event) {
    match e
    case World(x) => (x.Compact? || (x.Enqueue? && x.w !in s.hands)) && P.Enabled(cfg, s.p, x)
    case Claim(w, _, _, _) => w !in s.hands && P.At(s.p.q, w).Idle?
    case Acquire(w) => w in s.hands && !s.hands[w].phase.Holds()
    case Work(w) => !P.At(s.p.q, w).Idle?
    case Sink(w, _) => P.At(s.p.q, w).Ready?
    case Release(w) => w in s.hands && s.hands[w].phase.Holds() && P.At(s.p.q, w).Idle?
    case Stop(_) => true
  }

  ghost predicate Init(cfg: P.Config, s: State) {
    P.Init(cfg, s.p) && s.hands == map[] && s.held == map[]
  }

  ghost predicate Run(cfg: P.Config, states: seq<State>, events: seq<Event>) {
    && |states| == |events| + 1
    && Init(cfg, states[0])
    && forall i | 0 <= i < |events| :: Enabled(cfg, states[i], events[i]) && states[i + 1] == Apply(cfg, states[i], events[i])
  }

  ghost predicate Reachable(cfg: P.Config, s: State) {
    exists states, events :: Run(cfg, states, events) && states[|states| - 1] == s
  }

  /* ---- Every schedule with leases is a schedule of the pipeline ---- */

  /** The id a worker of the pipeline is about. */
  function Carries(p: P.Phase): Option<string> {
    match p
    case Idle => None
    case Placing(_) => None
    case Replacing(_) => None
    case Claimed(id) => Some(id)
    case Working(id, _) => Some(id)
    case Ready(id, _, _) => Some(id)
    case Sunk(id, _, _) => Some(id)
    case Passed(id, _, _) => Some(id)
    case Failing(id) => Some(id)
    case Written(id) => Some(id)
    case Clearing(id) => Some(id)
  }

  /** Who works on an id has acquired its lease, who is acquiring one does nothing else. */
  ghost predicate HandsOk(s: State) {
    && (forall w | w in s.hands :: !s.hands[w].phase.Idle?)
    && (forall w | w in s.hands && !s.hands[w].phase.Owner? :: P.At(s.p.q, w).Idle?)
    && (forall w | Carries(P.At(s.p.q, w)).Some? :: w in s.hands && s.hands[w].id == Carries(P.At(s.p.q, w)).value)
    && (forall w | P.At(s.p.q, w).Placing? || P.At(s.p.q, w).Replacing? :: w !in s.hands)
  }

  /** Between two steps the pipeline stands still, or makes a move of its own. */
  ghost predicate PipelineMoves(cfg: P.Config, p: P.State, q: P.State) {
    q == p || exists e :: P.Enabled(cfg, p, e) && q == P.Apply(cfg, p, e)
  }

  lemma OneMove(cfg: P.Config, p: P.State, e: P.Event)
    requires P.Enabled(cfg, p, e)
    ensures PipelineMoves(cfg, p, P.Apply(cfg, p, e))
  {
    hide P.Apply, P.Enabled;
  }

  lemma StepProjects(cfg: P.Config, s: State, e: Event)
    requires HandsOk(s) && Enabled(cfg, s, e)
    ensures PipelineMoves(cfg, s.p, Apply(cfg, s, e).p)
  {
    hide P.Apply, L.Primitive, L.At, InTime, PipelineMoves;
    match e
    case World(x) => OneMove(cfg, s.p, x);
    case Acquire(w) => OneMove(cfg, s.p, P.Claim(w, s.hands[w].id)); Stands(cfg, s.p);
    case Work(w) => OneMove(cfg, s.p, P.Advance(w, InTime(s, w)));
    case Sink(w, ok) => OneMove(cfg, s.p, P.Sink(w, ok));
    case Stop(w) => OneMove(cfg, s.p, P.Stop(w));
    case _ => Stands(cfg, s.p);
  }

  lemma Stands(cfg: P.Config, p: P.State)
    ensures PipelineMoves(cfg, p, p)
  {}

  /** What a step of the pipeline does to the worker who takes it, and to the others. */
  lemma OthersStand(cfg: P.Config, p: P.State, e: P.Event, w: nat)
    requires P.Enabled(cfg, p, e)
    requires e.Compact? || e.w != w
    ensures P.At(P.Apply(cfg, p, e).q, w) == P.At(p.q, w)
  {
    hide Compaction.Apply, Compaction.Enabled, P.Agree, P.AgreesWith;
  }

  /** Where one's own step leads. */
  lemma OwnStep(cfg: P.Config, p: P.State, w: nat, ok: bool)
    ensures
      var a, b := P.At(p.q, w), P.At(P.Apply(cfg, p, P.Advance(w, ok)).q, w);
      && (Carries(b).Some? ==> Carries(b) == Carries(a))
      && (b.Placing? || b.Replacing? ==> a.Placing?)
  {}

  lemma HandsKept(cfg: P.Config, s: State, e: Event)
    requires HandsOk(s) && Enabled(cfg, s, e)
    ensures HandsOk(Apply(cfg, s, e))
  {
    hide P.Apply, P.Enabled, P.At, L.Primitive, L.At, InTime, HandsOk, AcquireStep, WorkStep;
    match e
    case World(x) => WorldKeepsHands(cfg, s, x);
    case Claim(w, id, worker, ttl) => ClaimKeepsHands(s, w, id, L.Lease(worker, Now(s), Some(Now(s) + ttl)));
    case Acquire(w) => AcquireKeepsHands(cfg, s, w);
    case Work(w) => WorkKeepsHands(cfg, s, w);
    case Sink(w, ok) => SinkKeepsHands(cfg, s, w, ok);
    case Release(w) => ReleaseKeepsHands(s, w);
    case Stop(w) => StopKeepsHands(cfg, s, w);
  }

  lemma ClaimKeepsHands(s: State, w: nat, id: string, mine: L.Lease)
    requires HandsOk(s) && w !in s.hands && P.At(s.p.q, w).Idle?
    ensures HandsOk(s.(hands := s.hands[w := Hand(id, L.Trying(mine))]))
  {
    hide P.At;
  }

  lemma WorkKeepsHands(cfg: P.Config, s: State, w: nat)
    requires HandsOk(s) && !P.At(s.p.q, w).Idle?
    ensures HandsOk(WorkStep(cfg, s, w))
  {
    hide P.Apply, P.Enabled, P.At, InTime, Carries;
    OwnStep(cfg, s.p, w, InTime(s, w));
    WorkEnabled(cfg, s, w);
    Others(cfg, s.p, P.Advance(w, InTime(s, w)), w);
    Sorted(P.At(s.p.q, w));
    Sorted(P.At(WorkStep(cfg, s, w).p.q, w));
  }

  /** Who is about no id is idle or enqueues. */
  lemma Sorted(p: P.Phase)
    ensures Carries(p).None? <==> p.Idle? || p.Placing? || p.Replacing?
  {}

  lemma SinkKeepsHands(cfg: P.Config, s: State, w: nat, ok: bool)
    requires HandsOk(s) && P.At(s.p.q, w).Ready?
    ensures HandsOk(s.(p := P.Apply(cfg, s.p, P.Sink(w, ok))))
  {
    hide P.Apply, P.Enabled, P.At;
    SinkStep(cfg, s.p, w, ok);
    Others(cfg, s.p, P.Sink(w, ok), w);
  }

  lemma ReleaseKeepsHands(s: State, w: nat)
    requires HandsOk(s) && w in s.hands && P.At(s.p.q, w).Idle?
    ensures HandsOk(ReleaseStep(s, w))
  {
    hide P.At;
    Sorted(P.At(s.p.q, w));
  }

  lemma StopKeepsHands(cfg: P.Config, s: State, w: nat)
    requires HandsOk(s)
    ensures HandsOk(s.(p := P.Apply(cfg, s.p, P.Stop(w)), hands := s.hands - {w}))
  {
    hide P.Apply, P.Enabled, P.At, Carries;
    StopStep(cfg, s.p, w);
    Others(cfg, s.p, P.Stop(w), w);
    Sorted(P.At(P.Apply(cfg, s.p, P.Stop(w)).q, w));
  }

  lemma WorkEnabled(cfg: P.Config, s: State, w: nat)
    ensures P.Enabled(cfg, s.p, P.Advance(w, InTime(s, w))) && P.Enabled(cfg, s.p, P.Stop(w))
  {
    hide InTime;
  }

  lemma Others(cfg: P.Config, p: P.State, e: P.Event, w: nat)
    requires P.Enabled(cfg, p, e) && !e.Compact? && e.w == w
    ensures forall v | v != w :: P.At(P.Apply(cfg, p, e).q, v) == P.At(p.q, v)
  {
    hide Compaction.Apply, P.Agree, P.AgreesWith, P.Work;
    forall v: nat | v != w ensures P.At(P.Apply(cfg, p, e).q, v) == P.At(p.q, v) { OthersStand(cfg, p, e, v); }
  }

  lemma SinkStep(cfg: P.Config, p: P.State, w: nat, ok: bool)
    requires P.At(p.q, w).Ready?
    ensures P.Enabled(cfg, p, P.Sink(w, ok))
    ensures
      var a, b := P.At(p.q, w), P.At(P.Apply(cfg, p, P.Sink(w, ok)).q, w);
      b == if ok then P.Sunk(a.id, a.item, a.out) else P.Failing(a.id)
  {
    hide Compaction.Apply;
  }

  lemma StopStep(cfg: P.Config, p: P.State, w: nat)
    ensures P.Enabled(cfg, p, P.Stop(w)) && P.Apply(cfg, p, P.Stop(w)) == p.(q := P.Move(p.q, w, P.Idle))
    ensures P.At(P.Apply(cfg, p, P.Stop(w)).q, w).Idle?
  {}

  lemma ClaimStep(cfg: P.Config, p: P.State, w: nat, id: string)
    requires P.At(p.q, w).Idle?
    ensures P.Enabled(cfg, p, P.Claim(w, id)) && P.Apply(cfg, p, P.Claim(w, id)) == p.(q := P.Move(p.q, w, P.Claimed(id)))
    ensures P.At(P.Apply(cfg, p, P.Claim(w, id)).q, w) == P.Claimed(id)
  {}

  lemma EnqueueStep(cfg: P.Config, p: P.State, w: nat, item: Item)
    ensures P.Apply(cfg, p, P.Enqueue(w, item)) == p.(q := P.Offer(p.q, w, item))
    ensures P.At(P.Apply(cfg, p, P.Enqueue(w, item)).q, w) in {P.Idle, P.Placing(item)}
  {}

  lemma WorldKeepsHands(cfg: P.Config, s: State, x: P.Event)
    requires HandsOk(s) && Enabled(cfg, s, World(x))
    ensures HandsOk(s.(p := P.Apply(cfg, s.p, x)))
  {
    hide P.Apply, P.Enabled, P.At;
    match x
    case Compact(ce) => CompactKeepsQueue(cfg, s.p, ce);
    case Enqueue(w, item) =>
      EnqueueStep(cfg, s.p, w, item);
      Others(cfg, s.p, x, w);
  }

  lemma CompactKeepsQueue(cfg: P.Config, p: P.State, ce: Compaction.Event)
    requires P.Enabled(cfg, p, P.Compact(ce))
    ensures P.Apply(cfg, p, P.Compact(ce)).q == p.q
  {
    hide Compaction.Apply, P.AgreesWith;
  }

  lemma AcquireKeepsHands(cfg: P.Config, s: State, w: nat)
    requires HandsOk(s) && w in s.hands && !s.hands[w].phase.Holds()
    ensures HandsOk(AcquireStep(cfg, s, w))
  {
    hide P.Apply, P.Enabled, P.At, L.Primitive, L.At;
    var id := s.hands[w].id;
    ClaimStep(cfg, s.p, w, id);
    Others(cfg, s.p, P.Claim(w, id), w);
  }

  lemma {:induction false} RunHands(cfg: P.Config, states: seq<State>, events: seq<Event>, i: nat)
    requires Run(cfg, states, events) && i < |states|
    ensures HandsOk(states[i])
  {
    hide HandsOk, Init, Enabled, Apply;
    if i == 0 {
      StartHands(cfg, states[0]);
    } else {
      RunHands(cfg, states, events, i - 1);
      HandsKept(cfg, states[i - 1], events[i - 1]);
    }
  }

  lemma StartHands(cfg: P.Config, s: State)
    requires Init(cfg, s)
    ensures HandsOk(s) && P.Reachable(cfg, s.p)
  {
    hide Compaction.Init, P.Enabled, P.Apply;
    assert P.Run(cfg, [s.p], []);
  }

  lemma MoveReaches(cfg: P.Config, p: P.State, q: P.State)
    requires P.Reachable(cfg, p) && PipelineMoves(cfg, p, q)
    ensures P.Reachable(cfg, q)
  {
    hide P.Reachable, Compaction.Apply, P.Work, P.Agree, P.AgreesWith;
    if q != p {
      var e :| P.Enabled(cfg, p, e) && q == P.Apply(cfg, p, e);
      var t := P.Extend(cfg, p, e);
    }
  }

  /** So everything the pipeline guarantees in every reachable state holds here. */
  lemma {:induction false} PipelineReachable(cfg: P.Config, states: seq<State>, events: seq<Event>, i: nat)
    requires Run(cfg, states, events) && i < |states|
    ensures P.Reachable(cfg, states[i].p)
  {
    hide HandsOk, Init, Enabled, Apply, P.Reachable, P.Apply, P.Enabled;
    if i == 0 {
      StartHands(cfg, states[0]);
    } else {
      PipelineReachable(cfg, states, events, i - 1);
      RunHands(cfg, states, events, i - 1);
      StepProjects(cfg, states[i - 1], events[i - 1]);
      MoveReaches(cfg, states[i - 1].p, states[i].p);
    }
  }

  /* ---- Every id's lease runs the lease protocol ---- */

  lemma SameView(a: L.State, b: L.State)
    requires L.Inv(a) && a.file == b.file && a.now == b.now && forall w :: L.At(a, w) == L.At(b, w)
    ensures L.Inv(b)
  {
    assert forall w :: L.Live(b, w) <==> L.Live(a, w);
  }

  lemma ViewAt(s: State, id: string, w: nat)
    ensures L.At(View(s, id), w) == if w in s.hands && s.hands[w].id == id then s.hands[w].phase else L.Idle
  {}

  /** The view where a worker has let go. */
  lemma LetGo(s: State, t: State, id: string, w: nat)
    requires L.Inv(View(s, id)) && t.hands == s.hands - {w} && t.leases == s.leases && Now(t) == Now(s)
    ensures L.Inv(View(t, id))
  {
    hide L.Inv;
    L.ApplyKeepsInv(false, View(s, id), L.Crash(w));
    SameView(L.Apply(false, View(s, id), L.Crash(w)), View(t, id));
  }

  /** A step on another id's lease. */
  lemma OtherView(s: State, t: State, id: string, w: nat, other: string, phase: L.Phase)
    requires id != other && (w in s.hands ==> s.hands[w].id == other)
    requires t.hands == WithHand(s.hands, w, other, phase) && LeaseAt(t, id) == LeaseAt(s, id) && Now(t) == Now(s)
    requires L.Inv(View(s, id))
    ensures L.Inv(View(t, id))
  {
    hide L.Inv;
    SameView(View(s, id), View(t, id));
  }

  /** What the lease protocol asks of a schedule, and the two writes that can remove an item unworked: where the
      tag of a lease is read again the lease has run out; a worker reaches the delete of the pending item, and
      of the lease, before its own lease runs out; and a late write of `enqueue` finds no other item in its place. */
  predicate Timely(cfg: P.Config, s: State, e: Event) {
    match e
    case Acquire(w) => w in s.hands ==> L.Careful(cfg.index.reread, View(s, s.hands[w].id), L.Advance(w))
    case Work(w) =>
      var p := P.At(s.p.q, w);
      && (p.Clearing? ==> InTime(s, w))
      && (p.Replacing? && p.item.id in s.p.q.pending ==> s.p.q.pending[p.item.id] == p.item)
    case Release(w) => w in s.hands && s.hands[w].phase.Releasing? ==> InTime(s, w)
    case _ => true
  }

  lemma ClaimKeepsView(s: State, t: State, id: string, w: nat, about: string, worker: string, ttl: int)
    requires L.Inv(View(s, id)) && w !in s.hands
    requires t == s.(hands := s.hands[w := Hand(about, L.Trying(L.Lease(worker, Now(s), Some(Now(s) + ttl))))])
    ensures L.Inv(View(t, id))
  {
    hide L.Inv;
    if id == about {
      L.ApplyKeepsInv(false, View(s, id), L.Begin(w, worker, ttl));
      SameView(L.Apply(false, View(s, id), L.Begin(w, worker, ttl)), View(t, id));
    } else {
      OtherView(s, t, id, w, about, t.hands[w].phase);
    }
  }

  lemma AcquireKeepsView(cfg: P.Config, s: State, id: string, w: nat)
    requires L.Inv(View(s, id)) && w in s.hands && !s.hands[w].phase.Holds() && Timely(cfg, s, Acquire(w))
    requires Now(AcquireStep(cfg, s, w)) == Now(s)
    ensures L.Inv(View(AcquireStep(cfg, s, w), id))
  {
    hide L.Inv, P.Apply, L.Primitive, L.Careful;
    var t := AcquireStep(cfg, s, w);
    var about := s.hands[w].id;
    var v := L.Primitive(cfg.index.reread, View(s, about), w);
    if id == about {
      L.ApplyKeepsInv(cfg.index.reread, View(s, id), L.Advance(w));
      PrimitiveFrame(cfg.index.reread, View(s, id), w);
      forall x: nat ensures L.At(v, x) == L.At(View(t, id), x) { ViewAt(t, id, x); ViewAt(s, id, x); }
      SameView(v, View(t, id));
    } else {
      OtherView(s, t, id, w, about, L.At(v, w));
    }
  }

  lemma PrimitiveFrame(reread: bool, v: L.State, w: nat)
    ensures L.Primitive(reread, v, w).now == v.now
    ensures forall x: nat | x != w :: L.At(L.Primitive(reread, v, w), x) == L.At(v, x)
    ensures L.Apply(reread, v, L.Advance(w)) == L.Primitive(reread, v, w)
  {}

  lemma ReleaseKeepsView(s: State, id: string, w: nat)
    requires L.Inv(View(s, id)) && w in s.hands && s.hands[w].phase.Holds()
    requires s.hands[w].phase.Releasing? ==> InTime(s, w)
    ensures L.Inv(View(ReleaseStep(s, w), id))
  {
    hide L.Inv;
    var t := ReleaseStep(s, w);
    var about := s.hands[w].id;
    if t.hands == s.hands - {w} && t.leases == s.leases {
      LetGo(s, t, id, w);
    } else if id != about {
      OtherView(s, t, id, w, about, if s.hands[w].phase.Owner? then L.Releasing(s.hands[w].phase.mine) else L.Idle);
    } else if s.hands[w].phase.Owner? {
      ToRelease(View(s, id), View(t, id), w);
    } else {
      ViewAt(s, id, w);
      L.ApplyKeepsInv(false, View(s, id), L.Drop(w));
      SameView(L.Apply(false, View(s, id), L.Drop(w)), View(t, id));
    }
  }

  /** Having looked, before the delete, is still owning. */
  lemma ToRelease(a: L.State, b: L.State, w: nat)
    requires L.Inv(a) && L.At(a, w).Owner? && L.At(b, w) == L.Releasing(L.At(a, w).mine)
    requires a.file == b.file && a.now == b.now && forall v | v != w :: L.At(b, v) == L.At(a, v)
    ensures L.Inv(b)
  {
    assert forall v :: L.Live(b, v) <==> L.Live(a, v);
  }

  lemma WorkKeepsView(cfg: P.Config, s: State, id: string, w: nat)
    requires L.Inv(View(s, id)) && Now(WorkStep(cfg, s, w)) == Now(s)
    ensures L.Inv(View(WorkStep(cfg, s, w), id))
  {
    hide L.Inv, P.Apply, P.At, InTime;
    var t := WorkStep(cfg, s, w);
    if t.hands == s.hands {
      SameView(View(s, id), View(t, id));
    } else {
      LetGo(s, t, id, w);
    }
  }

  /** The clock moves on, or everybody's hands and leases stay as they are. */
  lemma WorldKeepsView(cfg: P.Config, s: State, x: P.Event, id: string)
    requires L.Inv(View(s, id)) && Enabled(cfg, s, World(x))
    ensures L.Inv(View(s.(p := P.Apply(cfg, s.p, x)), id))
  {
    hide L.Inv, P.Apply, P.Enabled;
    P.EnabledIsPossible(cfg, s.p, x);
    var t := s.(p := P.Apply(cfg, s.p, x));
    WorldClock(cfg, s.p, x);
    L.ApplyKeepsInv(false, View(s, id), L.Tick(Now(t)));
    SameView(L.Apply(false, View(s, id), L.Tick(Now(t))), View(t, id));
  }

  lemma WorldClock(cfg: P.Config, p: P.State, x: P.Event)
    requires P.Enabled(cfg, p, x) && (x.Compact? || x.Enqueue?)
    ensures p.c.lock.now <= P.Apply(cfg, p, x).c.lock.now
  {
    hide AppendOk, PlantOk, CompactCycle.Step, CompactCycle.ListingOk, L.Careful, P.Agree, P.AgreesWith;
  }

  /** The workers' own steps take no time. */
  lemma OwnClock(cfg: P.Config, p: P.State, e: P.Event)
    requires P.Enabled(cfg, p, e) && !e.Compact?
    ensures P.Apply(cfg, p, e).c.lock.now == p.c.lock.now
  {
    hide P.Work, P.Agree, P.AgreesWith;
  }

  lemma StepKeepsView(cfg: P.Config, s: State, e: Event, id: string)
    requires HandsOk(s) && Enabled(cfg, s, e) && Timely(cfg, s, e) && L.Inv(View(s, id))
    ensures L.Inv(View(Apply(cfg, s, e), id))
  {
    hide L.Inv, P.Apply, P.Enabled, P.At, L.Primitive, L.At, L.Careful, InTime, HandsOk, View, AcquireStep, WorkStep;
    match e
    case World(x) => WorldKeepsView(cfg, s, x, id);
    case Claim(w, about, worker, ttl) => ClaimKeepsView(s, Apply(cfg, s, e), id, w, about, worker, ttl);
    case Acquire(w) =>
      AcquireClock(cfg, s, w);
      AcquireKeepsView(cfg, s, id, w);
    case Work(w) =>
      WorkEnabled(cfg, s, w);
      WorkClock(cfg, s, w);
      WorkKeepsView(cfg, s, id, w);
    case Sink(w, ok) =>
      SinkStep(cfg, s.p, w, ok);
      OwnClock(cfg, s.p, P.Sink(w, ok));
      ClockOnly(s, Apply(cfg, s, e), id);
    case Release(w) => ReleaseKeepsView(s, id, w);
    case Stop(w) =>
      StopStep(cfg, s.p, w);
      OwnClock(cfg, s.p, P.Stop(w));
      LetGo(s, Apply(cfg, s, e), id, w);
  }

  lemma AcquireClock(cfg: P.Config, s: State, w: nat)
    requires HandsOk(s) && w in s.hands && !s.hands[w].phase.Holds()
    ensures Now(AcquireStep(cfg, s, w)) == Now(s)
  {
    hide P.Apply, P.Enabled, P.At, L.Primitive, L.At;
    ClaimStep(cfg, s.p, w, s.hands[w].id);
  }

  lemma WorkClock(cfg: P.Config, s: State, w: nat)
    ensures Now(WorkStep(cfg, s, w)) == Now(s)
  {
    hide P.Apply, P.Enabled, P.At, InTime;
    WorkEnabled(cfg, s, w);
    OwnClock(cfg, s.p, P.Advance(w, InTime(s, w)));
  }

  lemma ClockOnly(s: State, t: State, id: string)
    requires L.Inv(View(s, id)) && t.hands == s.hands && t.leases == s.leases && Now(t) == Now(s)
    ensures L.Inv(View(t, id))
  {}

  /** At the start nobody is about any lease, whatever lease files lie around. */
  lemma StartView(cfg: P.Config, s: State, id: string)
    requires Init(cfg, s)
    ensures L.Inv(View(s, id))
  {
    hide P.Init;
  }

  /** Exclusion, for every id: over every timely schedule no two workers hold an unexpired lease on it. */
  lemma {:induction false} LeasesExclusive(cfg: P.Config, states: seq<State>, events: seq<Event>, i: nat, id: string)
    requires Run(cfg, states, events) && i < |states|
    requires forall k | 0 <= k < |events| :: Timely(cfg, states[k], events[k])
    ensures L.Inv(View(states[i], id))
  {
    hide L.Inv, HandsOk, Init, Enabled, Apply, View, Timely;
    if i == 0 {
      StartView(cfg, states[0], id);
    } else {
      LeasesExclusive(cfg, states, events, i - 1, id);
      RunHands(cfg, states, events, i - 1);
      StepKeepsView(cfg, states[i - 1], events[i - 1], id);
    }
  }

  lemma OneInTime(s: State, v: nat, w: nat)
    requires InTime(s, v) && InTime(s, w) && s.hands[v].id == s.hands[w].id && L.Inv(View(s, s.hands[v].id))
    ensures v == w
  {
    var view := View(s, s.hands[v].id);
    assert L.Live(view, v) && L.Live(view, w);
  }
}
