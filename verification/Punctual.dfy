/** Why it matters to be in time: where every worker reaches its deletes before its lease runs out, no item is
    ever lost, whatever payloads an id carries. */
module Punctual {
  import opened Text
  import opened Folding
  import opened Blobs
  import opened Ledger
  import opened Leased
  import P = Pipeline
  import Compaction
  import CompactCycle
  import Guarantees
  import Solo
  import L = Lease

  /** The worker has read the item of its id. */
  predicate HasRead(p: P.Phase) {
    Carries(p).Some? && !p.Claimed?
  }

  /** What a worker in time knows: the item it read is still the one pending under its id, and once it has passed
      the sink, or written its terminal record, that item has been dealt with. */
  predicate Knows(cfg: P.Config, q: P.Queue, log: Log, p: P.Phase, item: Item) {
    HasRead(p) ==>
      var id := Carries(p).value;
      && item.id == id && id in q.pending && q.pending[id] == item
      && (p.Working? || p.Ready? || p.Sunk? || p.Passed? ==> p.item == item)
      && (p.Ready? ==> cfg.transform(item) == Some(p.out))
      && (p.Sunk? || p.Passed? ==> P.Delivered(cfg, log, item))
      && (p.Written? || p.Clearing? ==> P.Delivered(cfg, log, item) || id in q.failed)
  }

  ghost predicate AllKnow(cfg: P.Config, s: State) {
    forall w | InTime(s, w) && HasRead(P.At(s.p.q, w)) ::
      w in s.held && Knows(cfg, s.p.q, s.p.c.log, P.At(s.p.q, w), s.held[w])
  }

  ghost predicate Inv(cfg: P.Config, s: State) {
    && HandsOk(s)
    && (forall id :: L.Inv(View(s, id)))
    && AllKnow(cfg, s)
    && P.Filed(s.p.q)
    && P.ItemsSafe(cfg, s.p.q, s.p.c.log)
  }

  /** A change of the folders and the log that leaves the worker's item pending. */
  lemma StillKnows(cfg: P.Config, q: P.Queue, log: Log, r: P.Queue, longer: Log, p: P.Phase, item: Item)
    requires Knows(cfg, q, log, p, item) && log <= longer && q.failed <= r.failed
    requires HasRead(p) ==> item.id in r.pending && r.pending[item.id] == item
    ensures Knows(cfg, r, longer, p, item)
  {}

  /** One's own next primitive, before the pending item is deleted. */
  lemma OwnKnows(cfg: P.Config, q: P.Queue, log: Log, w: nat, ok: bool, item: Item)
    requires HasRead(P.At(q, w)) && Knows(cfg, q, log, P.At(q, w), item)
    ensures
      var r := P.Work(cfg, q, w, ok);
      Knows(cfg, r, log, P.At(r, w), item)
  {
    hide P.Delivered;
    match P.At(q, w)
    case Working(_, _) =>
    case Ready(_, _, _) =>
    case Sunk(_, _, _) =>
    case Passed(_, _, _) =>
    case Failing(_) =>
    case Written(_) =>
    case Clearing(_) =>
  }

  /** Reading the item. */
  lemma FirstKnows(cfg: P.Config, q: P.Queue, log: Log, w: nat, ok: bool)
    requires P.At(q, w).Claimed? && P.Filed(q)
    ensures
      var r := P.Work(cfg, q, w, ok);
      P.At(r, w).Working? ==> Knows(cfg, r, log, P.At(r, w), P.At(r, w).item)
  {}

  /** What another worker's timely primitive leaves of the pending folder: every item but that of its own id. */
  lemma WorkLeavesPending(cfg: P.Config, q: P.Queue, w: nat, ok: bool, id: string)
    requires id in q.pending
    requires P.At(q, w).Clearing? ==> P.At(q, w).id != id
    requires P.At(q, w).Replacing? && P.At(q, w).item.id == id ==> q.pending[id] == P.At(q, w).item
    ensures
      var r := P.Work(cfg, q, w, ok);
      id in r.pending && r.pending[id] == q.pending[id] && q.failed <= r.failed
  {}

  /* ---- Step by step ---- */

  lemma WorkKeepsKnowledge(cfg: P.Config, s: State, w: nat)
    requires Inv(cfg, s) && !P.At(s.p.q, w).Idle? && Timely(cfg, s, Work(w))
    ensures AllKnow(cfg, WorkStep(cfg, s, w))
  {
    hide P.Apply, P.Enabled, P.At, P.Work, L.Inv, View, InTime, Knows, HasRead, Carries, P.ItemsSafe;
    var t, ok := WorkStep(cfg, s, w), InTime(s, w);
    P.AdvanceIsWork(cfg, s.p, P.Advance(w, ok));
    WorkEnabled(cfg, s, w);
    Others(cfg, s.p, P.Advance(w, ok), w);
    WorkClock(cfg, s, w);
    OwnStep(cfg, s.p, w, ok);
    forall v | InTime(t, v) && HasRead(P.At(t.p.q, v))
      ensures v in t.held && Knows(cfg, t.p.q, t.p.c.log, P.At(t.p.q, v), t.held[v])
    {
      SameHandInTime(s, t, v);
      if v == w {
        ReadBefore(cfg, s.p.q, w, ok);
        if P.At(s.p.q, w).Claimed? {
          FirstKnows(cfg, s.p.q, s.p.c.log, w, ok);
        } else {
          OwnKnows(cfg, s.p.q, s.p.c.log, w, ok, s.held[w]);
        }
      } else {
        OtherStays(cfg, s, v, w, ok);
      }
    }
  }

  lemma SameHandInTime(s: State, t: State, v: nat)
    requires InTime(t, v) && (v in t.hands ==> v in s.hands && t.hands[v] == s.hands[v]) && Now(s) <= Now(t)
    ensures InTime(s, v)
  {}

  lemma ReadBefore(cfg: P.Config, q: P.Queue, w: nat, ok: bool)
    requires HasRead(P.At(P.Work(cfg, q, w, ok), w))
    ensures P.At(q, w).Claimed? ==> P.At(P.Work(cfg, q, w, ok), w).Working?
    ensures !P.At(q, w).Claimed? ==> HasRead(P.At(q, w))
  {}

  /** Two workers in time are about different ids, so the one does not remove the other's item. */
  lemma OtherStays(cfg: P.Config, s: State, v: nat, w: nat, ok: bool)
    requires Inv(cfg, s) && v != w && InTime(s, v) && HasRead(P.At(s.p.q, v)) && Timely(cfg, s, Work(w))
    ensures v in s.held && Knows(cfg, P.Work(cfg, s.p.q, w, ok), s.p.c.log, P.At(s.p.q, v), s.held[v])
  {
    hide P.Apply, P.At, P.Work, L.Inv, View, InTime, P.ItemsSafe;
    var p, item := P.At(s.p.q, v), s.held[v];
    assert Knows(cfg, s.p.q, s.p.c.log, p, item);
    if P.At(s.p.q, w).Clearing? && P.At(s.p.q, w).id == item.id { OneInTime(s, v, w); }
    WorkLeavesPending(cfg, s.p.q, w, ok, item.id);
    StillKnows(cfg, s.p.q, s.p.c.log, P.Work(cfg, s.p.q, w, ok), s.p.c.log, p, item);
  }

  /** A step that touches no pending item, and puts nobody further who has read one. */
  lemma QuietStep(cfg: P.Config, s: State, t: State)
    requires AllKnow(cfg, s) && Now(s) <= Now(t) && s.p.c.log <= t.p.c.log && s.held == t.held
    requires t.p.q.failed == s.p.q.failed
    requires forall id | id in s.p.q.pending :: id in t.p.q.pending && t.p.q.pending[id] == s.p.q.pending[id]
    requires forall v | InTime(t, v) && HasRead(P.At(t.p.q, v)) :: InTime(s, v) && P.At(s.p.q, v) == P.At(t.p.q, v)
    ensures AllKnow(cfg, t)
  {
    hide P.At, InTime;
    forall v | InTime(t, v) && HasRead(P.At(t.p.q, v))
      ensures v in t.held && Knows(cfg, t.p.q, t.p.c.log, P.At(t.p.q, v), t.held[v])
    {
      assert Knows(cfg, s.p.q, s.p.c.log, P.At(s.p.q, v), s.held[v]);
      StillKnows(cfg, s.p.q, s.p.c.log, t.p.q, t.p.c.log, P.At(t.p.q, v), t.held[v]);
    }
  }

  lemma WorldKeepsKnowledge(cfg: P.Config, s: State, x: P.Event)
    requires Inv(cfg, s) && Enabled(cfg, s, World(x))
    ensures AllKnow(cfg, Apply(cfg, s, World(x)))
  {
    hide P.Apply, P.Enabled, P.At, L.Inv, View, Knows, HasRead, AllKnow, HandsOk, P.ItemsSafe;
    P.EnabledIsPossible(cfg, s.p, x);
    var t := Apply(cfg, s, World(x));
    WorldClock(cfg, s.p, x);
    forall v | InTime(t, v) ensures InTime(s, v) { SameHandInTime(s, t, v); }
    match x
    case Compact(ce) =>
      CompactKeepsQueue(cfg, s.p, ce);
      CompactLog(cfg, s.p, ce);
      QuietStep(cfg, s, t);
    case Enqueue(w, item) =>
      EnqueueStep(cfg, s.p, w, item);
      OfferQuiet(s.p.q, w, item);
      Others(cfg, s.p, x, w);
      QuietStep(cfg, s, t);
  }

  lemma CompactLog(cfg: P.Config, p: P.State, ce: Compaction.Event)
    requires P.Enabled(cfg, p, P.Compact(ce))
    ensures p.c.log <= P.Apply(cfg, p, P.Compact(ce)).c.log
  {
    hide Compaction.Apply, Compaction.Enabled, P.AgreesWith;
    P.CompactionLog(cfg, p.c, ce);
  }

  lemma OfferQuiet(q: P.Queue, w: nat, item: Item)
    ensures
      var r := P.Offer(q, w, item);
      && r.failed == q.failed
      && (forall id | id in q.pending :: id in r.pending && r.pending[id] == q.pending[id])
      && !HasRead(P.At(r, w))
  {}

  lemma AcquireKeepsKnowledge(cfg: P.Config, s: State, w: nat)
    requires Inv(cfg, s) && w in s.hands && !s.hands[w].phase.Holds()
    ensures AllKnow(cfg, AcquireStep(cfg, s, w))
  {
    hide P.Apply, P.Enabled, P.At, L.Inv, L.Primitive, L.At, View, Knows, HasRead, AllKnow, P.ItemsSafe;
    var t, id := AcquireStep(cfg, s, w), s.hands[w].id;
    AcquireClock(cfg, s, w);
    ClaimStep(cfg, s.p, w, id);
    Others(cfg, s.p, P.Claim(w, id), w);
    ClaimedHasNotRead(id);
    MoveQuiet(s.p.q, w, P.Claimed(id));
    forall v | InTime(t, v) && v != w ensures InTime(s, v) { SameHandInTime(s, t, v); }
    QuietStep(cfg, s, t);
  }

  lemma ClaimedHasNotRead(id: string)
    ensures !HasRead(P.Claimed(id)) && !HasRead(P.Idle)
    ensures forall p :: HasRead(p) ==> !p.Idle?
  {}

  lemma MoveQuiet(q: P.Queue, w: nat, p: P.Phase)
    ensures P.Move(q, w, p).pending == q.pending && P.Move(q, w, p).failed == q.failed
  {}

  lemma SinkKeepsKnowledge(cfg: P.Config, s: State, w: nat, ok: bool)
    requires Inv(cfg, s) && P.At(s.p.q, w).Ready?
    ensures AllKnow(cfg, Apply(cfg, s, Sink(w, ok)))
  {
    hide P.Apply, P.Enabled, P.At, L.Inv, View, HandsOk, P.ItemsSafe, InTime;
    var t := Apply(cfg, s, Sink(w, ok));
    SinkStep(cfg, s.p, w, ok);
    Others(cfg, s.p, P.Sink(w, ok), w);
    OwnClock(cfg, s.p, P.Sink(w, ok));
    SinkQuiet(cfg, s.p, w, ok);
    forall v | InTime(t, v) && HasRead(P.At(t.p.q, v))
      ensures v in t.held && Knows(cfg, t.p.q, t.p.c.log, P.At(t.p.q, v), t.held[v])
    {
      SameHandInTime(s, t, v);
      assert Knows(cfg, s.p.q, s.p.c.log, P.At(s.p.q, v), s.held[v]);
      StillKnows(cfg, s.p.q, s.p.c.log, t.p.q, t.p.c.log, P.At(s.p.q, v), s.held[v]);
    }
  }

  lemma SinkQuiet(cfg: P.Config, p: P.State, w: nat, ok: bool)
    requires P.At(p.q, w).Ready?
    ensures
      var t, out := P.Apply(cfg, p, P.Sink(w, ok)), P.At(p.q, w).out;
      t.q.pending == p.q.pending && t.q.failed == p.q.failed && t.c.log == p.c.log + {(P.OutPath(cfg, out), out)}
  {}

  lemma ReleaseKeepsKnowledge(cfg: P.Config, s: State, w: nat)
    requires Inv(cfg, s) && w in s.hands && P.At(s.p.q, w).Idle?
    ensures AllKnow(cfg, ReleaseStep(s, w))
  {
    hide P.At, L.Inv, View, Knows, HasRead, AllKnow, HandsOk, P.ItemsSafe;
    var t := ReleaseStep(s, w);
    ClaimedHasNotRead("");
    forall v | InTime(t, v) && v != w ensures InTime(s, v) { SameHandInTime(s, t, v); }
    QuietStep(cfg, s, t);
  }

  lemma StopKeepsKnowledge(cfg: P.Config, s: State, w: nat)
    requires Inv(cfg, s)
    ensures AllKnow(cfg, Apply(cfg, s, Stop(w)))
  {
    hide P.Apply, P.Enabled, P.At, L.Inv, View, Knows, HasRead, AllKnow, HandsOk, P.ItemsSafe;
    var t := Apply(cfg, s, Stop(w));
    StopStep(cfg, s.p, w);
    Others(cfg, s.p, P.Stop(w), w);
    OwnClock(cfg, s.p, P.Stop(w));
    ClaimedHasNotRead("");
    MoveQuiet(s.p.q, w, P.Idle);
    forall v | InTime(t, v) ensures InTime(s, v) { SameHandInTime(s, t, v); }
    QuietStep(cfg, s, t);
  }

  lemma ClaimKeepsKnowledge(cfg: P.Config, s: State, w: nat, id: string, worker: string, ttl: int)
    requires Inv(cfg, s) && Enabled(cfg, s, Claim(w, id, worker, ttl))
    ensures AllKnow(cfg, Apply(cfg, s, Claim(w, id, worker, ttl)))
  {
    hide P.At, L.Inv, View, Knows, HasRead, AllKnow, HandsOk, P.ItemsSafe;
    var t := Apply(cfg, s, Claim(w, id, worker, ttl));
    forall v | InTime(t, v) ensures InTime(s, v) {}
    QuietStep(cfg, s, t);
  }

  /* ---- No item is lost ---- */

  /** A timely step removes no item that has not been dealt with: who deletes in time deletes what it has read. */
  lemma TimelyForgetsNothing(cfg: P.Config, s: State, w: nat)
    requires Inv(cfg, s) && Timely(cfg, s, Work(w))
    ensures P.NothingForgotten(cfg, s.p.q, s.p.c.log, w)
  {
    hide P.At, L.Inv, View, InTime, P.ItemsSafe, P.Delivered;
    var p := P.At(s.p.q, w);
    if p.Clearing? {
      assert Knows(cfg, s.p.q, s.p.c.log, p, s.held[w]);
    }
  }

  lemma ItemsKept(cfg: P.Config, s: State, e: Event)
    requires Inv(cfg, s) && Enabled(cfg, s, e) && Timely(cfg, s, e)
    ensures P.Filed(Apply(cfg, s, e).p.q) && P.ItemsSafe(cfg, Apply(cfg, s, e).p.q, Apply(cfg, s, e).p.c.log)
  {
    hide P.Apply, P.Enabled, P.At, P.Work, P.Possible, P.Filed, P.ItemsSafe, P.NothingForgotten, L.Inv, L.At, L.Primitive,
        View, InTime, AllKnow, Timely;
    match e
    case World(x) => PipelineKeepsItems(cfg, s.p, x);
    case Acquire(w) =>
      ClaimStep(cfg, s.p, w, s.hands[w].id);
      PipelineKeepsItems(cfg, s.p, P.Claim(w, s.hands[w].id));
    case Work(w) =>
      var move := P.Advance(w, InTime(s, w));
      TimelyForgetsNothing(cfg, s, w);
      P.AdvanceIsWork(cfg, s.p, move);
      FiledParts(s.p.q);
      P.StepKeepsItemsExactly(cfg, s.p.q, s.p.c.log, w, InTime(s, w));
      WorkEnabled(cfg, s, w);
      P.EnabledIsPossible(cfg, s.p, move);
      P.StepKeepsFiled(cfg, s.p, move);
    case Sink(w, ok) =>
      SinkStep(cfg, s.p, w, ok);
      PipelineKeepsItems(cfg, s.p, P.Sink(w, ok));
    case Stop(w) =>
      StopStep(cfg, s.p, w);
      PipelineKeepsItems(cfg, s.p, P.Stop(w));
    case _ =>
  }

  lemma FiledParts(q: P.Queue)
    requires P.Filed(q)
    ensures forall id | id in q.pending :: P.Placed(q, id, q.pending[id])
  {}

  lemma PipelineKeepsItems(cfg: P.Config, p: P.State, x: P.Event)
    requires P.Filed(p.q) && P.ItemsSafe(cfg, p.q, p.c.log) && P.Enabled(cfg, p, x) && !x.Advance?
    ensures P.Filed(P.Apply(cfg, p, x).q) && P.ItemsSafe(cfg, P.Apply(cfg, p, x).q, P.Apply(cfg, p, x).c.log)
  {
    hide P.Apply, P.Enabled, P.Possible, P.Filed, P.ItemsSafe;
    P.EnabledIsPossible(cfg, p, x);
    P.StepKeepsFiled(cfg, p, x);
    P.OtherStepsKeepItems(cfg, p, x);
  }

  lemma KnowledgeKept(cfg: P.Config, s: State, e: Event)
    requires Inv(cfg, s) && Enabled(cfg, s, e) && Timely(cfg, s, e)
    ensures AllKnow(cfg, Apply(cfg, s, e))
  {
    hide P.Apply, P.Enabled, P.At, Inv, Timely, AllKnow, AcquireStep, WorkStep;
    match e
    case World(x) => WorldKeepsKnowledge(cfg, s, x);
    case Claim(w, id, worker, ttl) => ClaimKeepsKnowledge(cfg, s, w, id, worker, ttl);
    case Acquire(w) => AcquireKeepsKnowledge(cfg, s, w);
    case Work(w) => WorkKeepsKnowledge(cfg, s, w);
    case Sink(w, ok) => SinkKeepsKnowledge(cfg, s, w, ok);
    case Release(w) => ReleaseKeepsKnowledge(cfg, s, w);
    case Stop(w) => StopKeepsKnowledge(cfg, s, w);
  }

  lemma StepKeepsInv(cfg: P.Config, s: State, e: Event)
    requires Inv(cfg, s) && Enabled(cfg, s, e) && Timely(cfg, s, e)
    ensures Inv(cfg, Apply(cfg, s, e))
  {
    hide P.Filed, P.ItemsSafe, HandsOk, AllKnow, L.Inv, View, Enabled, Apply, Timely;
    HandsKept(cfg, s, e);
    KnowledgeKept(cfg, s, e);
    ItemsKept(cfg, s, e);
    forall id ensures L.Inv(View(Apply(cfg, s, e), id)) { StepKeepsView(cfg, s, e, id); }
  }

  lemma StartInv(cfg: P.Config, s: State)
    requires Init(cfg, s)
    ensures Inv(cfg, s)
  {
    hide L.Inv, View, Compaction.Init;
    StartHands(cfg, s);
    forall id ensures L.Inv(View(s, id)) { StartView(cfg, s, id); }
  }

  /** Over every schedule, with any number of workers, payloads and crashes: if each worker reaches the deletes of
      its pending item and of its lease before the lease runs out, each lease tag read again is that of a lease
      that has run out, and no late write of `enqueue` lands on another item, then every item ever placed is
      still pending, or its output is in the log, or its id has failed. Nothing is asked of the items' ids. */
  lemma {:induction false} TimelyItemsAreSafe(cfg: P.Config, states: seq<State>, events: seq<Event>, i: nat)
    requires Run(cfg, states, events) && i < |states|
    requires forall k | 0 <= k < |events| :: Timely(cfg, states[k], events[k])
    ensures Inv(cfg, states[i])
    ensures forall item | item in states[i].p.q.placed :: P.ItemSafe(cfg, states[i].p.q, states[i].p.c.log, item)
  {
    hide Init, Enabled, Apply, Timely, HandsOk, AllKnow, L.Inv, View, P.Filed, P.ItemSafe;
    if i == 0 {
      StartInv(cfg, states[0]);
    } else {
      TimelyItemsAreSafe(cfg, states, events, i - 1);
      StepKeepsInv(cfg, states[i - 1], events[i - 1]);
    }
  }

  /** So a queue drained in time has logged exactly the transforms of the items placed in it, each of several
      payloads under one id included, besides what others appended. */
  lemma TimelyDrainIsImage(cfg: P.Config, states: seq<State>, events: seq<Event>, i: nat)
    requires P.WellFormed(cfg) && Run(cfg, states, events) && i < |states|
    requires forall k | 0 <= k < |events| :: Timely(cfg, states[k], events[k])
    requires states[i].p.q.pending == map[] && states[i].p.q.failed == {}
    ensures
      var p := states[i].p;
      forall r :: P.PlacedOutput(cfg, p.q, r) || Logged(p.others, r) <==> Logged(p.c.log, r)
  {
    hide *;
    TimelyItemsAreSafe(cfg, states, events, i);
    PipelineReachable(cfg, states, events, i);
    P.ReachableInv(cfg, states[i].p);
    DrainedImage(cfg, states[i].p);
  }

  lemma DrainedImage(cfg: P.Config, p: P.State)
    requires P.WellFormed(cfg) && P.Inv(cfg, p) && p.q.pending == map[] && p.q.failed == {}
    requires forall item | item in p.q.placed :: P.ItemSafe(cfg, p.q, p.c.log, item)
    ensures forall r :: P.PlacedOutput(cfg, p.q, r) || Logged(p.others, r) <==> Logged(p.c.log, r)
  {
    hide Compaction.Inv, P.QueueInv, P.LogInv, SourcePath, CompactCycle.Eligible, Separate, P.OutPath;
    forall r ensures P.PlacedOutput(cfg, p.q, r) || Logged(p.others, r) <==> Logged(p.c.log, r) {
      P.LoggedOutput(cfg, p.q, p.others, p.c.log, r);
      if P.PlacedOutput(cfg, p.q, r) {
        var item: Item :| item in p.q.placed && cfg.transform(item) == Some(r);
        assert P.ItemSafe(cfg, p.q, p.c.log, item);
        assert (P.OutPath(cfg, r), r) in p.c.log;
        assert CompactCycle.Eligible(P.OutPath(cfg, cfg.transform(item).value));
      }
    }
  }

  /** And one undisturbed cycle then leaves the serialised fold of them. */
  lemma TimelyPipelineIsFold(cfg: P.Config, states: seq<State>, events: seq<Event>, i: nat,
                             trace: seq<(Files, CompactCycle.Cycle)>, inputs: seq<CompactCycle.Input>, consuming: bool,
                             compactor: string, all: seq<Record>)
    requires P.WellFormed(cfg) && Run(cfg, states, events) && i < |states|
    requires forall k | 0 <= k < |events| :: Timely(cfg, states[k], events[k])
    requires states[i].p.q.pending == map[] && states[i].p.q.failed == {}
    requires Canonical(Guarantees.Records(states[i].p.c.log))
    requires forall r :: r in all <==> P.PlacedOutput(cfg, states[i].p.q, r) || Logged(states[i].p.others, r)
    requires Solo.SoloRun(cfg.index, trace, inputs) && trace[|trace| - 1].1.pc.Over()
    requires trace[0] == (states[i].p.c.files, CompactCycle.Fresh(consuming, compactor))
    ensures P.CommitsFold(cfg, trace[|trace| - 1].0, all)
  {
    hide *;
    TimelyDrainIsImage(cfg, states, events, i);
    PipelineReachable(cfg, states, events, i);
    Solo.SoloRunParts(cfg.index, trace, inputs);
    P.CycleFoldsLog(cfg, states[i].p, trace, inputs, consuming, compactor, all);
  }
}
