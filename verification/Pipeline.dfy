/** The whole pipeline: workers drain a queue into a log while compactors fold the log into an index.
    Which worker comes to hold which lease is left open here: any worker may hold any item at any time, so
    nothing below rests on exclusion. */
module Pipeline {
  import opened Text
  import opened Folding
  import opened Codec
  import opened Naming
  import opened Blobs
  import opened CompactCycle
  import opened Ledger
  import opened Solo
  import Compaction
  import Guarantees

  /** The index, the sink's root and the transform; `None` stands for a transform that raises. */
  datatype Config = Config(index: CompactCycle.Config, sink: string, transform: Item -> Option<Record>)

  /** Where a process stands in `enqueue` or `run_once`: the point before the next primitive. */
  datatype Phase =
    | Idle
    | Placing(item: Item)                             // enqueue: create-if-absent failed; before exists
    | Replacing(item: Item)                           // enqueue: the item was gone; before write
    | Claimed(id: string)                             // lease acquired; before the pending item is read
    | Working(id: string, item: Item)                 // before the transform and the first expiry check
    | Ready(id: string, item: Item, out: Record)      // before sink.append
    | Sunk(id: string, item: Item, out: Record)       // before the second expiry check
    | Passed(id: string, item: Item, out: Record)     // before the completed/ record is written
    | Failing(id: string)                             // before the failed/ record is written
    | Written(id: string)                             // terminal written; before exists on the pending item
    | Clearing(id: string)                            // before the pending item is deleted

  /** The queue folders by item id, the workers, and the history: the items offered to `enqueue`, the ids it
      found or put in the pending folder, and the items it put there. */
  datatype Queue = Queue(pending: map<string, Item>, completed: map<string, Item>, failed: set<string>,
                         workers: map<nat, Phase>, offered: set<Item>, enqueued: set<string>, placed: set<Item>)

  /** The queue, the compactors and, as history, what anybody else has put in the log. */
  datatype State = State(q: Queue, c: Compaction.State, others: Log)

  datatype Event =
    | Compact(e: Compaction.Event)
    | Enqueue(w: nat, item: Item)
    | Claim(w: nat, id: string)
    | Advance(w: nat, ok: bool)   // the worker's next primitive; `ok` is the outcome left to the world
    | Sink(w: nat, ok: bool)      // sink.append writes; `ok` false: it raises all the same
    | Stop(w: nat)                // crash, or an exception that leaves the worker's hands empty

  function At(q: Queue, w: nat): Phase {
    if w in q.workers then q.workers[w] else Idle
  }

  function Move(q: Queue, w: nat, p: Phase): Queue {
    q.(workers := q.workers[w := p])
  }

  function Place(q: Queue, item: Item): Queue {
    q.(pending := q.pending[item.id := item], enqueued := q.enqueued + {item.id}, placed := q.placed + {item})
  }

  /** `create_if_absent` of the pending item. */
  function Offer(q: Queue, w: nat, item: Item): Queue {
    var o := q.(offered := q.offered + {item});
    if item.id in q.pending then Move(o.(enqueued := q.enqueued + {item.id}), w, Placing(item)) else Move(Place(o, item), w, Idle)
  }

  /** One primitive of `enqueue`, `claim`, `run_once`, `complete` or `fail`, the sink's write excepted.
      `ok` tells whether an expiry check passes, or whether the sink raised before writing. */
  function Work(cfg: Config, q: Queue, w: nat, ok: bool): Queue {
    match At(q, w)
    case Idle => q
    case Placing(item) => Move(q, w, if item.id in q.pending then Idle else Replacing(item))
    case Replacing(item) => Move(Place(q, item), w, Idle)
    case Claimed(id) => Move(q, w, if id in q.pending then Working(id, q.pending[id]) else Idle)
    case Working(id, item) =>
      var out := cfg.transform(item);
      Move(q, w, if out.None? then Failing(id) else if ok then Ready(id, item, out.value) else Idle)
    case Ready(id, item, out) => Move(q, w, Failing(id))
    case Sunk(id, item, out) => Move(q, w, if ok then Passed(id, item, out) else Idle)
    case Passed(id, item, out) => Move(q.(completed := q.completed[id := item]), w, Written(id))
    case Failing(id) => Move(q.(failed := q.failed + {id}), w, Written(id))
    case Written(id) => Move(q, w, if id in q.pending then Clearing(id) else Idle)
    case Clearing(id) => Move(q.(pending := q.pending - {id}), w, Idle)
  }

  function OutPath(cfg: Config, out: Record): string {
    LogPath(cfg.sink, out.id)
  }

  ghost function Apply(cfg: Config, s: State, e: Event): State
    requires e.Compact? && (e.e.Body? || e.e.Raise?) ==> e.e.w in s.c.cycles
    requires e.Sink? ==> At(s.q, e.w).Ready?
  {
    match e
    case Compact(ce) =>
      s.(c := Compaction.Apply(cfg.index, s.c, ce), others := if ce.Append? then s.others + {(ce.p, ce.r)} else s.others)
    case Enqueue(w, item) => s.(q := Offer(s.q, w, item))
    case Claim(w, id) => s.(q := Move(s.q, w, Claimed(id)))
    case Advance(w, ok) => s.(q := Work(cfg, s.q, w, ok))
    case Sink(w, ok) =>
      var p := At(s.q, w);
      s.(q := Move(s.q, w, if ok then Sunk(p.id, p.item, p.out) else Failing(p.id)),
         c := Compaction.Apply(cfg.index, s.c, Compaction.Append(OutPath(cfg, p.out), p.out)))
    case Stop(w) => s.(q := Move(s.q, w, Idle))
  }

  /** Two items may be offered together: outputs that share a path are the same record. */
  predicate Agree(cfg: Config, a: Item, b: Item) {
    var x, y := cfg.transform(a), cfg.transform(b);
    x.Some? && y.Some? && OutPath(cfg, x.value) == OutPath(cfg, y.value) ==> x == y
  }

  /** What somebody else put at a path is what the item's output would be there. */
  predicate AgreesWith(cfg: Config, item: Item, e: (string, Record)) {
    var x := cfg.transform(item);
    x.Some? && OutPath(cfg, x.value) == e.0 ==> x.value == e.1
  }

  /** The sink is a source of the index; outputs have ordinary names and serialise to a line. */
  ghost predicate WellFormed(cfg: Config) {
    && Separate(cfg.index)
    && forall i :: cfg.transform(i).Some? ==>
         var out := cfg.transform(i).value;
         SourcePath(cfg.index, OutPath(cfg, out)) && Eligible(OutPath(cfg, out)) && RoundTrips(cfg.index.codec, out)
  }

  ghost predicate Enabled(cfg: Config, s: State, e: Event) {
    match e
    case Compact(ce) =>
      && Compaction.Enabled(cfg.index, s.c, ce)
      && (ce.Append? ==> forall o | o in s.q.offered :: AgreesWith(cfg, o, (ce.p, ce.r)))
    case Enqueue(w, item) =>
      && At(s.q, w).Idle?
      && (forall o | o in s.q.offered :: Agree(cfg, item, o))
      && (forall x | x in s.others :: AgreesWith(cfg, item, x))
    case Claim(w, _) => At(s.q, w).Idle?
    case Advance(_, _) => true
    case Sink(w, _) => At(s.q, w).Ready?
    case Stop(_) => true
  }

  ghost predicate Init(cfg: Config, s: State) {
    && s.q == Queue(map[], map[], {}, map[], {}, {}, {})
    && Compaction.Init(cfg.index, s.c) && s.others == s.c.log
  }

  ghost predicate Run(cfg: Config, states: seq<State>, events: seq<Event>) {
    && |states| == |events| + 1
    && Init(cfg, states[0])
    && forall i | 0 <= i < |events| :: Enabled(cfg, states[i], events[i]) && states[i + 1] == Apply(cfg, states[i], events[i])
  }

  ghost predicate Reachable(cfg: Config, s: State) {
    exists states, events :: Run(cfg, states, events) && states[|states| - 1] == s
  }

  lemma Extend(cfg: Config, s: State, e: Event) returns (t: State)
    requires Reachable(cfg, s) && Enabled(cfg, s, e)
    ensures t == Apply(cfg, s, e) && Reachable(cfg, t)
  {
    hide Compaction.Apply, ListingOk, Compaction.L.Enabled, Compaction.L.Careful, Init, Agree, AgreesWith;
    var states, events :| Run(cfg, states, events) && states[|states| - 1] == s;
    t := Apply(cfg, s, e);
    assert Run(cfg, states + [t], events + [e]);
  }

  /* ---- Invariant ---- */

  predicate Known(q: Queue, id: string) {
    id in q.pending || id in q.completed || id in q.failed
  }

  predicate Terminal(q: Queue, id: string) {
    id in q.completed || id in q.failed
  }

  /** `item` was put in the pending folder, under `id`. */
  predicate Placed(q: Queue, id: string, item: Item) {
    item in q.placed && item.id == id
  }

  predicate Delivered(cfg: Config, log: Log, item: Item) {
    cfg.transform(item).Some? && (OutPath(cfg, cfg.transform(item).value), cfg.transform(item).value) in log
  }

  predicate PhaseOk(cfg: Config, q: Queue, log: Log, p: Phase) {
    match p
    case Idle => true
    case Placing(item) => item in q.offered && item.id in q.enqueued
    case Replacing(item) => item in q.offered && item.id in q.enqueued
    case Claimed(id) => true
    case Working(id, item) => Placed(q, id, item)
    case Ready(id, item, out) => Placed(q, id, item) && cfg.transform(item) == Some(out)
    case Sunk(id, item, out) => Placed(q, id, item) && Delivered(cfg, log, item)
    case Passed(id, item, out) => Placed(q, id, item) && Delivered(cfg, log, item)
    case Failing(id) => true
    case Written(id) => Terminal(q, id)
    case Clearing(id) => Terminal(q, id)
  }

  ghost predicate QueueInv(cfg: Config, q: Queue, log: Log) {
    && (forall id | id in q.enqueued :: Known(q, id))
    && (forall id | id in q.pending :: Placed(q, id, q.pending[id]))
    && (forall id | id in q.completed :: Placed(q, id, q.completed[id]) && Delivered(cfg, log, q.completed[id]))
    && (forall item | item in q.placed :: item in q.offered && item.id in q.enqueued)
    && (forall w | w in q.workers :: PhaseOk(cfg, q, log, q.workers[w]))
    && (forall a, b | a in q.offered && b in q.offered :: Agree(cfg, a, b))
  }

  /** Everything in the log is the transform of a placed item, at its own path, or somebody else's. */
  ghost predicate LogInv(cfg: Config, q: Queue, others: Log, log: Log) {
    && others <= log
    && (forall item, x | item in q.offered && x in others :: AgreesWith(cfg, item, x))
    && forall e | e in log && e !in others :: Explained(cfg, q, e)
  }

  ghost predicate Explained(cfg: Config, q: Queue, e: (string, Record)) {
    exists item: Item :: Placed(q, item.id, item) && cfg.transform(item) == Some(e.1) && e.0 == OutPath(cfg, e.1)
  }

  ghost predicate Inv(cfg: Config, s: State) {
    Compaction.Inv(cfg.index, s.c) && QueueInv(cfg, s.q, s.c.log) && LogInv(cfg, s.q, s.others, s.c.log)
  }

  lemma OfferKeeps(cfg: Config, q: Queue, log: Log, w: nat, item: Item)
    requires QueueInv(cfg, q, log) && forall o | o in q.offered :: Agree(cfg, item, o)
    ensures QueueInv(cfg, Offer(q, w, item), log)
  {
    hide Delivered;
    AgreeSymmetric(cfg, q, item);
    var r := Offer(q, w, item);
    forall v | v in r.workers ensures PhaseOk(cfg, r, log, r.workers[v]) {
      if v != w { assert PhaseOk(cfg, q, log, q.workers[v]); }
    }
  }

  lemma AgreeSymmetric(cfg: Config, q: Queue, item: Item)
    requires forall o | o in q.offered :: Agree(cfg, item, o)
    ensures forall o | o in q.offered :: Agree(cfg, o, item)
    ensures Agree(cfg, item, item)
  {}

  /** A change of the folders that forgets nothing known, finished or placed keeps every worker's phase. */
  lemma PhasesKept(cfg: Config, q: Queue, r: Queue, log: Log)
    requires forall w | w in q.workers :: PhaseOk(cfg, q, log, q.workers[w])
    requires r.workers == q.workers && r.offered == q.offered && q.enqueued <= r.enqueued && q.placed <= r.placed
    requires forall id | Terminal(q, id) :: Terminal(r, id)
    ensures forall w | w in r.workers :: PhaseOk(cfg, r, log, r.workers[w])
  {
    hide Delivered;
    forall w | w in r.workers ensures PhaseOk(cfg, r, log, r.workers[w]) {
      assert PhaseOk(cfg, q, log, q.workers[w]);
    }
  }

  lemma PlaceKeeps(cfg: Config, q: Queue, log: Log, item: Item)
    requires QueueInv(cfg, q, log) && item in q.offered
    ensures QueueInv(cfg, Place(q, item), log)
  {
    hide Delivered, Agree, PhaseOk;
    PhasesKept(cfg, q, Place(q, item), log);
  }

  lemma CompleteKeeps(cfg: Config, q: Queue, log: Log, id: string, item: Item)
    requires QueueInv(cfg, q, log) && Placed(q, id, item) && Delivered(cfg, log, item)
    ensures QueueInv(cfg, q.(completed := q.completed[id := item]), log)
  {
    hide Delivered, Agree, PhaseOk;
    PhasesKept(cfg, q, q.(completed := q.completed[id := item]), log);
  }

  lemma FailKeeps(cfg: Config, q: Queue, log: Log, id: string)
    requires QueueInv(cfg, q, log)
    ensures QueueInv(cfg, q.(failed := q.failed + {id}), log)
  {
    hide Delivered, Agree, PhaseOk;
    PhasesKept(cfg, q, q.(failed := q.failed + {id}), log);
  }

  lemma ClearKeeps(cfg: Config, q: Queue, log: Log, id: string)
    requires QueueInv(cfg, q, log) && Terminal(q, id)
    ensures QueueInv(cfg, q.(pending := q.pending - {id}), log)
  {
    hide Delivered, Agree, PhaseOk;
    PhasesKept(cfg, q, q.(pending := q.pending - {id}), log);
  }

  lemma WorkKeeps(cfg: Config, q: Queue, log: Log, w: nat, ok: bool)
    requires QueueInv(cfg, q, log)
    ensures QueueInv(cfg, Work(cfg, q, w, ok), log)
  {
    CurrentPhase(cfg, q, log, w);
    hide QueueInv, Delivered, Agree, Place, Move;
    match At(q, w)
    case Idle =>
    case Placing(item) => MoveKeeps(cfg, q, log, w, if item.id in q.pending then Idle else Replacing(item));
    case Replacing(item) =>
      PlaceKeeps(cfg, q, log, item);
      MoveKeeps(cfg, Place(q, item), log, w, Idle);
    case Claimed(id) => MoveKeeps(cfg, q, log, w, if id in q.pending then Working(id, q.pending[id]) else Idle);
    case Working(id, item) =>
      var out := cfg.transform(item);
      MoveKeeps(cfg, q, log, w, if out.None? then Failing(id) else if ok then Ready(id, item, out.value) else Idle);
    case Ready(id, item, out) => MoveKeeps(cfg, q, log, w, Failing(id));
    case Sunk(id, item, out) => MoveKeeps(cfg, q, log, w, if ok then Passed(id, item, out) else Idle);
    case Passed(id, item, out) =>
      CompleteKeeps(cfg, q, log, id, item);
      MoveKeeps(cfg, q.(completed := q.completed[id := item]), log, w, Written(id));
    case Failing(id) =>
      FailKeeps(cfg, q, log, id);
      MoveKeeps(cfg, q.(failed := q.failed + {id}), log, w, Written(id));
    case Written(id) => MoveKeeps(cfg, q, log, w, if id in q.pending then Clearing(id) else Idle);
    case Clearing(id) =>
      ClearKeeps(cfg, q, log, id);
      MoveKeeps(cfg, q.(pending := q.pending - {id}), log, w, Idle);
  }

  lemma CurrentPhase(cfg: Config, q: Queue, log: Log, w: nat)
    requires QueueInv(cfg, q, log)
    ensures PhaseOk(cfg, q, log, At(q, w))
    ensures At(q, w).Claimed? && At(q, w).id in q.pending ==> Placed(q, At(q, w).id, q.pending[At(q, w).id])
  {
    hide Delivered, Agree, Placed;
  }

  lemma MoveKeeps(cfg: Config, q: Queue, log: Log, w: nat, p: Phase)
    requires QueueInv(cfg, q, log) && PhaseOk(cfg, q, log, p)
    ensures QueueInv(cfg, Move(q, w, p), log)
  {
    hide Delivered, Agree;
    var r := Move(q, w, p);
    forall v | v in r.workers ensures PhaseOk(cfg, r, log, r.workers[v]) {
      if v != w { assert PhaseOk(cfg, q, log, q.workers[v]); }
    }
  }

  lemma GrowLogKeeps(cfg: Config, q: Queue, log: Log, e: (string, Record))
    requires QueueInv(cfg, q, log)
    ensures QueueInv(cfg, q, log + {e})
  {
    hide Agree;
    forall w | w in q.workers ensures PhaseOk(cfg, q, log + {e}, q.workers[w]) {
      assert PhaseOk(cfg, q, log, q.workers[w]);
    }
  }

  /** The queue's own steps forget no item that was placed. */
  lemma LogStaysExplained(cfg: Config, q: Queue, r: Queue, others: Log, log: Log)
    requires LogInv(cfg, q, others, log) && q.placed <= r.placed
    requires forall item, x | item in r.offered && item !in q.offered && x in others :: AgreesWith(cfg, item, x)
    ensures LogInv(cfg, r, others, log)
  {
    hide AgreesWith;
    forall e | e in log && e !in others ensures Explained(cfg, r, e) {
      assert Explained(cfg, q, e);
      var item: Item :| Placed(q, item.id, item) && cfg.transform(item) == Some(e.1) && e.0 == OutPath(cfg, e.1);
      assert Placed(r, item.id, item);
    }
  }

  /** Somebody else's record joins the log. */
  lemma ForeignLog(cfg: Config, q: Queue, others: Log, log: Log, e: (string, Record))
    requires LogInv(cfg, q, others, log) && forall o | o in q.offered :: AgreesWith(cfg, o, e)
    ensures LogInv(cfg, q, others + {e}, log + {e})
  {
    hide AgreesWith, Explained;
  }

  /** What the log already holds at an output's path is that very output. */
  lemma OutputIsConsistent(cfg: Config, q: Queue, others: Log, log: Log, id: string, item: Item, out: Record)
    requires QueueInv(cfg, q, log) && LogInv(cfg, q, others, log) && Placed(q, id, item) && cfg.transform(item) == Some(out)
    ensures forall e | e in log && e.0 == OutPath(cfg, out) :: e.1 == out
  {
    hide PhaseOk, Delivered, OutPath;
    forall e | e in log && e.0 == OutPath(cfg, out) ensures e.1 == out {
      if e in others {
        assert AgreesWith(cfg, item, e);
      } else {
        assert Explained(cfg, q, e);
        var other: Item :| Placed(q, other.id, other) && cfg.transform(other) == Some(e.1) && e.0 == OutPath(cfg, e.1);
        assert Agree(cfg, item, other);
      }
    }
  }

  lemma SinkKeepsInv(cfg: Config, s: State, w: nat, ok: bool)
    requires WellFormed(cfg) && Inv(cfg, s) && At(s.q, w).Ready?
    ensures Inv(cfg, Apply(cfg, s, Sink(w, ok)))
  {
    hide Compaction.Inv, Compaction.Apply, QueueInv, LogInv, Separate, SourcePath, Eligible, RoundTrips, OutPath, Agree, Move;
    var p := At(s.q, w);
    ReadyPhase(cfg, s.q, s.c.log, w);
    var path := OutPath(cfg, p.out);
    assert SourcePath(cfg.index, path) && RoundTrips(cfg.index.codec, p.out);
    OutputIsConsistent(cfg, s.q, s.others, s.c.log, p.id, p.item, p.out);
    SinkIsSafe(cfg, s.c, path, p.out);
    Compaction.ApplyKeepsInv(cfg.index, s.c, Compaction.Append(path, p.out));
    SinkLog(cfg, s, w, p.id, p.item, p.out, ok);
  }

  lemma ReadyPhase(cfg: Config, q: Queue, log: Log, w: nat)
    requires QueueInv(cfg, q, log) && At(q, w).Ready?
    ensures PhaseOk(cfg, q, log, At(q, w))
  {}

  lemma SinkIsSafe(cfg: Config, c: Compaction.State, path: string, out: Record)
    requires Compaction.Inv(cfg.index, c) && SourcePath(cfg.index, path) && RoundTrips(cfg.index.codec, out)
    requires forall e | e in c.log && e.0 == path :: e.1 == out
    ensures Compaction.Enabled(cfg.index, c, Compaction.Append(path, out))
  {
    hide FilesInv, CycleInv, SourcePath, RoundTrips, AppendOk, Compaction.L.Inv;
    SameRecordIsSafe(cfg.index, c.files, c.log, Compaction.ActiveCycles(c), path, out);
  }

  lemma SinkLog(cfg: Config, s: State, w: nat, id: string, item: Item, out: Record, ok: bool)
    requires QueueInv(cfg, s.q, s.c.log) && LogInv(cfg, s.q, s.others, s.c.log)
    requires At(s.q, w) == Ready(id, item, out) && Placed(s.q, id, item) && cfg.transform(item) == Some(out)
    ensures
      var t := Apply(cfg, s, Sink(w, ok));
      QueueInv(cfg, t.q, t.c.log) && LogInv(cfg, t.q, t.others, t.c.log)
  {
    hide QueueInv, LogInv, OutPath, Agree;
    var log := s.c.log + {(OutPath(cfg, out), out)};
    GrowLogKeeps(cfg, s.q, s.c.log, (OutPath(cfg, out), out));
    MoveKeeps(cfg, s.q, log, w, if ok then Sunk(id, item, out) else Failing(id));
    GrowLogInv(cfg, s.q, s.others, s.c.log, item, out);
    LogStaysExplained(cfg, s.q, Apply(cfg, s, Sink(w, ok)).q, s.others, log);
  }

  lemma GrowLogInv(cfg: Config, q: Queue, others: Log, log: Log, item: Item, out: Record)
    requires LogInv(cfg, q, others, log) && Placed(q, item.id, item) && cfg.transform(item) == Some(out)
    ensures LogInv(cfg, q, others, log + {(OutPath(cfg, out), out)})
  {
    hide OutPath, AgreesWith;
    var e := (OutPath(cfg, out), out);
    assert Explained(cfg, q, e);
  }

  lemma ApplyKeepsInv(cfg: Config, s: State, e: Event)
    requires WellFormed(cfg) && Inv(cfg, s) && Enabled(cfg, s, e)
    ensures Inv(cfg, Apply(cfg, s, e))
  {
    hide Compaction.Inv, Compaction.Apply, Compaction.Enabled, QueueInv, LogInv, SourcePath, Eligible, RoundTrips,
        OutPath, Agree, AgreesWith, Separate;
    match e
    case Compact(ce) =>
      Compaction.ApplyKeepsInv(cfg.index, s.c, ce);
      CompactionLog(cfg, s.c, ce);
      if ce.Append? {
        GrowLogKeeps(cfg, s.q, s.c.log, (ce.p, ce.r));
        ForeignLog(cfg, s.q, s.others, s.c.log, (ce.p, ce.r));
      }
    case Enqueue(w, item) =>
      OfferKeeps(cfg, s.q, s.c.log, w, item);
      LogStaysExplained(cfg, s.q, Offer(s.q, w, item), s.others, s.c.log);
    case Claim(w, id) =>
      MoveKeeps(cfg, s.q, s.c.log, w, Claimed(id));
      LogStaysExplained(cfg, s.q, Move(s.q, w, Claimed(id)), s.others, s.c.log);
    case Advance(w, ok) =>
      WorkKeeps(cfg, s.q, s.c.log, w, ok);
      LogStaysExplained(cfg, s.q, Work(cfg, s.q, w, ok), s.others, s.c.log);
    case Sink(w, ok) => SinkKeepsInv(cfg, s, w, ok);
    case Stop(w) =>
      MoveKeeps(cfg, s.q, s.c.log, w, Idle);
      LogStaysExplained(cfg, s.q, Move(s.q, w, Idle), s.others, s.c.log);
  }

  lemma CompactionLog(cfg: Config, c: Compaction.State, e: Compaction.Event)
    requires Compaction.Enabled(cfg.index, c, e)
    ensures Compaction.Apply(cfg.index, c, e).log == if e.Append? then c.log + {(e.p, e.r)} else c.log
  {
    hide Step, AppendOk, PlantOk, ListingOk, Compaction.L.Enabled;
  }

  lemma {:induction false} RunInv(cfg: Config, states: seq<State>, events: seq<Event>, i: nat)
    requires WellFormed(cfg) && Run(cfg, states, events) && i < |states|
    ensures Inv(cfg, states[i])
  {
    hide Inv, Init, Enabled, Apply, WellFormed;
    if i == 0 {
      InitInv(cfg, states[0]);
    } else {
      RunInv(cfg, states, events, i - 1);
      ApplyKeepsInv(cfg, states[i - 1], events[i - 1]);
    }
  }

  lemma InitInv(cfg: Config, s: State)
    requires Init(cfg, s)
    ensures Inv(cfg, s)
  {
    hide Compaction.Init, Compaction.Inv;
    Compaction.InitInv(cfg.index, s.c);
  }

  lemma ReachableInv(cfg: Config, s: State)
    requires WellFormed(cfg) && Reachable(cfg, s)
    ensures Inv(cfg, s)
  {
    hide WellFormed, Init, Enabled, Apply, Inv;
    var states, events :| Run(cfg, states, events) && states[|states| - 1] == s;
    RunInv(cfg, states, events, |states| - 1);
  }

  /* ---- Guarantees ---- */

  /** A process makes its next move: nothing is asked of the items, of their outputs or of the compactors. */
  predicate Possible(s: State, e: Event) {
    match e
    case Compact(ce) => ce.Body? || ce.Raise? ==> ce.w in s.c.cycles
    case Enqueue(w, _) => At(s.q, w).Idle?
    case Claim(w, _) => At(s.q, w).Idle?
    case Advance(_, _) => true
    case Sink(w, _) => At(s.q, w).Ready?
    case Stop(_) => true
  }

  ghost predicate FreeRun(cfg: Config, states: seq<State>, events: seq<Event>) {
    && |states| == |events| + 1
    && states[0].q == Queue(map[], map[], {}, map[], {}, {}, {})
    && forall i | 0 <= i < |events| :: Possible(states[i], events[i]) && states[i + 1] == Apply(cfg, states[i], events[i])
  }

  /** Every enqueued id is somewhere, and a worker about to delete a pending item has written its terminal record. */
  ghost predicate NothingLost(q: Queue) {
    && (forall id | id in q.enqueued :: Known(q, id))
    && (forall w | w in q.workers && q.workers[w].Written? :: Terminal(q, q.workers[w].id))
    && (forall w | w in q.workers && q.workers[w].Clearing? :: Terminal(q, q.workers[w].id))
  }

  lemma WorkLosesNothing(cfg: Config, q: Queue, w: nat, ok: bool)
    requires NothingLost(q)
    ensures NothingLost(Work(cfg, q, w, ok)) && q.enqueued <= Work(cfg, q, w, ok).enqueued
  {
    match At(q, w)
    case Idle =>
    case Placing(item) =>
    case Replacing(item) =>
    case Claimed(id) =>
    case Working(id, item) =>
    case Ready(id, item, out) =>
    case Sunk(id, item, out) =>
    case Passed(id, item, out) =>
    case Failing(id) =>
    case Written(id) =>
    case Clearing(id) =>
  }

  lemma StepLosesNothing(cfg: Config, s: State, e: Event)
    requires NothingLost(s.q) && Possible(s, e)
    ensures NothingLost(Apply(cfg, s, e).q) && s.q.enqueued <= Apply(cfg, s, e).q.enqueued
  {
    hide Compaction.Apply, Work;
    if e.Advance? { WorkLosesNothing(cfg, s.q, e.w, e.ok); }
  }

  lemma {:induction false} FreeRunLosesNothing(cfg: Config, states: seq<State>, events: seq<Event>, i: nat)
    requires FreeRun(cfg, states, events) && i < |states|
    ensures NothingLost(states[i].q)
  {
    hide Possible, Apply, NothingLost;
    if i == 0 {
      StartLosesNothing(states[0].q);
    } else {
      FreeRunLosesNothing(cfg, states, events, i - 1);
      StepLosesNothing(cfg, states[i - 1], events[i - 1]);
    }
  }

  lemma StartLosesNothing(q: Queue)
    requires q == Queue(map[], map[], {}, map[], {}, {}, {})
    ensures NothingLost(q)
  {}

  /** No loss: once an id has been enqueued, in every later state it is pending, completed or failed, whatever
      the items, the transform, the sink and the compactors do. */
  lemma {:induction false} QueueNoLoss(cfg: Config, states: seq<State>, events: seq<Event>, i: nat, j: nat, id: string)
    requires FreeRun(cfg, states, events) && i <= j < |states|
    requires id in states[i].q.enqueued
    ensures id in states[j].q.enqueued && Known(states[j].q, id)
    decreases j - i
  {
    hide Possible, Apply;
    FreeRunLosesNothing(cfg, states, events, j);
    if i < j {
      QueueNoLoss(cfg, states, events, i, j - 1, id);
      FreeRunLosesNothing(cfg, states, events, j - 1);
      StepLosesNothing(cfg, states[j - 1], events[j - 1]);
    }
  }

  /** What the schedules of the results below may do is possible. */
  lemma EnabledIsPossible(cfg: Config, s: State, e: Event)
    requires Enabled(cfg, s, e)
    ensures Possible(s, e)
  {
    hide Agree, AgreesWith, ListingOk, AppendOk, PlantOk, Compaction.L.Enabled, Compaction.L.Careful;
  }

  lemma DeliveredIsHeld(cfg: Config, s: State, item: Item)
    requires WellFormed(cfg) && Inv(cfg, s) && Placed(s.q, item.id, item) && Delivered(cfg, s.c.log, item)
    ensures
      var out := cfg.transform(item).value;
      var path := OutPath(cfg, out);
      (path in s.c.files && s.c.files[path] == RecordBlob(out)) || Absorbed(out, Base(cfg.index, s.c.files))
  {
    hide *;
    var out := OutputOf(cfg, s, item);
    Guarantees.InvParts(cfg.index, s.c);
    FilesInvParts(cfg.index, s.c.files, s.c.log);
    OutputIsConsistent(cfg, s.q, s.others, s.c.log, item.id, item, out);
    HeldAt(cfg.index, s.c.files, s.c.log, OutPath(cfg, out), out);
  }

  lemma OutputOf(cfg: Config, s: State, item: Item) returns (out: Record)
    requires WellFormed(cfg) && Inv(cfg, s) && Delivered(cfg, s.c.log, item)
    ensures cfg.transform(item) == Some(out) && (OutPath(cfg, out), out) in s.c.log
    ensures Compaction.Inv(cfg.index, s.c) && QueueInv(cfg, s.q, s.c.log) && LogInv(cfg, s.q, s.others, s.c.log)
    ensures Separate(cfg.index)
  {
    hide Compaction.Inv, QueueInv, LogInv, Separate, SourcePath, RoundTrips;
    out := cfg.transform(item).value;
  }

  /** A logged record whose path carries no other is either in its file or absorbed. */
  lemma HeldAt(cfg: CompactCycle.Config, f: Files, log: Log, p: string, r: Record)
    requires LogOk(cfg, log) && SourcesLogged(cfg, f, log) && AllAccounted(cfg, f, log)
    requires (p, r) in log && forall e | e in log && e.0 == p :: e.1 == r
    ensures (p in f && f[p] == RecordBlob(r)) || Absorbed(r, Base(cfg, f))
  {
    hide Base, Absorbed, Below, InSource, RoundTrips;
    assert SourcePath(cfg, (p, r).0) && Accounted(f, Base(cfg, f), (p, r).0, (p, r).1);
    if IsRecord(f, p) { assert (p, f[p].rec).1 == r; }
  }

  /** End to end: whatever the interleaving of workers, duplicate deliveries, crashes and compaction cycles,
      a completed item's transform is still in its file in the sink, or the committed generation holds a
      record of the same key that ranks at least as high. */
  lemma EndToEnd(cfg: Config, s: State, id: string)
    requires WellFormed(cfg) && Reachable(cfg, s) && id in s.q.completed
    ensures
      var item := s.q.completed[id];
      && Placed(s.q, id, item) && cfg.transform(item).Some?
      && var out := cfg.transform(item).value;
         var path := OutPath(cfg, out);
         (path in s.c.files && s.c.files[path] == RecordBlob(out)) || Absorbed(out, Base(cfg.index, s.c.files))
  {
    hide WellFormed, Reachable, Compaction.Inv, LogInv, PhaseOk, Absorbed, Base, Agree;
    ReachableInv(cfg, s);
    DeliveredIsHeld(cfg, s, s.q.completed[id]);
  }

  /** Duplicate deliveries converge: a record file under the index's sources that nobody else put there is the
      transform of some item that was put in the pending folder, at that output's own path. */
  lemma SinkHoldsOnlyOutputs(cfg: Config, s: State, p: string)
    requires WellFormed(cfg) && Reachable(cfg, s) && IsRecord(s.c.files, p) && InSource(cfg.index, p)
    ensures (p, s.c.files[p].rec) in s.others || Explained(cfg, s.q, (p, s.c.files[p].rec))
  {
    hide WellFormed, Reachable, QueueInv, AllAccounted, FrontierOk, CommitIntact, BaseOk, LogOk, InSource, OutPath,
        CycleInv, Compaction.L.Inv, Explained, AgreesWith;
    ReachableInv(cfg, s);
    assert (p, s.c.files[p].rec) in s.c.log;
  }

  /* ---- What becomes of each item ---- */

  /** The item was offered, and `enqueue` found or put an item under its id. */
  predicate Enqueued(q: Queue, item: Item) {
    item in q.offered && item.id in q.enqueued
  }

  /** The transforms of everything enqueued. */
  ghost predicate IsOutput(cfg: Config, q: Queue, r: Record) {
    exists item: Item :: Enqueued(q, item) && cfg.transform(item) == Some(r)
  }

  /** The transforms of everything that was put in the pending folder. */
  ghost predicate PlacedOutput(cfg: Config, q: Queue, r: Record) {
    exists item: Item :: item in q.placed && cfg.transform(item) == Some(r)
  }

  /** An id always carries the same item. */
  ghost predicate OneItemPerId(q: Queue) {
    forall a, b | a in q.offered && b in q.offered && a.id == b.id :: a == b
  }

  /** The item still waits, or its output has been appended, or its id has a failed record. */
  predicate ItemSafe(cfg: Config, q: Queue, log: Log, item: Item) {
    || (item.id in q.pending && q.pending[item.id] == item)
    || Delivered(cfg, log, item)
    || item.id in q.failed
  }

  ghost predicate ItemsSafe(cfg: Config, q: Queue, log: Log) {
    forall item | item in q.placed :: ItemSafe(cfg, q, log, item)
  }

  /** The item this step would remove from the pending folder has been dealt with: the one a worker clears
      away after its terminal record, or the one a late `write_atomic` of `enqueue` overwrites. */
  predicate NothingForgotten(cfg: Config, q: Queue, log: Log, w: nat) {
    var p := At(q, w);
    && (p.Clearing? && p.id in q.pending ==> Delivered(cfg, log, q.pending[p.id]) || p.id in q.failed)
    && (p.Replacing? && p.item.id in q.pending && q.pending[p.item.id] != p.item ==>
          Delivered(cfg, log, q.pending[p.item.id]) || p.item.id in q.failed)
  }

  /** Ids are never lost, items can be: a step keeps every placed item safe if and only if it forgets none. */
  lemma StepKeepsItemsExactly(cfg: Config, q: Queue, log: Log, w: nat, ok: bool)
    requires ItemsSafe(cfg, q, log)
    requires forall id | id in q.pending :: Placed(q, id, q.pending[id])
    ensures ItemsSafe(cfg, Work(cfg, q, w, ok), log) <==> NothingForgotten(cfg, q, log, w)
  {
    hide Delivered;
    var r, p := Work(cfg, q, w, ok), At(q, w);
    if NothingForgotten(cfg, q, log, w) {
      forall item | item in r.placed ensures ItemSafe(cfg, r, log, item) {
        assert item in q.placed ==> ItemSafe(cfg, q, log, item);
      }
    } else {
      var id := if p.Clearing? then p.id else p.item.id;
      assert Placed(q, id, q.pending[id]);
      assert !ItemSafe(cfg, r, log, q.pending[id]);
    }
  }

  ghost predicate Filed(q: Queue) {
    forall id | id in q.pending :: Placed(q, id, q.pending[id])
  }

  lemma OtherStepsKeepItems(cfg: Config, s: State, e: Event)
    requires ItemsSafe(cfg, s.q, s.c.log) && Possible(s, e) && !e.Advance?
    ensures ItemsSafe(cfg, Apply(cfg, s, e).q, Apply(cfg, s, e).c.log)
  {
    hide Step, Compaction.L.Apply, Appended;
    var t := Apply(cfg, s, e);
    assert s.c.log <= t.c.log;
    forall item | item in t.q.placed ensures ItemSafe(cfg, t.q, t.c.log, item) {
      assert item in s.q.placed ==> ItemSafe(cfg, s.q, s.c.log, item);
    }
  }

  lemma StepKeepsFiled(cfg: Config, s: State, e: Event)
    requires Filed(s.q) && Possible(s, e)
    ensures Filed(Apply(cfg, s, e).q)
  {
    hide Compaction.Apply;
  }

  /** Over a whole schedule in which no step forgets an item, every item ever put in the pending folder is
      safe, so that with nothing pending and nothing failed each one's transform has been appended. */
  lemma {:induction false} UnforgottenItemsAreSafe(cfg: Config, states: seq<State>, events: seq<Event>, i: nat)
    requires FreeRun(cfg, states, events) && i < |states|
    requires forall k | 0 <= k < |events| && events[k].Advance? :: NothingForgotten(cfg, states[k].q,
        states[k].c.log, events[k].w)
    ensures Filed(states[i].q) && ItemsSafe(cfg, states[i].q, states[i].c.log)
    ensures states[i].q.pending == map[] && states[i].q.failed == {} ==>
              forall item | item in states[i].q.placed :: Delivered(cfg, states[i].c.log, item)
  {
    hide Possible, Apply, NothingForgotten, Delivered;
    if i > 0 {
      var s, e := states[i - 1], events[i - 1];
      UnforgottenItemsAreSafe(cfg, states, events, i - 1);
      StepKeepsFiled(cfg, s, e);
      if e.Advance? {
        StepKeepsItemsExactly(cfg, s.q, s.c.log, e.w, e.ok);
        AdvanceIsWork(cfg, s, e);
      } else {
        OtherStepsKeepItems(cfg, s, e);
      }
    }
  }

  lemma AdvanceIsWork(cfg: Config, s: State, e: Event)
    requires e.Advance?
    ensures Apply(cfg, s, e) == s.(q := Work(cfg, s.q, e.w, e.ok))
  {
    hide Work;
  }

  /** Where an id always carries the same item, every item whose id has been enqueued is safe. */
  lemma OneItemPerIdIsSafe(cfg: Config, q: Queue, log: Log, item: Item)
    requires QueueInv(cfg, q, log) && OneItemPerId(q) && Enqueued(q, item)
    ensures ItemSafe(cfg, q, log, item)
  {
    hide PhaseOk, Delivered, Agree;
    assert Known(q, item.id);
    if item.id in q.pending { assert Placed(q, item.id, q.pending[item.id]); }
    if item.id in q.completed { assert Placed(q, item.id, q.completed[item.id]); }
  }

  /** Once nothing is pending and nothing has failed, and where an id always carries the same item, exactly
      the transforms of the enqueued items have been appended, besides what others appended. */
  lemma DrainedLogIsImage(cfg: Config, s: State)
    requires WellFormed(cfg) && Reachable(cfg, s) && s.q.pending == map[] && s.q.failed == {} && OneItemPerId(s.q)
    ensures forall item: Item | Enqueued(s.q, item) :: Delivered(cfg, s.c.log, item)
    ensures forall r :: IsOutput(cfg, s.q, r) || Logged(s.others, r) <==> Logged(s.c.log, r)
  {
    hide Reachable, Compaction.Inv, PhaseOk, Eligible, SourcePath, RoundTrips, Separate, OutPath, Agree, AgreesWith,
        OneItemPerId, LogInv;
    ReachableInv(cfg, s);
    forall item: Item | Enqueued(s.q, item) ensures Delivered(cfg, s.c.log, item) {
      OneItemPerIdIsSafe(cfg, s.q, s.c.log, item);
    }
    forall r ensures IsOutput(cfg, s.q, r) || Logged(s.others, r) <==> Logged(s.c.log, r) {
      LoggedOutput(cfg, s.q, s.others, s.c.log, r);
      if IsOutput(cfg, s.q, r) {
        var item: Item :| Enqueued(s.q, item) && cfg.transform(item) == Some(r);
        assert (OutPath(cfg, r), r) in s.c.log;
        assert Eligible(OutPath(cfg, cfg.transform(item).value));
      }
    }
  }

  /** What has been logged is an output or somebody else's. */
  lemma LoggedOutput(cfg: Config, q: Queue, others: Log, log: Log, r: Record)
    requires QueueInv(cfg, q, log) && LogInv(cfg, q, others, log)
    ensures Logged(log, r) ==> PlacedOutput(cfg, q, r) || Logged(others, r)
    ensures PlacedOutput(cfg, q, r) ==> IsOutput(cfg, q, r)
    ensures Logged(others, r) ==> Logged(log, r)
  {
    hide PhaseOk, Delivered, Agree, AgreesWith, OutPath, Eligible;
    if Logged(log, r) {
      var p :| (p, r) in log && Eligible(p);
      if (p, r) !in others {
        assert Explained(cfg, q, (p, r));
        var item: Item :| Placed(q, item.id, item) && cfg.transform(item) == Some((p, r).1);
      }
    }
    if Logged(others, r) {
      var p :| (p, r) in others && Eligible(p);
      assert (p, r) in log;
    }
    if PlacedOutput(cfg, q, r) {
      var item: Item :| item in q.placed && cfg.transform(item) == Some(r);
      assert Enqueued(q, item);
    }
  }

  /** After any schedule, one undisturbed cycle leaves an index whose checkpoint is, byte for byte, the serialised
      fold of what has been logged. */
  lemma CycleFoldsLog(cfg: Config, s: State, trace: seq<(Files, Cycle)>, inputs: seq<Input>, consuming: bool,
      compactor: string, all: seq<Record>)
    requires WellFormed(cfg) && Reachable(cfg, s) && Canonical(Guarantees.Records(s.c.log))
    requires forall r :: r in all <==> Logged(s.c.log, r)
    requires SoloRun(cfg.index, trace, inputs) && trace[0] == (s.c.files, Fresh(consuming, compactor)) &&
        trace[|trace| - 1].1.pc.Over()
    ensures CommitsFold(cfg, trace[|trace| - 1].0, all)
  {
    hide *;
    ReachableInv(cfg, s);
    Unpack(cfg, s);
    Guarantees.InvParts(cfg.index, s.c);
    ListsEligibleFrom(all, s.c.log);
    SoloCycleFolds(cfg.index, s.c.log, trace, inputs, consuming, compactor, all);
    SoloRunParts(cfg.index, trace, inputs);
    SoloRunInv(cfg.index, s.c.log, trace, inputs, consuming, compactor, |trace| - 1);
    var f := trace[|trace| - 1].0;
    FilesInvParts(cfg.index, f, s.c.log);
    NamesOwnCheckpoint(cfg.index, f);
    CommitsFoldFrom(cfg, f, all);
  }

  /** CURRENT names the checkpoint of its generation, and that holds the serialised fold of `all`. */
  ghost predicate CommitsFold(cfg: Config, f: Files, all: seq<Record>) {
    var checkpoint := Checkpoint(cfg.index, Generation(cfg.index, f));
    && Current(cfg.index) in f && f[Current(cfg.index)].MetaBlob?
    && f[Current(cfg.index)].meta.checkpoint == CheckpointName(Generation(cfg.index, f))
    && checkpoint in f && f[checkpoint] == Bytes(Encode(cfg.index.codec, Fold(all)))
  }

  lemma CommitsFoldFrom(cfg: Config, f: Files, all: seq<Record>)
    requires Current(cfg.index) in f && f[Current(cfg.index)].MetaBlob?
    requires f[Current(cfg.index)].meta.checkpoint == CheckpointName(Generation(cfg.index, f))
    requires Checkpoint(cfg.index, Generation(cfg.index, f)) in f
    requires f[Checkpoint(cfg.index, Generation(cfg.index, f))] == Bytes(Encode(cfg.index.codec, Fold(all)))
    ensures CommitsFold(cfg, f, all)
  {
    hide Current, Checkpoint, CheckpointName, Encode, Fold, Generation;
  }

  /** The pipeline as a whole: after any schedule of workers and compactors that leaves nothing pending and
      nothing failed, and where an id always carries the same item, one undisturbed cycle leaves an index
      whose checkpoint is, byte for byte, the serialised fold of the transforms of all enqueued items and of
      what others have appended. */
  lemma DrainedPipelineIsFold(cfg: Config, s: State, trace: seq<(Files, Cycle)>, inputs: seq<Input>, consuming: bool,
      compactor: string, all: seq<Record>)
    requires WellFormed(cfg) && Reachable(cfg, s) && s.q.pending == map[] && s.q.failed == {} && OneItemPerId(s.q)
    requires Canonical(Guarantees.Records(s.c.log))
    requires forall r :: r in all <==> IsOutput(cfg, s.q, r) || Logged(s.others, r)
    requires SoloRun(cfg.index, trace, inputs) && trace[0] == (s.c.files, Fresh(consuming, compactor)) &&
        trace[|trace| - 1].1.pc.Over()
    ensures CommitsFold(cfg, trace[|trace| - 1].0, all)
  {
    hide *;
    DrainedLogIsImage(cfg, s);
    SoloRunParts(cfg.index, trace, inputs);
    CycleFoldsLog(cfg, s, trace, inputs, consuming, compactor, all);
  }

  lemma Unpack(cfg: Config, s: State)
    requires WellFormed(cfg) && Inv(cfg, s)
    ensures Separate(cfg.index) && Compaction.Inv(cfg.index, s.c)
  {
    hide Compaction.Inv, Separate, SourcePath, RoundTrips, Eligible, QueueInv, LogInv;
  }

  lemma NamesOwnCheckpoint(cfg: CompactCycle.Config, f: Files)
    requires CommitIntact(cfg, f) && Current(cfg) in f
    ensures f[Current(cfg)].MetaBlob? && f[Current(cfg)].meta.checkpoint == CheckpointName(Generation(cfg, f))
  {
    hide Encode, Decode;
  }
}
