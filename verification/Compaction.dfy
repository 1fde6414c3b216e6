/** Any number of compactors over one index: the lock, a clock, crashes at any point, appends anywhere.
    Every step is one backend primitive of one process. */
module Compaction {
  import opened Text
  import opened Folding
  import opened Codec
  import opened Naming
  import opened Blobs
  import opened CompactCycle
  import opened Ledger
  import L = Lease

  /** The lock and its users, the files, the cycle each process runs or last ran, and everything appended. */
  datatype State = State(lock: L.State, files: Files, cycles: map<nat, Cycle>, log: Log)

  datatype Event =
    | Lock(e: L.Event, consuming: bool)   // a step of acquiring or releasing the lock, or the clock
    | Body(w: nat, x: Input)              // a primitive of the cycle
    | Raise(w: nat)                       // a primitive raises: the cycle is over, the lock is released next
    | Crash(w: nat)
    | Append(p: string, r: Record)
    | Plant(p: string, b: Blob)

  /** The process runs a cycle under an unexpired lock. */
  predicate Active(s: State, w: nat) {
    w in s.cycles && L.Live(s.lock, w)
  }

  function ActiveCycles(s: State): set<Cycle> {
    set w | w in s.cycles && L.Live(s.lock, w) :: s.cycles[w]
  }

  function Actor(e: L.Event): nat {
    match e
    case Begin(w, _, _) => w
    case Advance(w) => w
    case Drop(w) => w
    case Crash(w) => w
    case Tick(_) => 0
  }

  function LockStep(cfg: Config, s: State, e: L.Event, consuming: bool): State {
    var lock := L.Apply(cfg.reread, s.lock, e);
    var w := Actor(e);
    if e.Advance? && !L.At(s.lock, w).Holds() && L.At(lock, w).Owner?
    then s.(lock := lock, cycles := s.cycles[w := Fresh(consuming, L.At(lock, w).mine.worker)])
    else s.(lock := lock)
  }

  ghost function BodyStep(cfg: Config, s: State, w: nat, x: Input): State
    requires w in s.cycles
  {
    var (f, c) := Step(cfg, s.files, s.cycles[w], x);
    s.(files := f, cycles := s.cycles[w := c])
  }

  ghost function Apply(cfg: Config, s: State, e: Event): State
    requires e.Body? || e.Raise? ==> e.w in s.cycles
  {
    match e
    case Lock(l, consuming) => LockStep(cfg, s, l, consuming)
    case Body(w, x) => BodyStep(cfg, s, w, x)
    case Raise(w) => s.(cycles := s.cycles[w := s.cycles[w].(pc := Raised)])
    case Crash(w) => s.(lock := L.Apply(cfg.reread, s.lock, L.Crash(w)), cycles := s.cycles - {w})
    case Append(p, r) => s.(files := Appended(s.files, p, r), log := s.log + {(p, r)})
    case Plant(p, b) => s.(files := s.files[p := b])
  }

  /** What a schedule may do. A cycle's primitives run while its lock has not expired: a cycle finishes
      within its TTL or stops for good. The lock is released only after the cycle. */
  ghost predicate Enabled(cfg: Config, s: State, e: Event) {
    match e
    case Lock(l, _) =>
      && (l.Begin? || l.Advance? || l.Tick?)
      && L.Enabled(s.lock, l) && L.Careful(cfg.reread, s.lock, l)
      && (l.Advance? && L.At(s.lock, l.w).Owner? ==> l.w in s.cycles && s.cycles[l.w].pc.Over())
    case Body(w, x) => Active(s, w) && L.At(s.lock, w).Owner? && !s.cycles[w].pc.Over() &&
        ListingOk(cfg, s.cycles[w], x) && x.now == s.lock.now
    case Raise(w) => Active(s, w) && !s.cycles[w].pc.Over()
    case Crash(_) => true
    case Append(p, r) => AppendOk(cfg, s.files, ActiveCycles(s), p, r)
    case Plant(p, b) => PlantOk(cfg, s.files, ActiveCycles(s), p, b)
  }

  /** At first there is no CURRENT; records may already lie in the sources, and count as appended. */
  ghost predicate Init(cfg: Config, s: State) {
    && L.Init(s.lock) && s.cycles == map[]
    && Current(cfg) !in s.files
    && (forall p | IsRecord(s.files, p) && InSource(cfg, p) :: SourcePath(cfg, p) && RoundTrips(cfg.codec, s.files[p].rec))
    && (forall e :: e in s.log <==> IsRecord(s.files, e.0) && InSource(cfg, e.0) && e.1 == s.files[e.0].rec)
  }

  ghost predicate Run(cfg: Config, states: seq<State>, events: seq<Event>) {
    && |states| == |events| + 1
    && Init(cfg, states[0])
    && forall i | 0 <= i < |events| :: Enabled(cfg, states[i], events[i]) && states[i + 1] == Apply(cfg, states[i], events[i])
  }

  ghost predicate Reachable(cfg: Config, s: State) {
    exists states, events :: Run(cfg, states, events) && states[|states| - 1] == s
  }

  ghost predicate Inv(cfg: Config, s: State) {
    && L.Inv(s.lock)
    && FilesInv(cfg, s.files, s.log)
    && forall w | Active(s, w) :: CycleInv(cfg, s.files, s.log, s.cycles[w])
  }

  lemma InitInv(cfg: Config, s: State)
    requires Init(cfg, s)
    ensures Inv(cfg, s)
  {
    hide RoundTrips, InSource, Leq, SourcePath;
    assert Base(cfg, s.files) == [];
    FoldOfNothing();
    forall e | e in s.log ensures Accounted(s.files, [], e.0, e.1) { LeqReflexive(e.1); }
    assert L.Inv(s.lock);
  }

  lemma LockKeepsInv(cfg: Config, s: State, e: L.Event, consuming: bool)
    requires Inv(cfg, s) && Enabled(cfg, s, Lock(e, consuming))
    ensures Inv(cfg, LockStep(cfg, s, e, consuming))
  {
    hide FilesInv, CycleInv, L.Exclusive;
    L.ApplyKeepsInv(cfg.reread, s.lock, e);
    var t := LockStep(cfg, s, e, consuming);
    forall w | Active(t, w) ensures CycleInv(cfg, t.files, t.log, t.cycles[w]) {
      if e.Advance? && e.w == w && !L.At(s.lock, w).Holds() && L.At(t.lock, w).Owner? {
        FreshInv(cfg, t.files, t.log, consuming, L.At(t.lock, w).mine.worker);
      } else {
        LiveBefore(cfg.reread, s.lock, e, w);
      }
    }
  }

  /** A lock step makes nobody live except the process that acquires. */
  lemma LiveBefore(reread: bool, l: L.State, e: L.Event, w: nat)
    requires L.Enabled(l, e) && (e.Begin? || e.Advance? || e.Tick?)
    requires L.Live(L.Apply(reread, l, e), w)
    requires e.Advance? && e.w == w ==> L.At(l, w).Holds() || !L.At(L.Apply(reread, l, e), w).Owner?
    ensures L.Live(l, w)
  {}

  lemma BodyKeepsInv(cfg: Config, s: State, w: nat, x: Input)
    requires Separate(cfg) && Inv(cfg, s) && Enabled(cfg, s, Body(w, x))
    ensures Inv(cfg, BodyStep(cfg, s, w, x))
  {
    hide FilesInv, CycleInv, Step, ListingOk, Separate;
    StepKeeps(cfg, s.files, s.log, s.cycles[w], x);
    var t := BodyStep(cfg, s, w, x);
    forall v | Active(t, v) ensures v == w { assert L.Live(s.lock, v) && L.Live(s.lock, w); }
  }

  lemma AppendKeepsInv(cfg: Config, s: State, p: string, r: Record)
    requires Separate(cfg) && Inv(cfg, s) && AppendOk(cfg, s.files, ActiveCycles(s), p, r)
    ensures Inv(cfg, Apply(cfg, s, Append(p, r)))
  {
    hide FilesInv, CycleInv, Separate, SourcePath, RoundTrips, Below, Absorbed, Base, Frontier, Generation, Appended,
        L.Inv, L.Live;
    AppendKeepsFiles(cfg, s.files, s.log, p, r);
    forall w | Active(s, w) ensures CycleInv(cfg, Appended(s.files, p, r), s.log + {(p, r)}, s.cycles[w]) {
      assert s.cycles[w] in ActiveCycles(s);
      AppendKeepsCycle(cfg, s.files, s.log, s.cycles[w], p, r);
    }
  }

  lemma PlantKeepsInv(cfg: Config, s: State, p: string, b: Blob)
    requires Separate(cfg) && Inv(cfg, s) && PlantOk(cfg, s.files, ActiveCycles(s), p, b)
    ensures Inv(cfg, Apply(cfg, s, Plant(p, b)))
  {
    hide FilesInv, CycleInv, Separate, InSource, Base, Frontier, Generation, L.Inv, L.Live;
    PlantKeepsFiles(cfg, s.files, s.log, p, b);
    forall w | Active(s, w) ensures CycleInv(cfg, s.files[p := b], s.log, s.cycles[w]) {
      assert s.cycles[w] in ActiveCycles(s);
      PlantKeepsCycle(cfg, s.files, s.log, s.cycles[w], p, b);
    }
  }

  lemma RaiseKeepsInv(cfg: Config, s: State, w: nat)
    requires Inv(cfg, s) && Enabled(cfg, s, Raise(w))
    ensures Inv(cfg, Apply(cfg, s, Raise(w)))
  {
    hide FilesInv, InSource, Unchanged, Eligible, Base, Generation, Fold, Covered, Encode, L.Inv, L.Live;
    var c := s.cycles[w];
    var d := c.(pc := Raised);
    SameEnumeration(cfg, s.files, s.log, c, d);
    assert CycleInv(cfg, s.files, s.log, d);
  }

  lemma ApplyKeepsInv(cfg: Config, s: State, e: Event)
    requires Separate(cfg) && Inv(cfg, s) && Enabled(cfg, s, e)
    ensures Inv(cfg, Apply(cfg, s, e))
  {
    hide FilesInv, CycleInv, Separate, AppendOk, PlantOk, ListingOk, ActiveCycles;
    match e
    case Lock(l, consuming) => LockKeepsInv(cfg, s, l, consuming);
    case Body(w, x) => BodyKeepsInv(cfg, s, w, x);
    case Raise(w) => RaiseKeepsInv(cfg, s, w);
    case Crash(w) => CrashKeepsInv(cfg, s, w);
    case Append(p, r) => AppendKeepsInv(cfg, s, p, r);
    case Plant(p, b) => PlantKeepsInv(cfg, s, p, b);
  }

  lemma CrashKeepsInv(cfg: Config, s: State, w: nat)
    requires Inv(cfg, s)
    ensures Inv(cfg, Apply(cfg, s, Crash(w)))
  {
    hide FilesInv, CycleInv, L.Inv;
    L.ApplyKeepsInv(cfg.reread, s.lock, L.Crash(w));
    var t := Apply(cfg, s, Crash(w));
    forall v | Active(t, v) ensures Active(s, v) && t.cycles[v] == s.cycles[v] {}
  }

  lemma {:induction false} RunInv(cfg: Config, states: seq<State>, events: seq<Event>, i: nat)
    requires Separate(cfg) && Run(cfg, states, events) && i < |states|
    ensures Inv(cfg, states[i])
  {
    hide Inv, Init, Enabled, Apply, Separate;
    if i == 0 {
      InitInv(cfg, states[0]);
    } else {
      RunInv(cfg, states, events, i - 1);
      ApplyKeepsInv(cfg, states[i - 1], events[i - 1]);
    }
  }

  lemma ReachableInv(cfg: Config, s: State)
    requires Separate(cfg) && Reachable(cfg, s)
    ensures Inv(cfg, s)
  {
    var states, events :| Run(cfg, states, events) && states[|states| - 1] == s;
    RunInv(cfg, states, events, |states| - 1);
  }
}
