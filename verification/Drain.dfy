/** A worker that keeps calling `run_once`, alone and in time, empties the queue and then stops finding work. */
module Drain {
  import opened Text
  import opened Folding
  import opened Naming
  import opened Blobs
  import opened Claiming
  import opened Ledger
  import opened QueueEdge
  import opened Engine

  /** The pending items' files. */
  function Waiting(root: string, f: Files): set<string> {
    set p | p in f && root + MARKER <= p && EndsWith(p, ".json")
  }

  /** Both expiry checks of the call pass. */
  predicate Prompt(st: Station, at: Readings) {
    at.before <= at.claim + st.ttl && at.after <= at.claim + st.ttl
  }

  /** Every pending item is well formed and nobody else holds its lease. */
  ghost predicate Quiet(st: Station, f: Files, now: int) {
    forall id | PendingItem(st.root, id) in f :: f[PendingItem(st.root, id)].ItemBlob? && Free(f, LeasePath(st.root, id), now)
  }

  /** Outputs of items pending here that share an identity are the same record. */
  ghost predicate OutputsAgree(st: Station, f: Files) {
    forall i, j | PendsItem(st, f, i) && PendsItem(st, f, j) ::
      var x, y := st.transform(f[PendingItem(st.root, i)].item), st.transform(f[PendingItem(st.root, j)].item);
      x.Some? && y.Some? && x.value.id == y.value.id ==> x == y
  }

  predicate PendsItem(st: Station, f: Files, id: string) {
    PendingItem(st.root, id) in f && f[PendingItem(st.root, id)].ItemBlob?
  }

  /** The item's fate: its output is in the sink and its completed record carries it, or it has a failed record. */
  predicate Settled(st: Station, f: Files, id: string, item: Item) {
    match st.transform(item)
    case None => Failed(st, id) in f && f[Failed(st, id)].FailBlob? && f[Failed(st, id)].id == id
    case Some(out) =>
      && LogPath(st.sink, out.id) in f && f[LogPath(st.sink, out.id)] == RecordBlob(out)
      && Completed(st, id) in f && f[Completed(st, id)].DoneBlob?
      && f[Completed(st, id)].item == item && f[Completed(st, id)].result == out
  }

  /** The paths a call on this item may touch. */
  function Touched(st: Station, id: string, item: Item): set<string> {
    {PendingItem(st.root, id), LeasePath(st.root, id)} +
    match st.transform(item)
    case None => {Failed(st, id)}
    case Some(out) => {Completed(st, id), Failed(st, id), LogPath(st.sink, out.id)}
  }

  lemma ProcessedInTime(st: Station, f: Files, id: string, item: Item, at: Readings)
    requires Apart(st.root, st.sink) && Prompt(st, at)
    ensures
      var g := Processed(st, f, id, item, at);
      && PendingItem(st.root, id) !in g && LeasePath(st.root, id) !in g
      && (Completed(st, id) in g || Failed(st, id) in g) && (at.write.Written? ==> Settled(st, g, id, item))
      && forall p | p !in Touched(st, id, item) :: (p in g <==> p in f) && (p in f ==> g[p] == f[p])
  {
    hide LogPath, Apart;
    QueuePathsDistinct(st.root, id, id);
    if st.transform(item).Some? { SinkIsElsewhere(st, id, st.transform(item).value.id); }
  }

  /** Another id's item, lease and terminal files are not among those a call touches. */
  lemma OthersUntouched(st: Station, id: string, item: Item, other: string)
    requires Apart(st.root, st.sink) && other != id
    ensures PendingItem(st.root, other) !in Touched(st, id, item) && LeasePath(st.root, other) !in Touched(st, id, item)
    ensures Completed(st, other) !in Touched(st, id, item) && Failed(st, other) !in Touched(st, id, item)
  {
    hide LogPath, Apart;
    QueuePathsDistinct(st.root, other, id);
    QueuePathsDistinct(st.root, id, other);
    QueuePathsInjective(st.root, "completed", id, other);
    QueuePathsInjective(st.root, "failed", id, other);
    if st.transform(item).Some? { SinkIsElsewhere(st, other, st.transform(item).value.id); }
  }

  lemma WaitingIsPending(root: string, f: Files, id: string)
    ensures PendingItem(root, id) in f <==> PendingItem(root, id) in Waiting(root, f)
  {
    hide EndsWith, OccursAt, Basename, PendingItem, Under;
    PendingItemParts(root, id);
    PendingItemPlace(root, id);
  }

  /** Each call moves exactly one id out of the pending files. */
  lemma WaitingShrinks(st: Station, f: Files, id: string, item: Item, at: Readings)
    requires Apart(st.root, st.sink) && Prompt(st, at) && PendingItem(st.root, id) in f
    ensures Waiting(st.root, Processed(st, f, id, item, at)) == Waiting(st.root, f) - {PendingItem(st.root, id)}
  {
    hide Processed, Touched, PendingItem, Apart, Prompt, EndsWith, Settled;
    ProcessedInTime(st, f, id, item, at);
    var g := Processed(st, f, id, item, at);
    forall p | st.root + MARKER <= p && EndsWith(p, ".json") && p != PendingItem(st.root, id) ensures p in g <==> p in f {
      CandidateHasId(st.root, p);
      var other :| p == PendingItem(st.root, other);
      OthersUntouched(st, id, item, other);
    }
  }


  lemma QuietKept(st: Station, f: Files, id: string, item: Item, at: Readings, now: int)
    requires Apart(st.root, st.sink) && Prompt(st, at) && Quiet(st, f, at.claim) && at.claim <= now
    ensures Quiet(st, Processed(st, f, id, item, at), now)
  {
    hide Processed, Touched, Apart, Prompt, Settled, PendingItem, LeasePath;
    ProcessedInTime(st, f, id, item, at);
    var g := Processed(st, f, id, item, at);
    forall other | PendingItem(st.root, other) in g ensures g[PendingItem(st.root, other)].ItemBlob? &&
        Free(g, LeasePath(st.root, other), now) {
      OthersUntouched(st, id, item, other);
    }
  }

  lemma WaitingIsClaimable(st: Station, f: Files, now: int)
    requires Quiet(st, f, now) && Waiting(st.root, f) != {}
    ensures exists id :: Claimable(st.root, f, id, now)
  {
    hide EndsWith, Free, PendingItem, LeasePath, Waiting;
    var p :| p in Waiting(st.root, f);
    WaitingParts(st.root, f, p);
    var id :| p == PendingItem(st.root, id);
    assert Claimable(st.root, f, id, now);
  }

  lemma QuietNeverRaises(st: Station, f: Files, g: Files, at: Readings)
    requires Quiet(st, f, at.claim)
    ensures !Ran(st, f, g, at, Outcome.Raised)
  {
    hide PendingItem, LeasePath, Free;
  }

  /** A call works exactly when something is pending. */
  lemma WorksExactly(st: Station, f: Files, g: Files, at: Readings, outcome: Outcome)
    requires Quiet(st, f, at.claim) && Ran(st, f, g, at, outcome)
    ensures outcome == if Waiting(st.root, f) == {} then Idle else Worked
  {
    hide WorkedOn, RaisedOn, Claimable, Waiting, Quiet;
    QuietNeverRaises(st, f, g, at);
    if Waiting(st.root, f) != {} { WaitingIsClaimable(st, f, at.claim); }
    if outcome == Worked {
      var id, item :| WorkedOn(st, f, g, at, id, item);
      WorkedParts(st, f, g, at, id, item);
      WaitingIsPending(st.root, f, id);
    }
  }

  lemma WaitingParts(root: string, f: Files, p: string)
    requires p in Waiting(root, f)
    ensures p in f && exists id :: p == PendingItem(root, id)
  {
    CandidateHasId(root, p);
  }

  lemma WorkedParts(st: Station, f: Files, g: Files, at: Readings, id: string, item: Item)
    requires WorkedOn(st, f, g, at, id, item)
    ensures PendingItem(st.root, id) in f && f[PendingItem(st.root, id)] == ItemBlob(item) && g == Processed(st, f, id, item, at)
  {}

  predicate SameFile(f: Files, g: Files, p: string) {
    (p in g <==> p in f) && (p in f ==> g[p] == f[p])
  }

  /** The id has left the pending items for a terminal folder, its lease is gone, and no other id's item,
      lease or terminal file has changed. */
  ghost predicate MovedOnly(st: Station, f: Files, g: Files, id: string) {
    && PendingItem(st.root, id) in f && PendingItem(st.root, id) !in g && LeasePath(st.root, id) !in g
    && (Completed(st, id) in g || Failed(st, id) in g)
    && forall other | other != id ::
         && SameFile(f, g, PendingItem(st.root, other)) && SameFile(f, g, LeasePath(st.root, other))
         && SameFile(f, g, Completed(st, other)) && SameFile(f, g, Failed(st, other))
  }

  /** While something is pending, a call in time moves exactly one id and leaves the rest untouched. */
  lemma CallMovesOne(st: Station, f: Files, g: Files, at: Readings, outcome: Outcome)
    requires Apart(st.root, st.sink) && Prompt(st, at) && Quiet(st, f, at.claim) && Ran(st, f, g, at, outcome)
    requires Waiting(st.root, f) != {}
    ensures outcome == Worked && exists id :: MovedOnly(st, f, g, id)
  {
    hide Apart, Prompt, Quiet, Waiting, WorkedOn, RaisedOn, Claimable, Processed, Touched, PendingItem, LeasePath,
        Completed, Failed, Settled;
    WorksExactly(st, f, g, at, outcome);
    var id, item :| WorkedOn(st, f, g, at, id, item);
    WorkedParts(st, f, g, at, id, item);
    ProcessedInTime(st, f, id, item, at);
    forall other | other != id
      ensures SameFile(f, g, PendingItem(st.root, other)) && SameFile(f, g, LeasePath(st.root, other))
      ensures SameFile(f, g, Completed(st, other)) && SameFile(f, g, Failed(st, other))
    {
      OthersUntouched(st, id, item, other);
    }
    assert MovedOnly(st, f, g, id);
  }

  /** A series of calls, each in time, the clock never going back. */
  ghost predicate Calls(st: Station, trace: seq<Files>, ats: seq<Readings>, outcomes: seq<Outcome>) {
    && |trace| == |ats| + 1 == |outcomes| + 1
    && (forall i | 0 <= i < |ats| :: Prompt(st, ats[i]) && Ran(st, trace[i], trace[i + 1], ats[i], outcomes[i]))
    && forall i | 0 <= i < |ats| - 1 :: ats[i].claim <= ats[i + 1].claim
  }

  function Remaining(n: nat, i: nat): nat {
    if i < n then n - i else 0
  }

  lemma CallStep(st: Station, f: Files, g: Files, at: Readings, outcome: Outcome, now: int)
    requires Apart(st.root, st.sink) && Prompt(st, at) && Quiet(st, f, at.claim) && at.claim <= now && Ran(st, f, g, at, outcome)
    ensures Quiet(st, g, now)
    ensures outcome == if Waiting(st.root, f) == {} then Idle else Worked
    ensures |Waiting(st.root, g)| == Remaining(|Waiting(st.root, f)|, 1)
  {
    hide Apart, Prompt, Quiet, Waiting, WorkedOn, Claimable, Processed;
    WorksExactly(st, f, g, at, outcome);
    if outcome == Worked {
      var id, item :| WorkedOn(st, f, g, at, id, item);
      WorkedParts(st, f, g, at, id, item);
      WaitingShrinks(st, f, id, item, at);
      WaitingIsPending(st.root, f, id);
      QuietKept(st, f, id, item, at, now);
    } else {
      QuietLater(st, f, at.claim, now);
    }
  }

  lemma QuietLater(st: Station, f: Files, now: int, later: int)
    requires Quiet(st, f, now) && now <= later
    ensures Quiet(st, f, later)
  {}

  /** Drain: with `n` items pending, well formed and unheld, the first `n` calls work, each settling one,
      and every later one finds nothing. */
  lemma {:induction false} DrainTerminates(st: Station, trace: seq<Files>, ats: seq<Readings>, outcomes: seq<Outcome>, i: nat)
    requires Apart(st.root, st.sink) && Calls(st, trace, ats, outcomes) && i < |ats|
    requires Quiet(st, trace[0], ats[0].claim)
    ensures Quiet(st, trace[i], ats[i].claim)
    ensures |Waiting(st.root, trace[i])| == Remaining(|Waiting(st.root, trace[0])|, i)
    ensures outcomes[i] == if i < |Waiting(st.root, trace[0])| then Worked else Idle
  {
    hide Apart, Prompt, Quiet, Waiting, Ran;
    if i > 0 {
      DrainTerminates(st, trace, ats, outcomes, i - 1);
      CallStep(st, trace[i - 1], trace[i], ats[i - 1], outcomes[i - 1], ats[i].claim);
    }
    CallStep(st, trace[i], trace[i + 1], ats[i], outcomes[i], ats[i].claim);
    if |Waiting(st.root, trace[i])| == 0 { assert Waiting(st.root, trace[i]) == {}; }
  }

  /* ---- What becomes of each item ---- */

  lemma AgreesSymmetric(st: Station, f: Files, i: string, j: string, x: Record, y: Record)
    requires OutputsAgree(st, f) && PendsItem(st, f, i) && PendsItem(st, f, j)
    requires st.transform(f[PendingItem(st.root, i)].item) == Some(x) && st.transform(f[PendingItem(st.root, j)].item) == Some(y)
    requires LogPath(st.sink, x.id) == LogPath(st.sink, y.id)
    ensures x == y
  {
    Between(st.sink + "/", x.id, y.id, ".json");
  }

  /** Still to do as at the start, or done. */
  ghost predicate Progress(st: Station, start: Files, f: Files, id: string) {
    PendsItem(st, start, id) ==>
      var p := PendingItem(st.root, id);
      (p in f && f[p] == start[p]) || Settled(st, f, id, start[p].item)
  }

  lemma SettledStays(st: Station, start: Files, f: Files, id: string, done: string, at: Readings)
    requires Apart(st.root, st.sink) && Prompt(st, at) && at.write.Written? && OutputsAgree(st, start)
    requires PendsItem(st, start, id) && PendsItem(st, start, done) && id != done
    requires Settled(st, f, done, start[PendingItem(st.root, done)].item)
    ensures Settled(st, Processed(st, f, id, start[PendingItem(st.root, id)].item, at), done,
        start[PendingItem(st.root, done)].item)
  {
    hide Processed, Apart, Prompt, OutputsAgree, PendingItem, LeasePath, LogPath, Completed, Failed;
    var item, other := start[PendingItem(st.root, id)].item, start[PendingItem(st.root, done)].item;
    ProcessedInTime(st, f, id, item, at);
    OthersUntouched(st, id, item, done);
    var x, y := st.transform(item), st.transform(other);
    if y.Some? {
      SinkIsElsewhere(st, id, y.value.id);
      if x.Some? && LogPath(st.sink, x.value.id) == LogPath(st.sink, y.value.id) {
        AgreesSymmetric(st, start, id, done, x.value, y.value);
      }
    }
  }

  lemma ProgressKept(st: Station, start: Files, f: Files, id: string, at: Readings, done: string)
    requires Apart(st.root, st.sink) && Prompt(st, at) && at.write.Written? && OutputsAgree(st, start)
    requires PendsItem(st, start, id) && PendingItem(st.root, id) in f &&
        f[PendingItem(st.root, id)] == start[PendingItem(st.root, id)]
    requires Progress(st, start, f, done)
    ensures Progress(st, start, Processed(st, f, id, start[PendingItem(st.root, id)].item, at), done)
  {
    hide Processed, Apart, Prompt, OutputsAgree, PendingItem, LeasePath, LogPath, Completed, Failed, Settled, Touched;
    var item := start[PendingItem(st.root, id)].item;
    ProcessedInTime(st, f, id, item, at);
    if id != done && PendsItem(st, start, done) {
      OthersUntouched(st, id, item, done);
      if Settled(st, f, done, start[PendingItem(st.root, done)].item) { SettledStays(st, start, f, id, done, at); }
    }
  }

  /** Nothing becomes pending that was not, and what is pending is as it was. */
  ghost predicate OnlyShrinks(st: Station, start: Files, f: Files) {
    forall id | PendingItem(st.root, id) in f :: PendingItem(st.root, id) in start &&
        f[PendingItem(st.root, id)] == start[PendingItem(st.root, id)]
  }

  lemma OnlyShrinksKept(st: Station, start: Files, f: Files, id: string, item: Item, at: Readings)
    requires Apart(st.root, st.sink) && Prompt(st, at) && OnlyShrinks(st, start, f)
    ensures OnlyShrinks(st, start, Processed(st, f, id, item, at))
  {
    hide Processed, Apart, Prompt, PendingItem, LeasePath, Settled, Touched;
    ProcessedInTime(st, f, id, item, at);
    forall other | other != id ensures PendingItem(st.root, other) !in Touched(st, id, item) { OthersUntouched(st,
        id, item, other); }
  }

  lemma CallKeepsProgress(st: Station, start: Files, f: Files, g: Files, at: Readings, outcome: Outcome)
    requires Apart(st.root, st.sink) && Prompt(st, at) && at.write.Written? && OutputsAgree(st, start) && Quiet(st, f, at.claim)
    requires Ran(st, f, g, at, outcome) && OnlyShrinks(st, start, f) && forall id :: Progress(st, start, f, id)
    ensures OnlyShrinks(st, start, g) && forall id :: Progress(st, start, g, id)
  {
    hide Apart, Prompt, OutputsAgree, Quiet, Progress, WorkedOn, RaisedOn, Processed, PendingItem, Claimable;
    QuietNeverRaises(st, f, g, at);
    if outcome == Worked {
      var id, item :| WorkedOn(st, f, g, at, id, item);
      WorkedParts(st, f, g, at, id, item);
      OnlyShrinksKept(st, start, f, id, item, at);
      forall done ensures Progress(st, start, g, done) { ProgressKept(st, start, f, id, at, done); }
    }
  }

  lemma {:induction false} DrainProgress(st: Station, trace: seq<Files>, ats: seq<Readings>, outcomes: seq<Outcome>, i: nat)
    requires Apart(st.root, st.sink) && Calls(st, trace, ats, outcomes) && i < |ats|
    requires Quiet(st, trace[0], ats[0].claim) && OutputsAgree(st, trace[0])
    requires forall k | 0 <= k < |ats| :: ats[k].write.Written?
    ensures OnlyShrinks(st, trace[0], trace[i]) && forall id :: Progress(st, trace[0], trace[i], id)
  {
    hide Apart, Prompt, Quiet, Ran, OutputsAgree, Settled;
    if i > 0 {
      DrainProgress(st, trace, ats, outcomes, i - 1);
      DrainTerminates(st, trace, ats, outcomes, i - 1);
      CallKeepsProgress(st, trace[0], trace[i - 1], trace[i], ats[i - 1], outcomes[i - 1]);
    }
  }

  /** By the first call that finds nothing, every item has met its fate: the sink holds the transform of
      each, and its completed record says so, unless the transform raised, and then it has a failed record.
      A sink that raises turns the item at hand into a failed one. */
  lemma DrainSettlesAll(st: Station, trace: seq<Files>, ats: seq<Readings>, outcomes: seq<Outcome>, i: nat, id: string)
    requires Apart(st.root, st.sink) && Calls(st, trace, ats, outcomes) && |Waiting(st.root, trace[0])| <= i < |ats|
    requires Quiet(st, trace[0], ats[0].claim) && OutputsAgree(st, trace[0])
    requires forall k | 0 <= k < |ats| :: ats[k].write.Written?
    requires PendsItem(st, trace[0], id)
    ensures Waiting(st.root, trace[i]) == {}
    ensures Settled(st, trace[i], id, trace[0][PendingItem(st.root, id)].item)
  {
    hide Apart, Calls, Quiet, OutputsAgree, Settled, Waiting;
    CallsLength(st, trace, ats, outcomes);
    DrainTerminates(st, trace, ats, outcomes, i);
    DrainProgress(st, trace, ats, outcomes, i);
    assert Progress(st, trace[0], trace[i], id);
    WaitingIsPending(st.root, trace[i], id);
  }

  lemma CallsLength(st: Station, trace: seq<Files>, ats: seq<Readings>, outcomes: seq<Outcome>)
    requires Calls(st, trace, ats, outcomes)
    ensures |trace| == |ats| + 1 == |outcomes| + 1
  {
    hide Prompt, Ran;
  }
}
