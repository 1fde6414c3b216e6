/** The lease protocol of `backends/claim.py` on one lease path, one backend primitive a step, for any
    number of workers, a clock and crashes. The compactor lock and every queue item's lease run it. */
module Lease {
  import opened Text

  /** A lease file. `expires` is `None` when the bytes carry no readable `expires_at`. */
  datatype Lease = Lease(worker: string, claimedAt: int, expires: Option<int>)

  /** `default_is_expired` and `_lease_expired`: strictly past the expiry; unreadable means not expired. */
  predicate Expired(lease: Lease, now: int) {
    lease.expires.Some? && now > lease.expires.value
  }

  /** Where a worker stands: each constructor is a point between two primitives of `acquire_lease`,
      or of the release in `compact_once`. */
  datatype Phase =
    | Idle
    | Trying(mine: Lease)                  // before create-if-absent
    | Blocked(mine: Lease)                 // it failed; before exists
    | Present(mine: Lease)                 // the file exists; before read
    | Seen(mine: Lease, seen: Lease)       // read; before the clock is consulted
    | Dead(mine: Lease, seen: Lease)       // judged expired; before the tag is taken
    | Tagged(mine: Lease, tag: Lease)      // before replace-if-match
    | Vanished(mine: Lease)                // the file was gone; before the second create-if-absent
    | Owner(mine: Lease)                   // acquired
    | Releasing(mine: Lease)               // read its own worker id back; before delete
  {
    predicate Holds() { Owner? || Releasing? }
  }

  /** The lease file, the common clock and the workers. Tags are content hashes, so the model lets the
      bytes stand for their own tag. */
  datatype State = State(file: Option<Lease>, now: int, workers: map<nat, Phase>)

  datatype Event =
    | Begin(w: nat, worker: string, ttl: int)
    | Advance(w: nat)
    | Drop(w: nat)
    | Crash(w: nat)
    | Tick(now: int)

  function At(s: State, w: nat): Phase {
    if w in s.workers then s.workers[w] else Idle
  }

  function Move(s: State, w: nat, p: Phase): State {
    s.(workers := s.workers[w := p])
  }

  function Take(s: State, w: nat, mine: Lease): State {
    Move(s.(file := Some(mine)), w, Owner(mine))
  }

  /** The tag `_backend_etag` hands to the CAS: that of the bytes in the store now when the backend has an
      `etag` method and the file is there, that of the bytes judged expired otherwise. */
  function TagFor(reread: bool, file: Option<Lease>, seen: Lease): Lease {
    if reread && file.Some? then file.value else seen
  }

  /** One primitive of one worker. `reread` says whether the backend has an `etag` method. */
  function Primitive(reread: bool, s: State, w: nat): State {
    match At(s, w)
    case Idle => s
    case Trying(mine) => if s.file.None? then Take(s, w, mine) else Move(s, w, Blocked(mine))
    case Blocked(mine) => Move(s, w, if s.file.None? then Vanished(mine) else Present(mine))
    case Present(mine) => Move(s, w, if s.file.None? then Vanished(mine) else Seen(mine, s.file.value))
    case Seen(mine, seen) => Move(s, w, if Expired(seen, s.now) then Dead(mine, seen) else Idle)
    case Dead(mine, seen) => Move(s, w, Tagged(mine, TagFor(reread, s.file, seen)))
    case Tagged(mine, tag) => if s.file == Some(tag) then Take(s, w, mine) else Move(s, w, Idle)
    case Vanished(mine) => if s.file.None? then Take(s, w, mine) else Move(s, w, Idle)
    case Owner(mine) => Move(s, w, if s.file.Some? && s.file.value.worker == mine.worker then Releasing(mine) else Idle)
    case Releasing(mine) => Move(s.(file := None), w, Idle)
  }

  function Apply(reread: bool, s: State, e: Event): State {
    match e
    case Begin(w, worker, ttl) => Move(s, w, Trying(Lease(worker, s.now, Some(s.now + ttl))))
    case Advance(w) => Primitive(reread, s, w)
    case Drop(w) => Move(s.(file := None), w, Idle)
    case Crash(w) => s.(workers := s.workers - {w})
    case Tick(now) => s.(now := now)
  }

  /** The worker owns the lease and its lease has not expired. */
  predicate Live(s: State, w: nat) {
    At(s, w).Holds() && !Expired(At(s, w).mine, s.now)
  }

  /** What a schedule may do next. Clocks do not run backwards, and a lease file is deleted by live owners only. */
  predicate Enabled(s: State, e: Event) {
    match e
    case Begin(w, _, _) => At(s, w).Idle?
    case Advance(w) => At(s, w).Releasing? ==> Live(s, w)
    case Drop(w) => Live(s, w)
    case Crash(_) => true
    case Tick(now) => s.now <= now
  }

  /** Where the tag is read again, what is read is a lease that has expired: nobody has reclaimed or renewed
      it since the bytes were judged. Nothing is asked where the tag is that of the judged bytes. */
  predicate Careful(reread: bool, s: State, e: Event) {
    reread && e.Advance? && At(s, e.w).Dead? && s.file.Some? ==> Expired(s.file.value, s.now)
  }

  ghost predicate Init(s: State) {
    forall w :: At(s, w).Idle?
  }

  /** A schedule: the states it passes through, one event between each two. */
  ghost predicate Run(reread: bool, states: seq<State>, events: seq<Event>) {
    && |states| == |events| + 1
    && Init(states[0])
    && forall i | 0 <= i < |events| :: Enabled(states[i], events[i]) && states[i + 1] == Apply(reread, states[i], events[i])
  }

  /** No two workers hold an unexpired lease, and a live owner's record is the one in the store. */
  ghost predicate Exclusive(s: State) {
    && (forall v, w | Live(s, v) && Live(s, w) :: v == w)
    && (forall w | Live(s, w) :: s.file == Some(At(s, w).mine))
  }

  /** Exclusion, and every worker about to reclaim carries the tag of a lease that has expired. */
  ghost predicate Inv(s: State) {
    && Exclusive(s)
    && (forall w | At(s, w).Dead? :: Expired(At(s, w).seen, s.now))
    && (forall w | At(s, w).Tagged? :: Expired(At(s, w).tag, s.now))
  }

  /** Nobody holds a live lease when the file is absent or carries an expired one. */
  lemma NobodyLive(s: State)
    requires Exclusive(s)
    requires s.file.None? || Expired(s.file.value, s.now)
    ensures forall w :: !Live(s, w)
  {}

  lemma PrimitiveKeepsInv(reread: bool, s: State, w: nat)
    requires Inv(s) && Enabled(s, Advance(w)) && Careful(reread, s, Advance(w))
    ensures Inv(Primitive(reread, s, w))
  {
    var t := Primitive(reread, s, w);
    forall v | v != w ensures At(t, v) == At(s, v) {}
    if s.file.None? || Expired(s.file.value, s.now) { NobodyLive(s); }
    assert forall v | v != w && Live(t, v) :: Live(s, v);
  }

  lemma ApplyKeepsInv(reread: bool, s: State, e: Event)
    requires Inv(s) && Enabled(s, e) && Careful(reread, s, e)
    ensures Inv(Apply(reread, s, e))
  {
    var t := Apply(reread, s, e);
    match e
    case Advance(w) => PrimitiveKeepsInv(reread, s, w);
    case Tick(_) =>
      assert forall v :: At(t, v) == At(s, v);
      assert forall v | Live(t, v) :: Live(s, v);
    case Crash(w) =>
      assert forall v :: At(t, v) == if v == w then Idle else At(s, v);
      assert forall v | Live(t, v) :: Live(s, v);
    case Begin(w, _, _) =>
      assert forall v | v != w :: At(t, v) == At(s, v);
      assert forall v | Live(t, v) :: Live(s, v);
    case Drop(w) =>
      assert forall v | v != w :: At(t, v) == At(s, v);
      assert forall v | Live(t, v) :: Live(s, v);
  }

  /** Lease exclusion, over every schedule: without condition when the CAS carries the tag of the bytes judged
      expired, and for backends that read the tag again as long as each such read finds an expired lease. */
  lemma {:induction false} LeaseExclusion(reread: bool, states: seq<State>, events: seq<Event>, i: nat)
    requires Run(reread, states, events) && i < |states|
    requires forall k | 0 <= k < |events| :: Careful(reread, states[k], events[k])
    ensures Inv(states[i])
  {
    if i > 0 {
      LeaseExclusion(reread, states, events, i - 1);
      ApplyKeepsInv(reread, states[i - 1], events[i - 1]);
    }
  }

  /** The condition cannot be weakened: the step that reads the tag again keeps the invariant if and only if
      it finds no file or an expired lease. */
  lemma RereadKeepsInvExactly(s: State, w: nat)
    requires Inv(s) && At(s, w).Dead?
    ensures Inv(Primitive(true, s, w)) <==> Careful(true, s, Advance(w))
  {
    var t := Primitive(true, s, w);
    assert At(t, w).Tagged?;
    if Careful(true, s, Advance(w)) { PrimitiveKeepsInv(true, s, w); }
  }

  /* ---- Backends with an `etag` method take the tag after the bytes were judged ---- */

  ghost predicate Reachable(reread: bool, s: State) {
    exists states, events :: Run(reread, states, events) && states[|states| - 1] == s
  }

  lemma Start(reread: bool, s: State)
    requires Init(s)
    ensures Reachable(reread, s)
  {
    assert Run(reread, [s], []);
  }

  lemma Extend(reread: bool, s: State, e: Event) returns (t: State)
    requires Reachable(reread, s) && Enabled(s, e)
    ensures t == Apply(reread, s, e) && Reachable(reread, t)
  {
    var states, events :| Run(reread, states, events) && states[|states| - 1] == s;
    t := Apply(reread, s, e);
    assert Run(reread, states + [t], events + [e]);
  }

  /** Reads up to judging: the lease a worker finds has expired. */
  lemma JudgeDead(reread: bool, s: State, w: nat, mine: Lease, dead: Lease) returns (t: State)
    requires Reachable(reread, s) && At(s, w) == Trying(mine)
    requires s.file == Some(dead) && Expired(dead, s.now)
    ensures Reachable(reread, t) && t == Move(s, w, Dead(mine, dead))
  {
    t := Extend(reread, s, Advance(w));
    t := Extend(reread, t, Advance(w));
    t := Extend(reread, t, Advance(w));
    t := Extend(reread, t, Advance(w));
  }

  /** With the tag re-read from the backend exclusion fails: two workers judge the same dead lease, one
      reclaims it, the other fetches the tag of the winner's fresh lease and evicts it. */
  lemma RereadTagBreaksExclusion()
    ensures exists s :: Reachable(true, s) && !Exclusive(s)
  {
    hide Reachable, Enabled, Apply;
    var dead, a, b := Lease("old", 0, Some(0)), Lease("a", 1, Some(101)), Lease("b", 1, Some(101));
    var s := TwoJudges(dead, a, b);
    s := Reclaim(true, s, 0, a, dead);
    s := Reclaim(true, s, 1, b, dead);
    BothLive(s, a, b);
  }

  /** Exactly when fetching the tag late is harmless: the re-read tag and the CAS that follows keep
      exclusion if and only if the lease then in the store has expired or its owner is no longer running. */
  lemma RereadSafeExactly(s: State, w: nat)
    requires Inv(s) && At(s, w).Dead? && s.file.Some?
    ensures
      var t := Primitive(true, Primitive(true, s, w), w);
      Exclusive(t) <==> Expired(s.file.value, s.now) || forall v | At(s, v).Holds() :: At(s, v).mine != s.file.value
  {
    var t := Primitive(true, Primitive(true, s, w), w);
    assert At(t, w) == Owner(At(s, w).mine) && t.file == Some(At(s, w).mine);
    assert forall v | v != w :: At(t, v) == At(s, v);
    assert forall v | v != w :: Live(t, v) <==> Live(s, v);
    if Exclusive(t) && !Expired(s.file.value, s.now) {
      forall v | At(s, v).Holds() ensures At(s, v).mine != s.file.value {
        assert At(s, v).mine == s.file.value ==> Live(t, v);
        assert At(s, w).mine == s.file.value ==> Live(t, w);
      }
    }
    if Expired(s.file.value, s.now) || forall v | At(s, v).Holds() :: At(s, v).mine != s.file.value {
      assert forall v :: !Live(s, v);
    }
  }

  /* ---- Deleting a lease one no longer owns ---- */

  /** A delete is safe exactly when no other worker is live: only then does the store still carry every
      live owner's record. A live owner's own delete always is. */
  lemma ReleaseSafeExactly(s: State, w: nat)
    requires Inv(s) && At(s, w).Releasing?
    ensures Exclusive(Primitive(false, s, w)) <==> forall v | v != w :: !Live(s, v)
    ensures Live(s, w) ==> Exclusive(Primitive(false, s, w))
  {
    var t := Primitive(false, s, w);
    assert forall v | v != w :: At(t, v) == At(s, v);
    assert forall v | v != w :: Live(t, v) <==> Live(s, v);
    assert !Live(t, w);
  }

  /** Two workers have judged the same dead lease expired. */
  lemma TwoJudges(dead: Lease, a: Lease, b: Lease) returns (s: State)
    requires dead == Lease("old", 0, Some(0)) && a == Lease("a", 1, Some(101)) && b == Lease("b", 1, Some(101))
    ensures Reachable(true, s) && s.file == Some(dead) && s.now == 1 && At(s, 0) == Dead(a, dead) && At(s, 1) == Dead(b, dead)
  {
    s := State(Some(dead), 1, map[]);
    Start(true, s);
    s := Extend(true, s, Begin(0, "a", 100));
    s := Extend(true, s, Begin(1, "b", 100));
    s := JudgeDead(true, s, 0, a, dead);
    s := JudgeDead(true, s, 1, b, dead);
  }

  lemma BothLive(s: State, a: Lease, b: Lease)
    requires At(s, 0) == Owner(a) && At(s, 1) == Owner(b) && !Expired(a, s.now) && !Expired(b, s.now)
    ensures !Exclusive(s)
  {
    assert Live(s, 0) && Live(s, 1);
  }

  /** The tag and the swap: they succeed on whatever is there if the tag is read again, and on the judged
      lease in any case. */
  lemma Reclaim(reread: bool, s: State, w: nat, mine: Lease, dead: Lease) returns (t: State)
    requires Reachable(reread, s) && At(s, w) == Dead(mine, dead)
    requires s.file.Some? && (reread || s.file == Some(dead))
    ensures Reachable(reread, t) && t == Take(s, w, mine)
  {
    t := Extend(reread, s, Advance(w));
    t := Extend(reread, t, Advance(w));
  }

  /** Such a late delete can come up: a worker reads its own id back, its lease runs out, another reclaims
      it, and only then does the first one delete. */
  lemma LateReleaseCanBreakExclusion()
    ensures exists s, w :: Reachable(false, s) && At(s, w).Releasing? && !Exclusive(Primitive(false, s, w))
  {
    var a, b := Lease("a", 0, Some(5)), Lease("b", 6, Some(106));
    var s := AboutToRelease(a);
    s := Extend(false, s, Tick(6));
    s := Extend(false, s, Begin(1, "b", 100));
    s := JudgeDead(false, s, 1, b, a);
    s := Reclaim(false, s, 1, b, a);
    assert At(s, 0) == Releasing(a) && Live(s, 1);
    assert Live(Primitive(false, s, 0), 1);
  }

  lemma AboutToRelease(a: Lease) returns (s: State)
    requires a == Lease("a", 0, Some(5))
    ensures Reachable(false, s) && s == State(Some(a), 0, map[0 := Releasing(a)])
  {
    s := State(None, 0, map[]);
    Start(false, s);
    s := Extend(false, s, Begin(0, "a", 5));
    s := Extend(false, s, Advance(0));
    s := Extend(false, s, Advance(0));
  }
}
