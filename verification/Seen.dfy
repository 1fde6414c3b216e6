/** What a call of `hybrid_read` returns, in terms of the schedule alone: the generation at the moment it looked at
    CURRENT, and what the source files held at the moments it opened them. */
module Seen {
  import opened Text
  import opened Folding
  import opened Codec
  import opened Naming
  import opened Blobs
  import opened CompactCycle
  import opened Ledger
  import opened Compaction
  import opened Guarantees
  import opened Reading
  import L = Lease

  /** The call itself moves at `t`, from this point. */
  predicate Acts(trace: seq<(State, Reader)>, moves: seq<Move>, t: nat) {
    t < |moves| && t < |trace| && moves[t].Primitive?
  }

  /** At `t` the call opens a source file that holds the record. */
  ghost predicate Opens(trace: seq<(State, Reader)>, moves: seq<Move>, t: nat, b: Record) {
    && Acts(trace, moves, t) && trace[t].1.at.Open?
    && IsRecord(trace[t].0.files, trace[t].1.at.path) && trace[t].0.files[trace[t].1.at.path].rec == b
  }

  lemma {:induction false} FoundUpTo(cfg: Config, trace: seq<(State, Reader)>, moves: seq<Move>, i: nat, b: Record)
    requires Call(cfg, trace, moves) && i < |trace|
    ensures b in trace[i].1.found <==> exists t: nat :: t < i && Opens(trace, moves, t, b)
  {
    hide Reachable, Enabled, Compaction.Apply, WalkOk, ReadStep;
    if i > 0 {
      FoundUpTo(cfg, trace, moves, i - 1, b);
      assert Moves(cfg, trace[i - 1].0, trace[i - 1].1, moves[i - 1], trace[i - 1 + 1].0, trace[i - 1 + 1].1);
      if moves[i - 1].Primitive? { StepFinds(cfg, trace[i - 1].0.files, trace[i - 1].1, moves[i - 1].next, b); }
      if Opens(trace, moves, i - 1, b) {
        assert i - 1 < i;
      } else if t: nat :| t < i && Opens(trace, moves, t, b) {
        assert t < i - 1;
      }
    }
  }

  lemma StepFinds(cfg: Config, f: Files, rd: Reader, next: Option<string>, b: Record)
    requires InRange(cfg, rd)
    ensures b in ReadStep(cfg, f, rd, next).found <==>
              b in rd.found || (rd.at.Open? && IsRecord(f, rd.at.path) && f[rd.at.path].rec == b)
  {
    hide Current, Decode, PastWatermark, Ordinary;
  }

  /* ---- Checkpoints do not change ---- */

  /** The files of a generation that has been committed are as they were, or gone. */
  lemma StepKeepsCheckpoint(cfg: Config, s: State, e: Event, g: nat)
    requires Separate(cfg) && Inv(cfg, s) && Enabled(cfg, s, e) && g <= Generation(cfg, s.files)
    ensures
      var t, path := Apply(cfg, s, e).files, Checkpoint(cfg, g);
      path in t ==> path in s.files && t[path] == s.files[path]
  {
    hide FilesInv, CycleInv, Separate, Step, ListingOk, AppendOk, PlantOk, L.Inv, L.Live, L.Enabled, L.Careful,
        L.Apply, Checkpoint, Generation;
    match e
    case Body(w, x) => BodyKeepsCheckpoint(cfg, s.files, s.log, s.cycles[w], x, g);
    case Append(p, q) => AppendElsewhere(cfg, s.files, ActiveCycles(s), p, q, g);
    case Plant(p, b) => PlantElsewhere(cfg, s.files, ActiveCycles(s), p, b, g);
    case _ =>
  }

  lemma AppendElsewhere(cfg: Config, f: Files, active: set<Cycle>, p: string, r: Record, g: nat)
    requires Separate(cfg) && AppendOk(cfg, f, active, p, r)
    ensures p != Checkpoint(cfg, g)
  {
    hide Separate, InSource, RoundTrips, Below, Absorbed, Frontier, Base, Checkpoint;
    SourceIsNotIndexFile(cfg, p, g);
  }

  lemma PlantElsewhere(cfg: Config, f: Files, active: set<Cycle>, p: string, b: Blob, g: nat)
    requires Separate(cfg) && PlantOk(cfg, f, active, p, b)
    ensures p != Checkpoint(cfg, g)
  {
    hide Separate, InSource, Checkpoint;
    SourceIsNotIndexFile(cfg, p, g);
  }

  lemma BodyKeepsCheckpoint(cfg: Config, f: Files, log: Log, c: Cycle, x: Input, g: nat)
    requires Separate(cfg) && CycleInv(cfg, f, log, c) && g <= Generation(cfg, f)
    ensures
      var t, path := Step(cfg, f, c, x).0, Checkpoint(cfg, g);
      path in t ==> path in f && t[path] == f[path]
  {
    hide *;
    CycleParts(cfg, f, log, c);
    PointsParts(cfg, f, c);
    if Reads(c) {
      ReadsTouchNothing(cfg, f, c, x);
    } else if c.pc.WriteBody? {
      WriteStep(cfg, f, c, x);
      IndexPathsOf(cfg, c.generation + 1, g);
    } else if c.pc.Swap? || c.pc.Create? {
      CommitStep(cfg, f, c, x);
      CommitWrites(cfg, f, c, x.now);
      CurrentIsNoCheckpoint(cfg, g);
    } else if c.pc.DeleteSource? {
      DeletePlace(cfg, f, c, x);
    } else {
      CollectStep(cfg, f, c, x);
    }
  }

  /* ---- The base ---- */

  /** The checkpoint of generation `g` reads back as `b`, if it is there. */
  ghost predicate Kept(cfg: Config, f: Files, g: nat, b: seq<Record>) {
    Checkpoint(cfg, g) in f ==> f[Checkpoint(cfg, g)].Bytes? && Decode(cfg.codec, f[Checkpoint(cfg, g)].bytes) == Some(b)
  }

  /** At `h` the call reads CURRENT. */
  ghost predicate Looks(cfg: Config, trace: seq<(State, Reader)>, moves: seq<Move>, h: nat) {
    Acts(trace, moves, h) && trace[h].1.at.ReadHead? && Current(cfg) in trace[h].0.files
  }

  /** At `k` it looks for the checkpoint. */
  predicate Seeks(trace: seq<(State, Reader)>, moves: seq<Move>, k: nat) {
    Acts(trace, moves, k) && trace[k].1.at.SeekBody?
  }

  /** What there was to be read: nothing where there was no CURRENT when the call asked, or where the checkpoint had
      gone when it looked for it; otherwise the generation that was committed when it read CURRENT. */
  ghost predicate BaseSeen(cfg: Config, trace: seq<(State, Reader)>, moves: seq<Move>, base: seq<Record>) {
    || (base == [] && exists h: nat :: Acts(trace, moves, h) && trace[h].1.at.SeekHead? && Current(cfg) !in trace[h].0.files)
    || exists h: nat, k: nat :: h < k && SeenBetween(cfg, trace, moves, h, k, base)
  }

  ghost predicate SeenBetween(cfg: Config, trace: seq<(State, Reader)>, moves: seq<Move>, h: nat, k: nat, base: seq<Record>) {
    && Looks(cfg, trace, moves, h) && Seeks(trace, moves, k)
    && base == if Checkpoint(cfg, Generation(cfg, trace[h].0.files)) in trace[k].0.files then Base(cfg, trace[h].0.files) else []
  }

  /** Between the look at CURRENT and the end of `read_current`. */
  ghost predicate Looked(cfg: Config, trace: seq<(State, Reader)>, moves: seq<Move>, i: nat, h: nat)
    requires i < |trace|
  {
    && h < i && Looks(cfg, trace, moves, h)
    && trace[i].1.name == CheckpointName(Generation(cfg, trace[h].0.files))
    && Generation(cfg, trace[h].0.files) <= Generation(cfg, trace[i].0.files)
    && Kept(cfg, trace[i].0.files, Generation(cfg, trace[h].0.files), Base(cfg, trace[h].0.files))
  }

  ghost predicate BaseSoFar(cfg: Config, trace: seq<(State, Reader)>, moves: seq<Move>, i: nat)
    requires i < |trace|
  {
    match trace[i].1.at
    case SeekHead => trace[i].1.base == []
    case ReadHead => trace[i].1.base == []
    case SeekBody => trace[i].1.base == [] && exists h: nat :: Looked(cfg, trace, moves, i, h)
    case ReadBody =>
      exists h: nat, k: nat :: Looked(cfg, trace, moves, i, h) && h < k &&
          SeenBetween(cfg, trace, moves, h, k, Base(cfg, trace[h].0.files))
    case Failed => true
    case _ => BaseSeen(cfg, trace, moves, trace[i].1.base)
  }

  lemma {:induction false} BaseUpTo(cfg: Config, trace: seq<(State, Reader)>, moves: seq<Move>, i: nat)
    requires Separate(cfg) && Call(cfg, trace, moves) && i < |trace|
    ensures BaseSoFar(cfg, trace, moves, i)
  {
    hide Separate, Reachable, Enabled, Compaction.Apply, WalkOk, ReadStep, BaseSoFar, Compaction.Inv;
    if i == 0 {
      StartsEmpty(cfg, trace, moves);
    } else {
      BaseUpTo(cfg, trace, moves, i - 1);
      CallInv(cfg, trace, moves, i - 1);
      assert Moves(cfg, trace[i - 1].0, trace[i - 1].1, moves[i - 1], trace[i - 1 + 1].0, trace[i - 1 + 1].1);
      if moves[i - 1].World? {
        CallGenerations(cfg, trace, moves, i - 1, i);
        WorldKeepsBase(cfg, trace, moves, i);
      } else {
        InvParts(cfg, trace[i - 1].0);
        FilesInvParts(cfg, trace[i - 1].0.files, trace[i - 1].0.log);
        PrimitiveKeepsBase(cfg, trace, moves, i);
      }
    }
  }

  lemma StartsEmpty(cfg: Config, trace: seq<(State, Reader)>, moves: seq<Move>)
    requires trace != [] && trace[0].1 == START
    ensures BaseSoFar(cfg, trace, moves, 0)
  {}

  lemma WorldKeepsBase(cfg: Config, trace: seq<(State, Reader)>, moves: seq<Move>, i: nat)
    requires Separate(cfg) && 0 < i < |trace| && i <= |moves| && moves[i - 1].World? && BaseSoFar(cfg, trace, moves, i - 1)
    requires Compaction.Inv(cfg, trace[i - 1].0) && Enabled(cfg, trace[i - 1].0, moves[i - 1].e)
    requires trace[i].0 == Compaction.Apply(cfg, trace[i - 1].0, moves[i - 1].e)
    requires trace[i].1 == trace[i - 1].1.(steady := trace[i].1.steady)
    requires Generation(cfg, trace[i - 1].0.files) <= Generation(cfg, trace[i].0.files)
    ensures BaseSoFar(cfg, trace, moves, i)
  {
    hide Separate, Enabled, Compaction.Apply, Compaction.Inv, Looked, SeenBetween, BaseSeen, Generation;
    match trace[i - 1].1.at
    case SeekBody =>
      var h: nat :| Looked(cfg, trace, moves, i - 1, h);
      LookedStays(cfg, trace, moves, i, h);
    case ReadBody =>
      var h, k := BothMoments(cfg, trace, moves, i - 1);
      LookedStays(cfg, trace, moves, i, h);
      LookedName(cfg, trace, moves, i, h);
      assert h < |trace| && h < k;
    case _ =>
  }

  lemma BothMoments(cfg: Config, trace: seq<(State, Reader)>, moves: seq<Move>, i: nat) returns (h: nat, k: nat)
    requires i < |trace| && trace[i].1.at.ReadBody? && BaseSoFar(cfg, trace, moves, i)
    ensures h < i && h < k && Looked(cfg, trace, moves, i, h) && SeenBetween(cfg, trace, moves, h, k, Base(cfg, trace[h].0.files))
  {
    hide SeenBetween, Looks, Kept, Generation, CheckpointName;
    h, k :| Looked(cfg, trace, moves, i, h) && h < k && h < |trace| && SeenBetween(cfg, trace, moves, h, k, Base(cfg,
        trace[h].0.files));
  }

  lemma LookedStays(cfg: Config, trace: seq<(State, Reader)>, moves: seq<Move>, i: nat, h: nat)
    requires Separate(cfg) && 0 < i < |trace| && i <= |moves| && Looked(cfg, trace, moves, i - 1, h)
    requires Compaction.Inv(cfg, trace[i - 1].0) && moves[i - 1].World? && Enabled(cfg, trace[i - 1].0, moves[i - 1].e)
    requires trace[i].0 == Compaction.Apply(cfg, trace[i - 1].0, moves[i - 1].e) && trace[i].1.name == trace[i - 1].1.name
    requires Generation(cfg, trace[i - 1].0.files) <= Generation(cfg, trace[i].0.files)
    ensures Looked(cfg, trace, moves, i, h)
  {
    hide Separate, Enabled, Compaction.Apply, Compaction.Inv, Generation, Checkpoint, CheckpointName, Decode, Base, Looks;
    StepKeepsCheckpoint(cfg, trace[i - 1].0, moves[i - 1].e, Generation(cfg, trace[h].0.files));
  }

  lemma PrimitiveKeepsBase(cfg: Config, trace: seq<(State, Reader)>, moves: seq<Move>, i: nat)
    requires 0 < i < |trace| && i <= |moves| && moves[i - 1].Primitive? && BaseSoFar(cfg, trace, moves, i - 1)
    requires InRange(cfg, trace[i - 1].1) && trace[i].0 == trace[i - 1].0 && CommitIntact(cfg, trace[i - 1].0.files)
    requires trace[i].1 == ReadStep(cfg, trace[i - 1].0.files, trace[i - 1].1, moves[i - 1].next)
    ensures BaseSoFar(cfg, trace, moves, i)
  {
    hide ReadStep, Looked, SeenBetween, BaseSeen, CommitIntact;
    var f, rd, next := trace[i - 1].0.files, trace[i - 1].1, moves[i - 1].next;
    match rd.at
    case SeekHead =>
      HeadStep(cfg, f, rd, next);
      if Current(cfg) !in f { assert BaseSeen(cfg, trace, moves, []) by { NothingSeen(cfg, trace, moves, i - 1); } }
    case ReadHead =>
      NameStep(cfg, f, rd, next);
      if trace[i].1.at.SeekBody? { LooksNow(cfg, trace, moves, i); }
    case SeekBody =>
      var h: nat :| Looked(cfg, trace, moves, i - 1, h);
      SeekStep(cfg, f, rd, next, Generation(cfg, trace[h].0.files)) by { LookedName(cfg, trace, moves, i - 1, h); }
      SeesNow(cfg, trace, moves, i, h);
    case ReadBody =>
      var h, k := BothMoments(cfg, trace, moves, i - 1);
      LookedName(cfg, trace, moves, i - 1, h);
      BodyStep(cfg, f, rd, next, Generation(cfg, trace[h].0.files), Base(cfg, trace[h].0.files));
      SeenFrom(cfg, trace, moves, h, k, Base(cfg, trace[h].0.files));
    case _ => LaterStep(cfg, f, rd, next);
  }

  lemma HeadStep(cfg: Config, f: Files, rd: Reader, next: Option<string>)
    requires rd.at.SeekHead? && InRange(cfg, rd)
    ensures
      var u := ReadStep(cfg, f, rd, next);
      u.base == rd.base && if Current(cfg) in f then u.at.ReadHead? else u.at.SeekMark? || u.at.Done?
  {
    hide Current;
  }

  lemma NothingSeen(cfg: Config, trace: seq<(State, Reader)>, moves: seq<Move>, h: nat)
    requires Acts(trace, moves, h) && trace[h].1.at.SeekHead? && Current(cfg) !in trace[h].0.files
    ensures BaseSeen(cfg, trace, moves, [])
  {}

  lemma NameStep(cfg: Config, f: Files, rd: Reader, next: Option<string>)
    requires rd.at.ReadHead? && InRange(cfg, rd) && CommitIntact(cfg, f)
    ensures
      var u := ReadStep(cfg, f, rd, next);
      && u.base == rd.base && (u.at.Failed? || u.at.SeekBody?)
      && (u.at.SeekBody? ==> Current(cfg) in f && u.name == CheckpointName(Generation(cfg, f)))
  {
    hide Current, Encode, Decode, CheckpointName, ReadCurrent, Base, Checkpoint;
  }

  /** The committed checkpoint reads back as the base. */
  lemma IntactIsKept(cfg: Config, f: Files)
    requires CommitIntact(cfg, f) && Current(cfg) in f
    ensures Kept(cfg, f, Generation(cfg, f), Base(cfg, f))
  {
    hide Current, Encode, Decode, CheckpointName;
  }

  lemma LooksNow(cfg: Config, trace: seq<(State, Reader)>, moves: seq<Move>, i: nat)
    requires 0 < i < |trace| && Acts(trace, moves, i - 1) && trace[i - 1].1.at.ReadHead? && trace[i].0 == trace[i - 1].0
    requires CommitIntact(cfg, trace[i].0.files) && Current(cfg) in trace[i].0.files
    requires trace[i].1.name == CheckpointName(Generation(cfg, trace[i].0.files))
    ensures Looked(cfg, trace, moves, i, i - 1)
  {
    hide Current, CommitIntact, CheckpointName, Kept, Generation, Base;
    IntactIsKept(cfg, trace[i].0.files);
  }

  lemma LookedName(cfg: Config, trace: seq<(State, Reader)>, moves: seq<Move>, i: nat, h: nat)
    requires i < |trace| && Looked(cfg, trace, moves, i, h)
    ensures h < i && trace[i].1.name == CheckpointName(Generation(cfg, trace[h].0.files))
    ensures Kept(cfg, trace[i].0.files, Generation(cfg, trace[h].0.files), Base(cfg, trace[h].0.files))
  {
    hide CheckpointName, Kept, Generation, Base;
  }

  lemma SeekStep(cfg: Config, f: Files, rd: Reader, next: Option<string>, g: nat)
    requires rd.at.SeekBody? && InRange(cfg, rd) && rd.name == CheckpointName(g)
    ensures
      var u := ReadStep(cfg, f, rd, next);
      u.base == rd.base && u.name == rd.name && if Checkpoint(cfg, g) in f then u.at.ReadBody? else u.at.SeekMark? || u.at.Done?
  {
    hide Current, CheckpointName;
  }

  lemma SeesNow(cfg: Config, trace: seq<(State, Reader)>, moves: seq<Move>, i: nat, h: nat)
    requires 0 < i < |trace| && Acts(trace, moves, i - 1) && trace[i - 1].1.at.SeekBody? && trace[i].0 == trace[i - 1].0
    requires Looked(cfg, trace, moves, i - 1, h) && trace[i].1.name == trace[i - 1].1.name
    ensures
      var there := Checkpoint(cfg, Generation(cfg, trace[h].0.files)) in trace[i].0.files;
      && (there ==> Looked(cfg, trace, moves, i, h) && SeenBetween(cfg, trace, moves, h, i - 1, Base(cfg,
          trace[h].0.files)) && h < i - 1)
      && (!there ==> BaseSeen(cfg, trace, moves, []))
  {
    hide Current, CheckpointName, Checkpoint, Kept, Generation, Base;
    assert SeenBetween(cfg, trace, moves, h, i - 1,
        if Checkpoint(cfg, Generation(cfg, trace[h].0.files)) in trace[i].0.files then Base(cfg, trace[h].0.files) else []);
  }

  lemma BodyStep(cfg: Config, f: Files, rd: Reader, next: Option<string>, g: nat, b: seq<Record>)
    requires rd.at.ReadBody? && InRange(cfg, rd) && rd.name == CheckpointName(g) && Kept(cfg, f, g, b)
    ensures
      var u := ReadStep(cfg, f, rd, next);
      u.at.Failed? || (u.base == b && (u.at.SeekMark? || u.at.Done?))
  {
    hide Current, CheckpointName, Decode;
  }

  lemma SeenFrom(cfg: Config, trace: seq<(State, Reader)>, moves: seq<Move>, h: nat, k: nat, base: seq<Record>)
    requires h < k && SeenBetween(cfg, trace, moves, h, k, base)
    ensures BaseSeen(cfg, trace, moves, base)
  {
    hide SeenBetween;
  }

  lemma LaterStep(cfg: Config, f: Files, rd: Reader, next: Option<string>)
    requires InRange(cfg, rd) && !rd.at.SeekHead? && !rd.at.ReadHead? && !rd.at.SeekBody? && !rd.at.ReadBody?
    ensures
      var u := ReadStep(cfg, f, rd, next);
      && u.base == rd.base && !u.at.SeekHead? && !u.at.ReadHead? && !u.at.SeekBody? && !u.at.ReadBody?
      && (rd.at.Failed? ==> u.at.Failed?)
  {
    hide Current, Decode, PastWatermark, Ordinary;
  }

  /* ---- Completeness, over the schedule ---- */

  /** At `t` the call opens a source file that holds the record or something that outranks it. */
  ghost predicate OpensAbove(trace: seq<(State, Reader)>, moves: seq<Move>, t: nat, r: Record) {
    && Acts(trace, moves, t) && trace[t].1.at.Open?
    && IsRecord(trace[t].0.files, trace[t].1.at.path) && Below(r, trace[t].0.files[trace[t].1.at.path].rec)
  }

  lemma FoundIsOpened(cfg: Config, trace: seq<(State, Reader)>, moves: seq<Move>, r: Record)
    requires Call(cfg, trace, moves)
    ensures Absorbed(r, Answer(trace).found) <==> exists t: nat :: OpensAbove(trace, moves, t, r)
  {
    hide Call, Below;
    CallLength(cfg, trace, moves);
    if Absorbed(r, Answer(trace).found) {
      var b :| b in Answer(trace).found && Below(r, b);
      FoundUpTo(cfg, trace, moves, |trace| - 1, b);
      var t: nat :| t < |trace| - 1 && Opens(trace, moves, t, b);
      assert OpensAbove(trace, moves, t, r);
    }
    if t: nat :| OpensAbove(trace, moves, t, r) {
      var b := trace[t].0.files[trace[t].1.at.path].rec;
      assert Opens(trace, moves, t, b) && t < |trace| - 1;
      FoundUpTo(cfg, trace, moves, |trace| - 1, b);
    }
  }

  /** A call is complete if and only if the schedule let it be: whatever was appended before it began, is committed
      when it ends, and was not in the generation there was to be read when it read the base, still lay in a
      source file, or under something that outranks it, when the call opened that file. */
  lemma ScheduleDecides(cfg: Config, trace: seq<(State, Reader)>, moves: seq<Move>) returns (base: seq<Record>)
    requires Separate(cfg) && Call(cfg, trace, moves) && Answer(trace).at.Done?
    ensures BaseSeen(cfg, trace, moves, base)
    ensures (forall e | Before(trace, e) :: Absorbed(e.1, Returned(Answer(trace)))) <==>
            (forall e | Before(trace, e) && Absorbed(e.1, Base(cfg, Final(trace).files)) && !Absorbed(e.1, base) ::
               exists t: nat :: OpensAbove(trace, moves, t, e.1))
  {
    hide *;
    CallLength(cfg, trace, moves);
    EndsThere(trace);
    base := Answer(trace).base;
    BaseUpTo(cfg, trace, moves, |trace| - 1);
    BaseOfAnswer(cfg, trace, moves);
    CallIsCompleteExactly(cfg, trace, moves);
    forall e ensures CommittedBetween(cfg, trace, e) <==> Absorbed(e.1, Base(cfg, Final(trace).files)) && !Absorbed(e.1, base) {
      BetweenIs(cfg, trace, e);
    }
    forall e: (string, Record) ensures Absorbed(e.1, Answer(trace).found) <==> exists t: nat :: OpensAbove(trace, moves, t, e.1) {
      FoundIsOpened(cfg, trace, moves, e.1);
    }
  }

  lemma BetweenIs(cfg: Config, trace: seq<(State, Reader)>, e: (string, Record))
    requires trace != []
    ensures CommittedBetween(cfg, trace, e) <==> Absorbed(e.1, Base(cfg, Final(trace).files)) && !Absorbed(e.1, Answer(trace).base)
  {
    hide Absorbed, Base;
  }

  lemma BaseOfAnswer(cfg: Config, trace: seq<(State, Reader)>, moves: seq<Move>)
    requires trace != [] && trace[|trace| - 1].1.at.Done? && BaseSoFar(cfg, trace, moves, |trace| - 1)
    ensures BaseSeen(cfg, trace, moves, Answer(trace).base)
  {
    hide BaseSeen;
  }
}
