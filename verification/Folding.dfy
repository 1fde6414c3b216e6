/** The last-write-wins fold of `last_write_wins_fold`, as a function, a specification and a loop. */
module Folding {
  import opened Text

  /** What the fold and the log see of a record: its identity (its file name), its fold key
      (`key_fn`), its version stamp (`version_fn`) and its canonical JSON text. */
  datatype Record = Record(id: string, key: string, version: string, content: string)

  /** `r` ranks no higher than `s`: older, or equally old with canonical text no greater. */
  predicate Leq(r: Record, s: Record) {
    Lt(r.version, s.version) || (r.version == s.version && Le(r.content, s.content))
  }

  lemma LeqTotal(r: Record, s: Record)
    ensures Leq(r, s) || Leq(s, r)
    ensures Leq(r, s) && Leq(s, r) ==> r.version == s.version && r.content == s.content
  {
    LeTotal(r.version, s.version);
    LeTotal(r.content, s.content);
  }

  lemma LeqTransitive(r: Record, s: Record, t: Record)
    requires Leq(r, s) && Leq(s, t)
    ensures Leq(r, t)
  {
    if Le(r.version, s.version) && Le(s.version, t.version) { LeTransitive(r.version, s.version, t.version); }
    if Le(r.content, s.content) && Le(s.content, t.content) { LeTransitive(r.content, s.content, t.content); }
    LeTotal(r.version, s.version);
    LeTotal(s.version, t.version);
  }

  lemma LeqReflexive(r: Record)
    ensures Leq(r, r)
  {
    LeReflexive(r.content);
  }

  /** Same key and rank at most: once `s` is kept, `r` no longer matters. */
  predicate Below(r: Record, s: Record) {
    r.key == s.key && Leq(r, s)
  }

  ghost predicate Absorbed(r: Record, records: seq<Record>) {
    exists s :: s in records && Below(r, s)
  }

  /* ---- The fold ---- */

  /** One turn of the loop: the incoming record replaces the kept one unless the kept one outranks it. */
  function Keep(best: map<string, Record>, r: Record): map<string, Record> {
    if r.key !in best || Leq(best[r.key], r) then best[r.key := r] else best
  }

  function Best(records: seq<Record>): map<string, Record> {
    if records == [] then map[] else Keep(Best(records[..|records| - 1]), records[|records| - 1])
  }

  ghost predicate StrictlySorted(keys: seq<string>) {
    forall i, j | 0 <= i < j < |keys| :: Lt(keys[i], keys[j])
  }

  lemma LeastKeyExists(keys: set<string>)
    requires keys != {}
    ensures exists k :: k in keys && forall other | other in keys :: Le(k, other)
  {
    hide Le;
    var k :| k in keys;
    if keys == {k} {
      LeReflexive(k);
    } else {
      LeastKeyExists(keys - {k});
      var m :| m in keys - {k} && forall other | other in keys - {k} :: Le(m, other);
      LeTotal(k, m);
      var least := if Le(k, m) then k else m;
      forall other | other in keys ensures Le(least, other) {
        LeReflexive(k);
        if other != k && least == k { LeTransitive(k, m, other); }
      }
    }
  }

  ghost function LeastKey(keys: set<string>): (k: string)
    requires keys != {}
    ensures k in keys && forall other | other in keys :: Le(k, other)
  {
    LeastKeyExists(keys);
    var k :| k in keys && forall other | other in keys :: Le(k, other);
    k
  }

  /** `sorted(best.keys())`. */
  ghost function SortedKeys(keys: set<string>): (ks: seq<string>)
    ensures StrictlySorted(ks)
    ensures forall k :: k in ks <==> k in keys
  {
    if keys == {} then []
    else
      var k := LeastKey(keys);
      var rest := SortedKeys(keys - {k});
      [k] + rest
  }

  ghost function Values(best: map<string, Record>): (out: seq<Record>)
    ensures |out| == |SortedKeys(best.Keys)|
    ensures forall i | 0 <= i < |out| :: out[i] == best[SortedKeys(best.Keys)[i]]
  {
    var ks := SortedKeys(best.Keys);
    seq(|ks|, i requires 0 <= i < |ks| => best[ks[i]])
  }

  /** The fold: best record per key, in key order. */
  ghost function Fold(records: seq<Record>): seq<Record> {
    Values(Best(records))
  }

  /* ---- What the fold promises ---- */

  /** Everything in `a` is absorbed by `b`. */
  ghost predicate Covered(a: seq<Record>, b: seq<Record>) {
    forall r | r in a :: Absorbed(r, b)
  }

  ghost predicate KeysIncrease(out: seq<Record>) {
    forall i, j | 0 <= i < j < |out| :: Lt(out[i].key, out[j].key)
  }

  /** One record per input key, in strictly increasing key order, each one an input record that no
      input record of the same key outranks. */
  ghost predicate IsFold(records: seq<Record>, out: seq<Record>) {
    && KeysIncrease(out)
    && (forall o | o in out :: o in records)
    && Covered(records, out)
  }

  lemma {:induction false} BestSpec(records: seq<Record>)
    ensures forall k | k in Best(records) :: Best(records)[k] in records && Best(records)[k].key == k
    ensures forall r | r in records :: r.key in Best(records) && Leq(r, Best(records)[r.key])
  {
    if records != [] {
      var n := |records| - 1;
      var front, last := records[..n], records[n];
      BestSpec(front);
      assert records == front + [last];
      var old_, new_ := Best(front), Best(records);
      LeqReflexive(last);
      forall r | r in records ensures r.key in new_ && Leq(r, new_[r.key]) {
        if r.key == last.key && last.key in old_ {
          LeqTotal(old_[last.key], last);
          if r in front && Leq(old_[last.key], last) { LeqTransitive(r, old_[last.key], last); }
        }
      }
    }
  }

  lemma KeptIsInFold(best: map<string, Record>, k: string)
    requires k in best
    ensures best[k] in Values(best)
  {
    var ks := SortedKeys(best.Keys);
    assert k in ks;
    var j :| 0 <= j < |ks| && ks[j] == k;
    assert Values(best)[j] == best[k];
  }

  /** The values, in the order of their keys, are the kept records. */
  lemma ValuesAreBest(best: map<string, Record>)
    requires forall k | k in best :: best[k].key == k
    ensures KeysIncrease(Values(best))
    ensures forall o | o in Values(best) :: o.key in best && o == best[o.key]
  {
    var ks := SortedKeys(best.Keys);
    forall o | o in Values(best) ensures o.key in best && o == best[o.key] {
      var i :| 0 <= i < |ks| && Values(best)[i] == o;
      assert ks[i] in ks;
    }
    forall i | 0 <= i < |ks| ensures Values(best)[i].key == ks[i] {
      assert ks[i] in ks;
    }
  }

  /** The dictionary loop refines its specification. */
  lemma FoldMeetsSpec(records: seq<Record>)
    ensures IsFold(records, Fold(records))
  {
    hide Leq, Best;
    BestSpec(records);
    var best := Best(records);
    ValuesAreBest(best);
    forall r | r in records ensures Absorbed(r, Values(best)) {
      KeptIsInFold(best, r.key);
      assert Below(r, best[r.key]);
    }
  }

  /** What the fold promises in terms of code points: of each key it keeps a record of the input that none of
      the key's records follows, by version and, on equal versions, by content; the keys come in ascending order. */
  ghost predicate KeepsNewest(records: seq<Record>, out: seq<Record>) {
    && (forall i, j | 0 <= i < j < |out| :: out[i].key != out[j].key && Precedes(out[i].key, out[j].key))
    && (forall o | o in out :: o in records && forall r | r in records && r.key == o.key :: NoNewer(r, o))
    && (forall r | r in records :: exists o :: o in out && o.key == r.key)
  }

  ghost predicate NoNewer(r: Record, s: Record) {
    Precedes(r.version, s.version) && (r.version == s.version ==> Precedes(r.content, s.content))
  }

  lemma LeqIsNoNewer(r: Record, s: Record)
    ensures Leq(r, s) <==> NoNewer(r, s)
  {
    hide Le, Precedes;
    LeIsCodePointOrder(r.version, s.version);
    LeIsCodePointOrder(r.content, s.content);
    LeReflexive(r.version);
  }

  lemma TopsAreNewest(records: seq<Record>, out: seq<Record>)
    requires IsFold(records, out)
    ensures KeepsNewest(records, out)
  {
    hide Leq, NoNewer, Le, Precedes, Absorbed;
    forall i, j | 0 <= i < j < |out| ensures out[i].key != out[j].key && Precedes(out[i].key, out[j].key) {
      LeIsCodePointOrder(out[i].key, out[j].key);
    }
    forall o, r | o in out && r in records && r.key == o.key ensures NoNewer(r, o) { NewestOfKey(records, out, o, r); }
    forall r | r in records ensures exists o :: o in out && o.key == r.key { KeyIsKept(r, out); }
  }

  lemma NewestOfKey(records: seq<Record>, out: seq<Record>, o: Record, r: Record)
    requires IsFold(records, out) && o in out && r in records && r.key == o.key
    ensures NoNewer(r, o)
  {
    hide Leq, NoNewer, IsFold;
    FoldKeepsTops(records, out, o);
    LeqIsNoNewer(r, o);
  }

  lemma KeyIsKept(r: Record, out: seq<Record>)
    requires Absorbed(r, out)
    ensures exists o :: o in out && o.key == r.key
  {
    hide Leq;
    var o :| o in out && Below(r, o);
  }

  /** The rank order asks for exactly that. */
  lemma FoldIsNewestExactly(records: seq<Record>, out: seq<Record>)
    ensures IsFold(records, out) <==> KeepsNewest(records, out)
  {
    hide Leq, NoNewer, Le, Precedes;
    if KeepsNewest(records, out) {
      forall i, j | 0 <= i < j < |out| ensures Lt(out[i].key, out[j].key) {
        LeIsCodePointOrder(out[i].key, out[j].key);
      }
      forall r | r in records ensures Absorbed(r, out) {
        var o :| o in out && o.key == r.key;
        LeqIsNoNewer(r, o);
        assert Below(r, o);
      }
    }
    if IsFold(records, out) { TopsAreNewest(records, out); }
  }

  /** Of each key the newest record survives. */
  lemma FoldKeepsNewest(records: seq<Record>)
    ensures KeepsNewest(records, Fold(records))
  {
    hide Fold, KeepsNewest, IsFold;
    FoldMeetsSpec(records);
    TopsAreNewest(records, Fold(records));
  }

  lemma OneRecordPerKey(out: seq<Record>, r: Record, s: Record)
    requires KeysIncrease(out) && r in out && s in out && r.key == s.key
    ensures r == s
  {
    var i :| 0 <= i < |out| && out[i] == r;
    var j :| 0 <= j < |out| && out[j] == s;
  }

  /** `r` is a record of the input that nothing of its key outranks. */
  ghost predicate Top(r: Record, records: seq<Record>) {
    r in records && forall s | s in records && s.key == r.key :: Leq(s, r)
  }

  lemma FoldKeepsTops(records: seq<Record>, out: seq<Record>, o: Record)
    requires IsFold(records, out) && o in out
    ensures Top(o, records)
  {
    hide Leq;
    forall s | s in records && s.key == o.key ensures Leq(s, o) {
      assert Absorbed(s, out);
      var t :| t in out && Below(s, t);
      OneRecordPerKey(out, t, o);
    }
  }

  /** No two different records tie for the top of a key. */
  ghost predicate TopsUnique(records: seq<Record>) {
    forall r, s | Top(r, records) && Top(s, records) && r.key == s.key :: r == s
  }

  predicate Tie(r: Record, s: Record) {
    r.key == s.key && r.version == s.version && r.content == s.content
  }

  /** Records are told apart by key, version and canonical text: canonical content is injective. */
  ghost predicate Canonical(records: set<Record>) {
    forall r, s | r in records && s in records && Tie(r, s) :: r == s
  }

  /* ---- Absorption ---- */

  lemma SelfAbsorbed(r: Record, records: seq<Record>)
    requires r in records
    ensures Absorbed(r, records)
  {
    LeqReflexive(r);
  }

  lemma AbsorbedTransitive(r: Record, s: Record, records: seq<Record>)
    requires Below(r, s) && Absorbed(s, records)
    ensures Absorbed(r, records)
  {
    var t :| t in records && Below(s, t);
    LeqTransitive(r, s, t);
  }

  lemma CoveredTransitive(r: Record, a: seq<Record>, b: seq<Record>)
    requires Absorbed(r, a) && Covered(a, b)
    ensures Absorbed(r, b)
  {
    var s :| s in a && Below(r, s);
    AbsorbedTransitive(r, s, b);
  }

  lemma SubsetCovered(a: seq<Record>, b: seq<Record>)
    requires forall r | r in a :: r in b
    ensures Covered(a, b)
  {
    hide Leq;
    forall r | r in a ensures Absorbed(r, b) { SelfAbsorbed(r, b); }
  }

  lemma FoldAbsorbsSame(records: seq<Record>, r: Record)
    ensures Absorbed(r, Fold(records)) <==> Absorbed(r, records)
  {
    hide Fold, Below, KeysIncrease;
    FoldMeetsSpec(records);
    if Absorbed(r, records) { CoveredTransitive(r, records, Fold(records)); }
  }

  /* ---- A fold is determined by its tops ---- */

  /** Lists in strictly increasing key order with the same elements are the same list. */
  lemma {:induction false} StrictOrderIsDetermined(xs: seq<Record>, ys: seq<Record>)
    requires KeysIncrease(xs) && KeysIncrease(ys)
    requires forall r :: r in xs <==> r in ys
    ensures xs == ys
  {
    hide Le;
    HeadIsElement(xs);
    HeadIsElement(ys);
    if xs != [] {
      HeadsAgree(xs, ys);
      SkipHead(xs);
      SkipHead(ys);
      StrictOrderIsDetermined(xs[1..], ys[1..]);
      assert xs == [xs[0]] + xs[1..] && ys == [ys[0]] + ys[1..];
    }
  }

  lemma HeadIsElement(xs: seq<Record>)
    ensures xs != [] ==> xs[0] in xs
  {}

  lemma HeadsAgree(xs: seq<Record>, ys: seq<Record>)
    requires xs != [] && ys != [] && KeysIncrease(xs) && KeysIncrease(ys)
    requires xs[0] in ys && ys[0] in xs
    ensures xs[0] == ys[0]
  {
    hide Le;
    var i :| 0 <= i < |xs| && xs[i] == ys[0];
    var j :| 0 <= j < |ys| && ys[j] == xs[0];
    if i > 0 && j > 0 { LeTotal(xs[0].key, ys[0].key); }
  }

  lemma SkipHead(xs: seq<Record>)
    requires xs != [] && KeysIncrease(xs)
    ensures KeysIncrease(xs[1..])
    ensures forall r :: r in xs[1..] <==> r in xs && r != xs[0]
  {
    hide Le;
    forall r ensures r in xs[1..] <==> r in xs && r != xs[0] {
      if r in xs && r != xs[0] {
        var i :| 0 <= i < |xs| && xs[i] == r;
        assert xs[1..][i - 1] == r;
      }
    }
  }

  /** Highest-ranked records of the two inputs that tie are the same record. */
  ghost predicate TopsAgree(a: seq<Record>, b: seq<Record>) {
    forall r, s | Top(r, a) && Top(s, b) && Tie(r, s) :: r == s
  }

  /** Inputs that absorb each other and agree on their tops fold alike. */
  lemma FoldDetermined(a: seq<Record>, b: seq<Record>)
    requires Covered(a, b) && Covered(b, a)
    requires TopsAgree(a, b)
    ensures Fold(a) == Fold(b)
  {
    hide Fold, Covered, Leq;
    FoldMeetsSpec(a);
    FoldMeetsSpec(b);
    forall r | r in Fold(a) ensures r in Fold(b) { FoldTopShared(a, b, Fold(a), Fold(b), r); }
    assert TopsAgree(b, a);
    forall r | r in Fold(b) ensures r in Fold(a) { FoldTopShared(b, a, Fold(b), Fold(a), r); }
    StrictOrderIsDetermined(Fold(a), Fold(b));
  }

  lemma FoldTopShared(a: seq<Record>, b: seq<Record>, fa: seq<Record>, fb: seq<Record>, r: Record)
    requires IsFold(a, fa) && IsFold(b, fb) && r in fa
    requires Covered(a, b) && Covered(b, a) && TopsAgree(a, b)
    ensures r in fb
  {
    hide Leq, Covered;
    FoldKeepsTops(a, fa, r);
    SelfAbsorbed(r, a);
    CoveredTransitive(r, a, b);
    CoveredTransitive(r, b, fb);
    var t :| t in fb && Below(r, t);
    FoldKeepsTops(b, fb, t);
    SelfAbsorbed(t, b);
    CoveredTransitive(t, b, a);
    var u :| u in a && Below(t, u);
    LeqTransitive(t, u, r);
    LeqTotal(r, t);
  }

  /** When canonical content is injective, records absorbed by others can be left out. */
  lemma FoldOfSubset(a: seq<Record>, b: seq<Record>)
    requires Canonical(set r | r in b)
    requires forall r | r in a :: r in b
    requires Covered(b, a)
    ensures Fold(a) == Fold(b)
  {
    hide Fold, Covered, Leq;
    SubsetCovered(a, b);
    FoldDetermined(a, b);
  }

  /* ---- Absorption, ties included ---- */

  /** Position `i` carries the last of the highest-ranked records of key `k`. */
  ghost predicate LastTopAt(records: seq<Record>, k: string, i: nat) {
    && i < |records| && records[i].key == k
    && (forall j | 0 <= j < |records| && records[j].key == k :: Leq(records[j], records[i]))
    && (forall j | i < j < |records| && records[j].key == k :: !Leq(records[i], records[j]))
  }

  /** The record the loop keeps for a key is the last of its highest-ranked ones. */
  lemma {:induction false} BestIsLastTop(records: seq<Record>, k: string) returns (i: nat)
    requires k in Best(records)
    ensures i < |records| && LastTopAt(records, k, i) && records[i] == Best(records)[k]
  {
    hide Leq;
    var n := |records| - 1;
    var front, last := records[..n], records[n];
    assert forall j | 0 <= j < n :: records[j] == front[j];
    LeqReflexive(last);
    if last.key == k && Best(records)[k] == last && (k !in Best(front) || Leq(Best(front)[k], last)) {
      i := n;
      BestSpec(front);
      forall j | 0 <= j < n && records[j].key == k ensures Leq(records[j], last) {
        assert front[j] in front;
        LeqTransitive(front[j], Best(front)[k], last);
      }
    } else {
      i := BestIsLastTop(front, k);
      if last.key == k { LeqTotal(last, front[i]); }
    }
  }

  lemma LastTopUnique(records: seq<Record>, k: string, i: nat, j: nat)
    requires LastTopAt(records, k, i) && LastTopAt(records, k, j)
    ensures i == j
  {
    hide Leq;
  }

  /** What the loop holds after `b` depends on what it held before, not on how it came to hold it. */
  lemma {:induction false} BestContinues(a: seq<Record>, c: seq<Record>, b: seq<Record>)
    requires Best(a) == Best(c)
    ensures Best(a + b) == Best(c + b)
  {
    if b == [] {
      assert a + b == a && c + b == c;
    } else {
      var n := |b| - 1;
      BestContinues(a, c, b[..n]);
      assert (a + b)[..|a| + n] == a + b[..n] && (c + b)[..|c| + n] == c + b[..n];
    }
  }

  /** Running the loop over its own result gives the same dictionary. */
  lemma BestOfFold(a: seq<Record>)
    ensures Best(Fold(a)) == Best(a)
  {
    hide Leq, Best, Values;
    var best, f := Best(a), Fold(a);
    BestSpec(a);
    BestSpec(f);
    ValuesAreBest(best);
    forall k | k in best ensures k in Best(f) && Best(f)[k] == best[k] {
      KeptIsInFold(best, k);
      assert best[k] in f;
    }
    forall k | k in Best(f) ensures k in best {
      assert Best(f)[k] in f;
    }
  }

  /** Running the loop over the tail of its input once more gives the same dictionary: the last top of a
      key either lies in the tail, and comes round again, or outranks all of it. */
  lemma BestRepeats(a: seq<Record>, b: seq<Record>)
    ensures Best(a + b + b) == Best(a + b)
  {
    hide Leq, Best, LastTopAt;
    var once, twice := a + b, a + b + b;
    BestSpec(once);
    BestSpec(twice);
    forall k | k in Best(twice) ensures k in Best(once) { assert Best(twice)[k] in once; }
    forall k | k in Best(once) ensures k in Best(twice) && Best(twice)[k] == Best(once)[k] {
      assert Best(once)[k] in twice;
      var i := BestIsLastTop(once, k);
      var j := BestIsLastTop(twice, k);
      LastTopRepeats(a, b, k, i);
      LastTopUnique(twice, k, j, if i < |a| then i else i + |b|);
      TopComesRound(a, b, i);
    }
  }

  lemma TopComesRound(a: seq<Record>, b: seq<Record>, i: nat)
    requires i < |a + b|
    ensures (a + b + b)[if i < |a| then i else i + |b|] == (a + b)[i]
  {}

  lemma LastTopRepeats(a: seq<Record>, b: seq<Record>, k: string, i: nat)
    requires LastTopAt(a + b, k, i)
    ensures LastTopAt(a + b + b, k, if i < |a| then i else i + |b|)
  {
    hide Leq;
    var once, twice := a + b, a + b + b;
    var again := if i < |a| then i else i + |b|;
    forall j: nat | j < |twice| ensures twice[j] == once[if j < |once| then j else j - |b|] {}
    forall j: nat | j < |twice| && twice[j].key == k ensures Leq(twice[j], twice[again]) {
      assert Leq(once[if j < |once| then j else j - |b|], once[i]);
    }
    forall j: nat | again < j < |twice| && twice[j].key == k ensures !Leq(twice[again], twice[j]) {
      assert !Leq(once[i], once[if j < |once| then j else j - |b|]);
    }
  }

  /** Absorption, for every input: folding a fold together with more records is folding them all, and
      folding some of them in again changes nothing. */
  lemma FoldAbsorption(a: seq<Record>, b: seq<Record>)
    ensures Fold(Fold(a) + b) == Fold(a + b)
    ensures Fold(Fold(a + b) + b) == Fold(a + b)
  {
    hide Best, Values;
    BestOfFold(a);
    BestContinues(Fold(a), a, b);
    BestOfFold(a + b);
    BestContinues(Fold(a + b), a + b, b);
    BestRepeats(a, b);
  }

  /** A fold is its own fold. */
  lemma FoldIdempotent(a: seq<Record>)
    ensures Fold(Fold(a)) == Fold(a)
  {
    hide Best, Values;
    BestOfFold(a);
  }

  lemma FoldOfNothing()
    ensures Fold([]) == []
  {
    assert SortedKeys({}) == [];
  }

  /* ---- Order independence, exactly ---- */

  ghost predicate OrderFree(records: seq<Record>) {
    forall other: seq<Record> | multiset(other) == multiset(records) :: Fold(other) == Fold(records)
  }

  /** The fold ignores the order of its input exactly when no two different input records tie for the
      top of their key; in particular always when canonical content is injective. */
  lemma OrderFreeExactly(records: seq<Record>)
    ensures OrderFree(records) <==> TopsUnique(records)
    ensures Canonical(set r | r in records) ==> TopsUnique(records)
  {
    hide Fold, Leq;
    if TopsUnique(records) {
      forall other: seq<Record> | multiset(other) == multiset(records) ensures Fold(other) == Fold(records) {
        PermutationFoldsAlike(records, other);
      }
    }
    if OrderFree(records) {
      forall r, s | Top(r, records) && Top(s, records) && r.key == s.key ensures r == s {
        LastTopWins(records, r);
        LastTopWins(records, s);
        FoldMeetsSpec(records);
        OneRecordPerKey(Fold(records), r, s);
      }
    }
    if Canonical(set r | r in records) {
      forall r, s | Top(r, records) && Top(s, records) && r.key == s.key ensures r == s {
        LeqTotal(r, s);
        assert Tie(r, s);
      }
    }
  }

  lemma PermutationFoldsAlike(records: seq<Record>, other: seq<Record>)
    requires TopsUnique(records) && multiset(other) == multiset(records)
    ensures Fold(other) == Fold(records)
  {
    hide Fold, Leq, Covered;
    SameElements(records, other);
    SubsetCovered(records, other);
    SubsetCovered(other, records);
    FoldDetermined(other, records);
  }

  lemma SameElements(a: seq<Record>, b: seq<Record>)
    requires multiset(a) == multiset(b)
    ensures forall r :: r in a <==> r in b
  {
    forall r ensures r in a <==> r in b {
      assert r in multiset(a) <==> r in multiset(b);
    }
  }

  /** Moving a top record to the end makes it the survivor of its key. */
  lemma LastTopWins(records: seq<Record>, r: Record)
    requires Top(r, records) && OrderFree(records)
    ensures r in Fold(records)
  {
    hide Leq, Best, Values;
    var front := MoveToEnd(records, r);
    TopKeptLast(front, r);
    KeptIsInFold(Best(front + [r]), r.key);
    assert r in Fold(front + [r]);
    assert Fold(front + [r]) == Fold(records);
  }

  lemma MoveToEnd(records: seq<Record>, r: Record) returns (front: seq<Record>)
    requires r in records
    ensures multiset(front + [r]) == multiset(records)
    ensures forall s | s in front :: s in records
  {
    var i :| 0 <= i < |records| && records[i] == r;
    front := records[..i] + records[i + 1..];
    assert records == records[..i] + [r] + records[i + 1..];
  }

  lemma TopKeptLast(front: seq<Record>, r: Record)
    requires forall s | s in front && s.key == r.key :: Leq(s, r)
    ensures r.key in Best(front + [r]) && Best(front + [r])[r.key] == r
  {
    hide Leq;
    BestSpec(front);
    assert (front + [r])[..|front|] == front;
  }

  /* ---- The loop ---- */

  method Least(keys: set<string>) returns (k: string)
    requires keys != {}
    ensures k == LeastKey(keys)
  {
    k :| k in keys;
    var rest := keys - {k};
    LeReflexive(k);
    while rest != {}
      invariant k in keys && rest <= keys
      invariant forall other | other in keys - rest :: Le(k, other)
      decreases rest
    {
      var other :| other in rest;
      LeTotal(k, other);
      if Le(other, k) {
        LeReflexive(other);
        forall x | x in keys - (rest - {other}) ensures Le(other, x) {
          if x != other { LeTransitive(other, k, x); }
        }
        k := other;
      }
      rest := rest - {other};
    }
    LeTotal(k, LeastKey(keys));
  }

  lemma SortedNothing()
    ensures SortedKeys({}) == []
  {}

  lemma SortedStep(ks: seq<string>, left: set<string>)
    requires left != {}
    ensures ks + SortedKeys(left) == ks + [LeastKey(left)] + SortedKeys(left - {LeastKey(left)})
  {}


  /** `sorted` on a set of strings, by repeatedly taking out the least. */
  method Sorted(keys: set<string>) returns (ks: seq<string>)
    ensures ks == SortedKeys(keys)
  {
    hide Le, SortedKeys;
    ks := [];
    SortedNothing();
    var left := keys;
    while left != {}
      invariant ks + SortedKeys(left) == SortedKeys(keys)
      decreases left
    {
      var k := Least(left);
      SortedStep(ks, left);
      ks, left := ks + [k], left - {k};
    }
  }

  /** The source's test, `>=` on versions and no smaller content on a tie, is the rank order. */
  lemma ReplaceRule(kept: Record, r: Record)
    ensures Leq(kept, r) <==> !Lt(r.version, kept.version) && !(r.version == kept.version && Lt(r.content, kept.content))
  {
    LeTotal(kept.version, r.version);
    LeTotal(kept.content, r.content);
  }

  /** The fold as the source runs it: a dictionary grown record by record, then read out in key order. */
  method LastWriteWins(records: seq<Record>) returns (out: seq<Record>)
    ensures out == Fold(records)
    ensures KeepsNewest(records, out)
  {
    var best: map<string, Record> := map[];
    for n := 0 to |records|
      invariant best == Best(records[..n])
    {
      var r := records[n];
      assert records[..n + 1][..n] == records[..n];
      if r.key in best { ReplaceRule(best[r.key], r); }
      if r.key !in best || !Lt(r.version, best[r.key].version) {
        if r.key in best && r.version == best[r.key].version && Lt(r.content, best[r.key].content) {
          continue;
        }
        best := best[r.key := r];
      }
    }
    assert records[..|records|] == records;
    var ks := Sorted(best.Keys);
    out := seq(|ks|, i requires 0 <= i < |ks| => best[ks[i]]);
    FoldKeepsNewest(records);
  }
}
