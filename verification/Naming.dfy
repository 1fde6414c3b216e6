/** Where things live: queue folders, the log, the index and its generations. */
module Naming {
  import opened Text

  /* ---- Queue (`PathQueueEdge._pending_item`, `_lease_path`, `_terminal_path`) ---- */

  const MARKER := "/pending/"

  function PendingItem(root: string, id: string): string {
    root + MARKER + id + ".json"
  }

  function LeasePath(root: string, id: string): string {
    root + MARKER + id + ".lease"
  }

  function Terminal(root: string, folder: string, id: string): string {
    root + "/" + folder + "/" + id + ".json"
  }

  function DropSuffix(s: string, suffix: string): string
    requires EndsWith(s, suffix)
  {
    s[..|s| - |suffix|]
  }

  /** How `claim` reads an item id off a listed path: everything after the first `/pending/`, without `.json`. */
  function ItemId(path: string): string
    requires EndsWith(Basename(path), ".json")
  {
    var marker := Find(path, MARKER);
    var rel := if marker.Some? then path[marker.value + |MARKER|..] else path;
    if EndsWith(rel, ".json") then DropSuffix(rel, ".json") else DropSuffix(Basename(path), ".json")
  }

  lemma PendingItemParts(root: string, id: string)
    ensures EndsWith(PendingItem(root, id), ".json")
    ensures EndsWith(Basename(PendingItem(root, id)), ".json")
    ensures OccursAt(PendingItem(root, id), MARKER, |root|)
    ensures PendingItem(root, id)[|root| + |MARKER|..] == id + ".json"
  {
    hide Basename, EndsWith, OccursAt;
    EndsItself(root + MARKER + id, ".json");
    BasenameKeepsSuffix(PendingItem(root, id), ".json");
    MarkerAt(root, id + ".json");
    assert PendingItem(root, id) == root + MARKER + (id + ".json");
  }

  /** A pending item lies in the pending folder, and its name is no directory's and no lease's. */
  lemma PendingItemPlace(root: string, id: string)
    ensures root + MARKER <= PendingItem(root, id) && Under(root + "/pending", PendingItem(root, id))
    ensures !EndsWith(PendingItem(root, id), "/") && !EndsWith(PendingItem(root, id), ".lease")
  {
    hide EndsWith;
    var path := PendingItem(root, id);
    assert root + "/pending" + "/" == root + MARKER;
    Starts(root + MARKER, id + ".json");
    assert path == root + MARKER + (id + ".json");
    EndsItself(root + MARKER + id, ".json");
    LastCharacter(path, ".json");
    LastCharacter(path, "/");
    LastCharacter(path, ".lease");
  }

  lemma Starts(prefix: string, rest: string)
    ensures prefix <= prefix + rest
  {}

  lemma EndsItself(s: string, suffix: string)
    ensures EndsWith(s + suffix, suffix)
  {}

  lemma MarkerAt(root: string, rest: string)
    ensures OccursAt(root + MARKER + rest, MARKER, |root|)
    ensures (root + MARKER + rest)[|root| + |MARKER|..] == rest
  {
    assert (root + MARKER + rest)[|root|..] == MARKER + rest;
  }

  lemma {:induction false} BasenameKeepsSuffix(path: string, suffix: string)
    requires '/' !in suffix && EndsWith(path, suffix)
    ensures EndsWith(Basename(path), suffix)
  {
    var name := Basename(path);
    if name != path {
      BasenameFollowsSlash(path);
      SlashBeforeSuffix(path, suffix, |path| - |name| - 1);
      assert name[|name| - |suffix|..] == path[|path| - |suffix|..];
    }
  }

  lemma {:induction false} BasenameFollowsSlash(path: string)
    requires Basename(path) != path
    ensures |Basename(path)| < |path| && path[|path| - |Basename(path)| - 1] == '/'
  {
    var rest := path[1..];
    if Basename(rest) == rest {
      assert path == [path[0]] + rest;
    } else {
      BasenameFollowsSlash(rest);
    }
  }

  /** The first `/pending/` in the root followed by the marker is the appended one. */
  predicate MarkerUnambiguous(root: string) {
    Find(root + MARKER, MARKER) == Some(|root|)
  }

  /** An occurrence of the marker no later than the queue's own marker is an occurrence in the root's part. */
  lemma EarlyOccurrence(root: string, rest: string, j: nat)
    requires j <= |root|
    ensures OccursAt(root + MARKER + rest, MARKER, j) <==> OccursAt(root + MARKER, MARKER, j)
  {
    var path, stem := root + MARKER + rest, root + MARKER;
    assert path[j..][..|MARKER|] == path[j..j + |MARKER|] == stem[j..j + |MARKER|] == stem[j..][..|MARKER|];
  }

  lemma FirstMarker(root: string, rest: string)
    ensures Find(root + MARKER + rest, MARKER) == Find(root + MARKER, MARKER)
    ensures Find(root + MARKER, MARKER).Some? && Find(root + MARKER, MARKER).value <= |root|
  {
    hide OccursAt, Find;
    assert OccursAt(root + MARKER, MARKER, |root|) by { MarkerOccurs(root); }
    EarlyOccurrence(root, rest, |root|);
    var here, there := Find(root + MARKER + rest, MARKER), Find(root + MARKER, MARKER);
    EarlyOccurrence(root, rest, here.value);
    EarlyOccurrence(root, rest, there.value);
  }

  lemma MarkerOccurs(root: string)
    ensures OccursAt(root + MARKER, MARKER, |root|)
  {
    assert (root + MARKER)[|root|..] == MARKER;
  }

  lemma DecodedId(path: string, i: nat)
    requires EndsWith(path, ".json") && EndsWith(Basename(path), ".json")
    requires Find(path, MARKER) == Some(i) && i + |MARKER| <= |path| - 5
    ensures ItemId(path) == path[i + |MARKER|..|path| - 5]
  {
    hide Find, OccursAt, Basename, EndsWith;
    DropBothEnds(path, i + |MARKER|, ".json");
  }

  /** The id that `claim` decodes from a pending path is the id that built it, whatever shards, markers or
      `.json` it holds, if and only if the queue's root does not already contain `/pending/`. */
  lemma ClaimRoundTripExactly(root: string, id: string)
    ensures EndsWith(Basename(PendingItem(root, id)), ".json")
    ensures ItemId(PendingItem(root, id)) == id <==> MarkerUnambiguous(root)
  {
    hide Find, OccursAt, Basename, ItemId, EndsWith;
    var path := PendingItem(root, id);
    PendingItemParts(root, id);
    FirstMarker(root, id + ".json");
    assert path == root + MARKER + (id + ".json");
    var i := Find(path, MARKER).value;
    DecodedId(path, i);
    assert |ItemId(path)| == |root| - i + |id|;
    assert path[|root| + |MARKER|..|path| - 5] == id;
  }

  /** Every listed candidate is the pending path of some id. */
  lemma CandidateHasId(root: string, path: string)
    requires root + MARKER <= path && EndsWith(path, ".json")
    ensures exists id :: path == PendingItem(root, id)
  {
    var n := |root| + |MARKER|;
    SlashBeforeSuffix(path, ".json", n - 1);
    var id := path[n..|path| - 5];
    assert path == path[..n] + id + path[|path| - 5..] == PendingItem(root, id);
  }

  /** Item, lease and terminal files of any two ids are different files, and each id has its own. */
  lemma QueuePathsDistinct(root: string, i: string, j: string)
    ensures PendingItem(root, i) != LeasePath(root, j)
    ensures PendingItem(root, i) != Terminal(root, "completed", j) && PendingItem(root, i) != Terminal(root, "failed", j)
    ensures LeasePath(root, i) != Terminal(root, "completed", j) && LeasePath(root, i) != Terminal(root, "failed", j)
    ensures Terminal(root, "completed", i) != Terminal(root, "failed", j)
  {
    var n := |root| + 1;
    assert PendingItem(root, i)[n] == LeasePath(root, i)[n] == 'p';
    assert Terminal(root, "completed", j)[n] == Terminal(root, "completed", i)[n] == 'c';
    assert Terminal(root, "failed", j)[n] == 'f';
    var p, l := PendingItem(root, i), LeasePath(root, j);
    assert p[|p| - 1] == 'n' && l[|l| - 1] == 'e';
  }

  /** Each id has its own item, lease and terminal file. */
  lemma QueuePathsInjective(root: string, folder: string, i: string, j: string)
    ensures PendingItem(root, i) == PendingItem(root, j) ==> i == j
    ensures LeasePath(root, i) == LeasePath(root, j) ==> i == j
    ensures Terminal(root, folder, i) == Terminal(root, folder, j) ==> i == j
  {
    if PendingItem(root, i) == PendingItem(root, j) { Between(root + MARKER, i, j, ".json"); }
    if LeasePath(root, i) == LeasePath(root, j) { Between(root + MARKER, i, j, ".lease"); }
    if Terminal(root, folder, i) == Terminal(root, folder, j) { Between(root + "/" + folder + "/", i, j, ".json"); }
  }

  /* ---- Log and index ---- */

  predicate Under(dir: string, path: string) {
    dir + "/" <= path
  }

  function LogPath(root: string, id: string): string {
    root + "/" + id + ".json"
  }

  function CurrentPath(root: string): string {
    root + "/" + "CURRENT"
  }

  const CHECKPOINT := "checkpoint."

  function CheckpointName(generation: nat): string {
    CHECKPOINT + Decimal(generation, 6) + ".jsonl"
  }

  function CheckpointPath(root: string, generation: nat): string {
    root + "/" + CheckpointName(generation)
  }

  lemma CheckpointNameShape(g: nat)
    ensures '/' !in CheckpointName(g) && CHECKPOINT <= CheckpointName(g)
    ensures CheckpointName(g) != "CURRENT"
  {
    assert CheckpointName(g)[0] == 'c';
  }

  /** Zero-padded generation names never collide, beyond six digits too. */
  lemma CheckpointNamesDistinct(g: nat, h: nat)
    requires CheckpointName(g) == CheckpointName(h)
    ensures g == h
  {
    Between(CHECKPOINT, Decimal(g, 6), Decimal(h, 6), ".jsonl");
    DecimalRoundTrip(g, 6);
    DecimalRoundTrip(h, 6);
  }

  /** The index's own files: CURRENT and the generations are different files with the expected base names. */
  lemma IndexPaths(root: string, g: nat, h: nat)
    ensures CurrentPath(root) != CheckpointPath(root, g)
    ensures CheckpointPath(root, g) == CheckpointPath(root, h) ==> g == h
    ensures Basename(CurrentPath(root)) == "CURRENT" && !(CHECKPOINT <= "CURRENT")
    ensures Basename(CheckpointPath(root, g)) == CheckpointName(g)
  {
    CheckpointNameShape(g);
    CheckpointNameShape(h);
    var n := |root| + 1;
    assert CurrentPath(root)[n..] == "CURRENT" && CheckpointPath(root, g)[n..] == CheckpointName(g) &&
        CheckpointPath(root, h)[n..] == CheckpointName(h);
    if CheckpointPath(root, g) == CheckpointPath(root, h) { CheckpointNamesDistinct(g, h); }
    BasenameOfJoin(root, "CURRENT");
    BasenameOfJoin(root, CheckpointName(g));
    assert "CURRENT"[0] == 'C' && CHECKPOINT[0] == 'c';
  }

  /** A file placed directly in the index root lies under a source root exactly when the index root itself does. */
  lemma IndexFileUnderSourceExactly(root: string, name: string, source: string)
    requires '/' !in name
    ensures Under(source, root + "/" + name) <==> source + "/" <= root + "/"
  {
    var path := root + "/" + name;
    assert path[|root| + 1..] == name && path[..|root| + 1] == root + "/";
    if source + "/" <= path {
      assert path[|source|] == '/';
      SlashBeforeSuffix(path, name, |source|);
      assert source + "/" == path[..|source| + 1] == (root + "/")[..|source| + 1];
    }
    if source + "/" <= root + "/" {
      assert path[..|source| + 1] == (root + "/")[..|source| + 1];
    }
  }

  lemma UnderHasSlash(dir: string, path: string)
    requires Under(dir, path)
    ensures '/' in path
  {
    assert path[|dir|] == '/';
  }
}
