/** When the source cache is sound: the exact condition on snapshot, path_prefix and writers, and the
    runs that break it otherwise.  The runs keep to the per-prefix file lock: no two workers with the
    same prefix are past their second look at the coverage. */
module CacheRuns {
  import opened Wrappers
  import opened RepoPath
  import opened PrefixCache

  /** The searches of the run all have the given path_prefix; None allows any. */
  predicate OnlyLaunches(moves: seq<Move>, raw: Option<string>) {
    forall k :: 0 <= k < |moves| && moves[k].Launch? && raw.Some? ==> moves[k].raw == raw.value
  }

  ghost predicate Reachable(cfg: Config, raw: Option<string>, c: Cache) {
    exists moves: seq<Move> :: OnlyLaunches(moves, raw) && Run(cfg, Fresh(), moves) == c
  }

  lemma ReachStart(cfg: Config, raw: Option<string>)
    ensures Reachable(cfg, raw, Fresh())
  {
    assert OnlyLaunches([], raw) && Run(cfg, Fresh(), []) == Fresh();
  }

  lemma Reach(cfg: Config, raw: Option<string>, c: Cache, move: Move)
    requires Reachable(cfg, raw, c) && (move.Launch? && raw.Some? ==> move.raw == raw.value)
    ensures Reachable(cfg, raw, Act(cfg, c, move))
  {
    var moves: seq<Move> :| OnlyLaunches(moves, raw) && Run(cfg, Fresh(), moves) == c;
    assert (moves + [move])[..|moves|] == moves;
    assert OnlyLaunches(moves + [move], raw) && Run(cfg, Fresh(), moves + [move]) == Act(cfg, c, move);
  }

  // --- Undisturbed work of one worker ---

  predicate Idle(workers: seq<Worker>) {
    forall v :: 0 <= v < |workers| ==> !Writes(workers[v])
  }

  predicate StorageFits(cfg: Config) {
    forall i :: 0 <= i < |cfg.snapshot| ==> HashMatches(cfg, "x", cfg.snapshot[i].hash)
  }

  function WithPen(c: Cache, w: nat, pen: Pen): Cache
    requires w < |c.workers| && c.workers[w].stage.Writing?
  {
    WithStage(c, w, c.workers[w].stage.(pen := pen))
  }

  /** Open and fill the temporary file of the worker's row. */
  lemma FillOne(cfg: Config, raw: Option<string>, c: Cache, w: nat) returns (after: Cache)
    requires Reachable(cfg, raw, c) && StorageFits(cfg) && AtRow(cfg, c, w) && c.workers[w].stage.pen.Up? &&
             Idle(c.workers)
    ensures Reachable(cfg, raw, after) && after.coverage == c.coverage
    ensures after.workers == WithPen(c, w, Full).workers && Tmp(RowOf(cfg, c, w).path) in after.disk.names
  {
    var s := c.workers[w].stage;
    Reach(cfg, raw, c, OpenTmp(w, "x"));
    var begun := Act(cfg, c, OpenTmp(w, "x"));
    assert begun.workers[w].stage.pen.Open? && begun.workers == WithPen(c, w, begun.workers[w].stage.pen).workers;
    Reach(cfg, raw, begun, FillTmp(w));
    after := Act(cfg, begun, FillTmp(w));
    assert after.workers == WithPen(c, w, Full).workers;
  }

  lemma WriteRow(cfg: Config, raw: Option<string>, c: Cache, w: nat) returns (after: Cache)
    requires Reachable(cfg, raw, c) && StorageFits(cfg) && AtRow(cfg, c, w) && c.workers[w].stage.pen.Up? &&
             Idle(c.workers)
    ensures Reachable(cfg, raw, after) && after.coverage == c.coverage
    ensures after.workers ==
            WithStage(c, w, NextStage(c.workers[w].job, c.workers[w].stage.rows, c.workers[w].stage.next)).workers
    ensures Tmp(RowOf(cfg, c, w).path) !in after.disk.names
  {
    var full := FillOne(cfg, raw, c, w);
    Reach(cfg, raw, full, RenameTmp(w));
    after := Act(cfg, full, RenameTmp(w));
    assert RowOf(cfg, full, w) == RowOf(cfg, c, w);
    assert |Tmp(RowOf(cfg, c, w).path)| > |RowOf(cfg, c, w).path|;
  }

  /** A search writes its rows up to row `k`. */
  lemma {:induction false} WriteTo(cfg: Config, raw: Option<string>, c: Cache, w: nat, k: nat) returns (after: Cache)
    requires Reachable(cfg, raw, c) && StorageFits(cfg) && IsSearch(c, w) && c.workers[w].stage.Writing? &&
             Idle(c.workers)
    requires c.workers[w].stage.next <= k < |c.workers[w].stage.rows| && c.workers[w].stage.pen.Up?
    requires forall r :: 0 <= r < |c.workers[w].stage.rows| ==> c.workers[w].stage.rows[r] < |cfg.snapshot|
    ensures Reachable(cfg, raw, after) && after.coverage == c.coverage
    ensures after.workers == WithStage(c, w, Writing(c.workers[w].stage.rows, k, Up)).workers
    decreases k - c.workers[w].stage.next
  {
    var s := c.workers[w].stage;
    if s.next == k {
      after := c;
    } else {
      var one := WriteRow(cfg, raw, c, w);
      assert one.workers[w] == Worker(c.workers[w].job, Writing(s.rows, s.next + 1, Up));
      after := WriteTo(cfg, raw, one, w, k);
    }
  }

  /** A search that no entry covers looks twice and starts. */
  lemma StartSearch(cfg: Config, raw: Option<string>, c: Cache, w: nat, p: string) returns (after: Cache)
    requires Reachable(cfg, raw, c) && w < |c.workers| && c.workers[w] == Worker(Search(p), Starting)
    requires NormalizePrefix(p).Some? && !IsCovered(c.coverage, p)
    ensures Reachable(cfg, raw, after) && after.coverage == c.coverage && after.disk == c.disk
    ensures after.workers == WithStage(c, w, Started(cfg, p)).workers
  {
    Reach(cfg, raw, c, Check(w));
    var missed := Act(cfg, c, Check(w));
    assert missed == WithStage(c, w, Missed);
    Reach(cfg, raw, missed, Recheck(w));
    after := Act(cfg, missed, Recheck(w));
    assert after.workers == WithStage(c, w, Started(cfg, p)).workers;
  }

  /** A search with all rows written marks its prefix. */
  lemma MarkSearch(cfg: Config, raw: Option<string>, c: Cache, w: nat, p: string) returns (after: Cache)
    requires Reachable(cfg, raw, c) && w < |c.workers| && c.workers[w] == Worker(Search(p), Written)
    requires NormalizePrefix(p).Some?
    ensures Reachable(cfg, raw, after) && after.disk == c.disk &&
            after.coverage == c.coverage + [NormalizePrefix(p).value]
    ensures after.workers == WithStage(c, w, Done).workers
  {
    Reach(cfg, raw, c, ReadCoverage(w));
    var marking := Act(cfg, c, ReadCoverage(w));
    assert marking == WithStage(c, w, Marking(c.coverage));
    Reach(cfg, raw, marking, WriteCoverage(w));
    after := Act(cfg, marking, WriteCoverage(w));
    assert after.workers == WithStage(c, w, Done).workers;
  }

  /** One undisturbed search covers its prefix. */
  lemma Cover(cfg: Config, raw: Option<string>, c: Cache, w: nat, p: string) returns (after: Cache)
    requires Reachable(cfg, raw, c) && StorageFits(cfg) && Idle(c.workers)
    requires w < |c.workers| && c.workers[w] == Worker(Search(p), Starting)
    requires NormalizePrefix(p).Some? && !IsCovered(c.coverage, p)
    requires TotalSize(cfg.snapshot, Under(cfg.snapshot, p)) <= cfg.maxBytes
    ensures Reachable(cfg, raw, after) && after.coverage == c.coverage + [NormalizePrefix(p).value]
    ensures after.workers == WithStage(c, w, Done).workers
  {
    var rows := Under(cfg.snapshot, p);
    var started := StartSearch(cfg, raw, c, w, p);
    var written := started;
    if rows != [] {
      var last := WriteTo(cfg, raw, started, w, |rows| - 1);
      assert last.workers[w] == Worker(Search(p), Writing(rows, |rows| - 1, Up));
      written := WriteRow(cfg, raw, last, w);
    }
    assert written.workers[w] == Worker(Search(p), Written);
    after := MarkSearch(cfg, raw, written, w, p);
    assert after.workers == WithStage(c, w, Done).workers;
  }

  // --- Snapshots of a given shape ---

  /** The same files, whatever their sizes and contents. */
  predicate SameShape(rows: seq<Row>, shape: seq<Row>) {
    |rows| == |shape| &&
    forall i :: 0 <= i < |rows| ==>
      rows[i].path == shape[i].path && rows[i].readable == shape[i].readable && rows[i].visible == shape[i].visible
  }

  /** Sizes zero, and contents that an empty file does not match. */
  function Plain(shape: seq<Row>, oneWriter: bool): (cfg: Config)
    ensures SameShape(cfg.snapshot, shape) && cfg.oneWriter == oneWriter && StorageFits(cfg)
    ensures cfg.maxBytes == 0
    ensures forall i :: 0 <= i < |shape| ==> !HashMatches(cfg, "", cfg.snapshot[i].hash) && cfg.snapshot[i].size == 0
  {
    Config(seq(|shape|, i requires 0 <= i < |shape| => shape[i].(size := 0, hash := Some(1))),
           (s: string) => |s|, 0, oneWriter)
  }

  lemma {:induction false} NothingToStore(rows: seq<Row>, ids: seq<nat>)
    requires forall k :: 0 <= k < |ids| ==> ids[k] < |rows| && rows[ids[k]].size == 0
    ensures TotalSize(rows, ids) == 0
  {
    if ids != [] {
      NothingToStore(rows, ids[..|ids| - 1]);
    }
  }

  /** Snapshot paths are unique and relative. */
  predicate ShapeFits(shape: seq<Row>) {
    UniquePaths(shape) && forall i :: 0 <= i < |shape| ==> !StartsWith(shape[i].path, "/")
  }

  ghost predicate AlwaysSound(shape: seq<Row>, raw: string, oneWriter: bool) {
    forall cfg: Config, c: Cache ::
      SameShape(cfg.snapshot, shape) && cfg.oneWriter == oneWriter && Reachable(cfg, Some(raw), c) ==> Sound(cfg, c)
  }

  /** The reader of file `i` has found it missing and is about to write it. */
  function Stale(i: nat): Worker {
    Worker(Read(i), Writing([i], 0, Up))
  }

  lemma ReachStale(cfg: Config, raw: Option<string>, c: Cache, i: nat) returns (after: Cache)
    requires Reachable(cfg, raw, c) && c.disk == Fresh().disk && i < |cfg.snapshot| && cfg.snapshot[i].readable
    ensures Reachable(cfg, raw, after) && after == c.(workers := c.workers + [Stale(i)])
  {
    Reach(cfg, raw, c, Fetch(i));
    var fetched := Act(cfg, c, Fetch(i));
    var w := |c.workers|;
    Reach(cfg, raw, fetched, Check(w));
    after := Act(cfg, fetched, Check(w));
    assert after.workers == c.workers + [Stale(i)];
  }

  /** One search covers its prefix while readers that looked before it are still waiting to write. */
  lemma CoverBehind(cfg: Config, raw: string, c: Cache, p: string) returns (after: Cache)
    requires Reachable(cfg, Some(raw), c) && StorageFits(cfg) && Idle(c.workers) && c.coverage == []
    requires NormalizePrefix(raw) == Some(p) && NormalizePrefix(p) == Some(p)
    requires forall i :: 0 <= i < |cfg.snapshot| ==> cfg.snapshot[i].size == 0
    requires cfg.maxBytes == 0
    ensures Reachable(cfg, Some(raw), after) && after.coverage == [p]
    ensures after.workers == c.workers + [Worker(Search(p), Done)]
  {
    Reach(cfg, Some(raw), c, Launch(raw));
    var launched := Act(cfg, c, Launch(raw));
    var w := |c.workers|;
    NothingToStore(cfg.snapshot, Under(cfg.snapshot, p));
    after := Cover(cfg, Some(raw), launched, w, p);
    assert after.workers == c.workers + [Worker(Search(p), Done)];
  }

  lemma MissingIsUnsound(cfg: Config, c: Cache, p: string, j: nat)
    requires c.coverage == [p] && NormalizePrefix(p) == Some(p) && j < |cfg.snapshot| && IsUnder(cfg.snapshot[j], p)
    requires !Materialised(cfg, c.disk, j)
    ensures !Sound(cfg, c)
  {
    assert c.coverage[0] == p;
    assert IsCovered(c.coverage, p) && !Complete(cfg, c.disk, p);
  }

  // --- The three ways to break it ---

  /** A reader of `path` that looked before the search was through takes away the covered file
      `path.tmp`: one process suffices. */
  lemma ClashIsUnsound(shape: seq<Row>, raw: string, p: string, oneWriter: bool, i: nat, j: nat)
    requires NormalizePrefix(raw) == Some(p) && NormalizePrefix(p) == Some(p)
    requires i < |shape| && j < |shape| && shape[i].readable && IsUnder(shape[j], p) &&
             shape[j].path == Tmp(shape[i].path)
    ensures !AlwaysSound(shape, raw, oneWriter)
  {
    var cfg := Plain(shape, oneWriter);
    ReachStart(cfg, Some(raw));
    var c := ReachStale(cfg, Some(raw), Fresh(), i);
    c := CoverBehind(cfg, raw, c, p);
    assert c.workers == [Stale(i), Worker(Search(p), Done)];
    c := WriteRow(cfg, Some(raw), c, 0);
    MissingIsUnsound(cfg, c, p, j);
  }

  /** Two writers of one file: the second truncates what the first then renames into place. */
  lemma TearFile(cfg: Config, raw: Option<string>, c: Cache, j: nat) returns (after: Cache)
    requires Reachable(cfg, raw, c) && StorageFits(cfg) && !cfg.oneWriter && j < |cfg.snapshot| && Idle(c.workers)
    requires |c.workers| >= 2 && c.workers[0] == Stale(j) && c.workers[1] == Stale(j)
    requires !HashMatches(cfg, "", cfg.snapshot[j].hash)
    ensures Reachable(cfg, raw, after) && after.coverage == c.coverage && !Materialised(cfg, after.disk, j)
  {
    var path := cfg.snapshot[j].path;
    var full := FillOne(cfg, raw, c, 0);
    Reach(cfg, raw, full, OpenTmp(1, "x"));
    var torn := Act(cfg, full, OpenTmp(1, "x"));
    assert torn.workers[0] == full.workers[0] && torn.disk == Opened(full.disk, Tmp(path));
    assert Holds(torn.disk, Tmp(path)) ==> torn.disk.blobs[torn.disk.names[Tmp(path)]] == "";
    Reach(cfg, raw, torn, RenameTmp(0));
    after := Act(cfg, torn, RenameTmp(0));
    assert after.disk == Renamed(torn.disk, Tmp(path), path);
  }

  lemma SharedWritersAreUnsound(shape: seq<Row>, raw: string, p: string, j: nat)
    requires NormalizePrefix(raw) == Some(p) && NormalizePrefix(p) == Some(p) && j < |shape| && IsUnder(shape[j], p)
    ensures !AlwaysSound(shape, raw, false)
  {
    var cfg := Plain(shape, false);
    ReachStart(cfg, Some(raw));
    var c := ReachStale(cfg, Some(raw), Fresh(), j);
    c := ReachStale(cfg, Some(raw), c, j);
    c := CoverBehind(cfg, raw, c, p);
    assert c.workers == [Stale(j), Stale(j), Worker(Search(p), Done)];
    c := TearFile(cfg, Some(raw), c, j);
    MissingIsUnsound(cfg, c, p, j);
  }

  lemma {:induction false} NothingUnderSlash(rows: seq<Row>)
    requires forall i :: 0 <= i < |rows| ==> !StartsWith(rows[i].path, "/")
    ensures Under(rows, "/") == []
  {
    if rows != [] {
      NothingUnderSlash(rows[..|rows| - 1]);
    }
  }

  /** A search under "." writes nothing and records the prefix of everything. */
  lemma DotsRun(cfg: Config, raw: string) returns (c: Cache)
    requires NormalizePrefix(raw) == Some("/") && NormalizePrefix("/") == Some("") && cfg.maxBytes == 0
    requires forall i :: 0 <= i < |cfg.snapshot| ==> !StartsWith(cfg.snapshot[i].path, "/")
    ensures Reachable(cfg, Some(raw), c) && c.coverage == [""] && c.disk == Fresh().disk
  {
    ReachStart(cfg, Some(raw));
    Reach(cfg, Some(raw), Fresh(), Launch(raw));
    var launched := Act(cfg, Fresh(), Launch(raw));
    assert launched.workers == [Worker(Search("/"), Starting)] && launched.coverage == [];
    NothingUnderSlash(cfg.snapshot);
    assert Started(cfg, "/") == Written;
    var written := StartSearch(cfg, Some(raw), launched, 0, "/");
    c := MarkSearch(cfg, Some(raw), written, 0, "/");
  }

  lemma DotsAreUnsound(shape: seq<Row>, raw: string, oneWriter: bool, j: nat)
    requires OnlyDots(raw) && ShapeFits(shape) && j < |shape| && IsUnder(shape[j], "")
    ensures !AlwaysSound(shape, raw, oneWriter)
  {
    NormalizesToSlashIff(raw);
    NormalizedPrefixIsStableIff(raw);
    var cfg := Plain(shape, oneWriter);
    var c := DotsRun(cfg, raw);
    assert NormalizePrefix("") == Some("");
    MissingIsUnsound(cfg, c, "", j);
  }

  // --- The exact condition ---

  /** What the search claims to have covered. */
  function Area(raw: string): string {
    if OnlyDots(raw) || NormalizePrefix(raw).None? then "" else NormalizePrefix(raw).value
  }

  /** An eligible file in the area of the search is safe if the prefix is not made of "." alone, writers
      exclude each other, and the file is not named like another readable file's temporary one. */
  predicate FileIsSafe(shape: seq<Row>, raw: string, oneWriter: bool, j: nat)
    requires j < |shape|
  {
    !OnlyDots(raw) && oneWriter &&
    forall i :: 0 <= i < |shape| && shape[i].readable ==> shape[j].path != Tmp(shape[i].path)
  }

  predicate AllSafe(shape: seq<Row>, raw: string, oneWriter: bool) {
    forall j :: 0 <= j < |shape| && IsUnder(shape[j], Area(raw)) ==> FileIsSafe(shape, raw, oneWriter, j)
  }

  predicate MarksOnly(worker: Worker, area: string) {
    (worker.job.Search? ==> NormalizePrefix(worker.job.prefix) == Some(area)) &&
    (worker.stage.Marking? ==> forall k :: 0 <= k < |worker.stage.copy| ==> worker.stage.copy[k] == area)
  }

  predicate AllMark(c: Cache, area: string) {
    (forall k :: 0 <= k < |c.coverage| ==> c.coverage[k] == area) &&
    (forall w :: 0 <= w < |c.workers| ==> MarksOnly(c.workers[w], area))
  }

  lemma ActKeepsMarks(cfg: Config, area: string, c: Cache, move: Move)
    requires AllMark(c, area)
    requires move.Launch? && NormalizePrefix(move.raw).Some? ==>
               NormalizePrefix(NormalizePrefix(move.raw).value) == Some(area)
    ensures AllMark(Act(cfg, c, move), area)
  {
  }

  /** Searches with one path_prefix record one prefix. */
  lemma {:induction false} CoverageIsOne(cfg: Config, raw: string, moves: seq<Move>)
    requires OnlyLaunches(moves, Some(raw)) && NormalizePrefix(raw).Some?
    ensures AllMark(Run(cfg, Fresh(), moves), Area(raw)) && NormalizePrefix(Area(raw)) == Some(Area(raw))
  {
    NormalizedPrefixIsStableIff(raw);
    NormalizesToSlashIff(raw);
    if moves != [] {
      var n := |moves| - 1;
      CoverageIsOne(cfg, raw, moves[..n]);
      ActKeepsMarks(cfg, Area(raw), Run(cfg, Fresh(), moves[..n]), moves[n]);
    }
  }

  lemma NothingToLose(cfg: Config, raw: string, moves: seq<Move>)
    requires OnlyLaunches(moves, Some(raw)) && NormalizePrefix(raw).Some?
    requires forall j :: 0 <= j < |cfg.snapshot| ==> !IsUnder(cfg.snapshot[j], Area(raw))
    ensures Sound(cfg, Run(cfg, Fresh(), moves))
  {
    CoverageIsOne(cfg, raw, moves);
    var c := Run(cfg, Fresh(), moves);
    forall prefix: string, i | IsCovered(c.coverage, prefix) && 0 <= i < |cfg.snapshot|
      ensures !IsUnder(cfg.snapshot[i], NormalizePrefix(prefix).value)
    {
      if IsUnder(cfg.snapshot[i], NormalizePrefix(prefix).value) {
        UnderArea(cfg.snapshot[i], Area(raw), NormalizePrefix(prefix).value);
      }
    }
  }

  lemma SafeIsSound(shape: seq<Row>, raw: string, oneWriter: bool, cfg: Config, moves: seq<Move>)
    requires ShapeFits(shape) && AllSafe(shape, raw, oneWriter) && SameShape(cfg.snapshot, shape) &&
             cfg.oneWriter == oneWriter
    requires OnlyLaunches(moves, Some(raw))
    ensures Sound(cfg, Run(cfg, Fresh(), moves))
  {
    var area := Area(raw);
    if j :| 0 <= j < |shape| && IsUnder(shape[j], area) {
      assert FileIsSafe(shape, raw, oneWriter, j);
      assert Safe(cfg, area);
      assert AllFit(area, moves);
      CacheIsSound(cfg, area, moves);
    } else if NormalizePrefix(raw).Some? {
      NothingToLose(cfg, raw, moves);
    } else {
      NoSearches(cfg, raw, moves);
    }
  }

  predicate NoSearch(c: Cache) {
    c.coverage == [] && forall w :: 0 <= w < |c.workers| ==> c.workers[w].job.Read?
  }

  lemma ActKeepsNoSearch(cfg: Config, c: Cache, move: Move)
    requires NoSearch(c) && (move.Launch? ==> NormalizePrefix(move.raw).None?)
    ensures NoSearch(Act(cfg, c, move))
  {
  }

  /** A refused path_prefix never reaches the cache. */
  lemma {:induction false} NoSearches(cfg: Config, raw: string, moves: seq<Move>)
    requires OnlyLaunches(moves, Some(raw)) && NormalizePrefix(raw).None?
    ensures NoSearch(Run(cfg, Fresh(), moves))
  {
    if moves != [] {
      var n := |moves| - 1;
      NoSearches(cfg, raw, moves[..n]);
      ActKeepsNoSearch(cfg, Run(cfg, Fresh(), moves[..n]), moves[n]);
    }
  }

  /** For every set of files and every path_prefix: searches with that prefix, mixed with reads of any
      files, keep the cache sound for all contents and in all interleavings if and only if every eligible
      file in the area of the search is safe. */
  lemma CacheIsSoundIff(shape: seq<Row>, raw: string, oneWriter: bool)
    requires ShapeFits(shape)
    ensures AlwaysSound(shape, raw, oneWriter) <==> AllSafe(shape, raw, oneWriter) || NormalizePrefix(raw).None?
  {
    if AllSafe(shape, raw, oneWriter) || NormalizePrefix(raw).None? {
      forall cfg: Config, c: Cache |
        SameShape(cfg.snapshot, shape) && cfg.oneWriter == oneWriter && Reachable(cfg, Some(raw), c)
        ensures Sound(cfg, c)
      {
        var moves: seq<Move> :| OnlyLaunches(moves, Some(raw)) && Run(cfg, Fresh(), moves) == c;
        if NormalizePrefix(raw).None? {
          NoSearches(cfg, raw, moves);
          assert c.coverage == [];
        } else {
          SafeIsSound(shape, raw, oneWriter, cfg, moves);
        }
      }
    } else {
      var j :| 0 <= j < |shape| && IsUnder(shape[j], Area(raw)) && !FileIsSafe(shape, raw, oneWriter, j);
      NormalizedPrefixIsStableIff(raw);
      NormalizesToSlashIff(raw);
      if OnlyDots(raw) {
        DotsAreUnsound(shape, raw, oneWriter, j);
      } else if !oneWriter {
        SharedWritersAreUnsound(shape, raw, Area(raw), j);
      } else {
        var i :| 0 <= i < |shape| && shape[i].readable && shape[j].path == Tmp(shape[i].path);
        ClashIsUnsound(shape, raw, Area(raw), oneWriter, i, j);
      }
    }
  }

  // --- Without any concurrency ---

  /** After a search of `p` has covered `path` and `path.tmp`, a search of everything rewrites `path` and
      thereby takes `path.tmp` away; if it fails before it comes to that row, the file stays missing. */
  lemma RewriteLosesFile(shape: seq<Row>, p: string, i: nat, j: nat) returns (cfg: Config, c: Cache)
    requires p != "" && NormalizePrefix(p) == Some(p) && i < |shape| && j < |shape|
    requires IsUnder(shape[i], p) && IsUnder(shape[j], p) && shape[j].path == Tmp(shape[i].path)
    ensures SameShape(cfg.snapshot, shape) && cfg.oneWriter && Reachable(cfg, None, c)
    ensures c.coverage == [p] && !Sound(cfg, c) && |c.workers| == 2 && c.workers[1].stage.Failed?
  {
    cfg := Plain(shape, true);
    ReachStart(cfg, None);
    Reach(cfg, None, Fresh(), Launch(p));
    c := Act(cfg, Fresh(), Launch(p));
    assert c.workers == [Worker(Search(p), Starting)];
    NothingToStore(cfg.snapshot, Under(cfg.snapshot, p));
    c := Cover(cfg, None, c, 0, p);
    c := SecondSearch(cfg, c, p, i);
    MissingIsUnsound(cfg, c, p, j);
  }

  /** The search of everything gets as far as the row `i` that comes `k`-th. */
  lemma SecondStart(cfg: Config, c: Cache, p: string, k: nat) returns (after: Cache)
    requires Reachable(cfg, None, c) && StorageFits(cfg) && c.workers == [Worker(Search(p), Done)]
    requires c.coverage == [p] && p != "" && NormalizePrefix(p) == Some(p) && k < |Under(cfg.snapshot, "")|
    requires cfg.maxBytes == 0 && forall r :: 0 <= r < |cfg.snapshot| ==> cfg.snapshot[r].size == 0
    ensures Reachable(cfg, None, after) && after.coverage == [p]
    ensures after.workers == [Worker(Search(p), Done), Worker(Search(""), Writing(Under(cfg.snapshot, ""), k, Up))]
  {
    Reach(cfg, None, c, Launch(""));
    var launched := Act(cfg, c, Launch(""));
    assert NormalizePrefix("") == Some("");
    assert launched.workers == [Worker(Search(p), Done), Worker(Search(""), Starting)];
    NothingToStore(cfg.snapshot, Under(cfg.snapshot, ""));
    var started := StartSearch(cfg, None, launched, 1, "");
    after := WriteTo(cfg, None, started, 1, k);
  }

  lemma SecondSearch(cfg: Config, c: Cache, p: string, i: nat) returns (after: Cache)
    requires Reachable(cfg, None, c) && StorageFits(cfg) && c.workers == [Worker(Search(p), Done)]
    requires c.coverage == [p] && p != "" && NormalizePrefix(p) == Some(p) && i < |cfg.snapshot| &&
             IsUnder(cfg.snapshot[i], p)
    requires cfg.maxBytes == 0 && forall r :: 0 <= r < |cfg.snapshot| ==> cfg.snapshot[r].size == 0
    ensures Reachable(cfg, None, after) && after.coverage == [p] && Tmp(cfg.snapshot[i].path) !in after.disk.names
    ensures |after.workers| == 2 && after.workers[1].stage.Failed?
  {
    var rows := Under(cfg.snapshot, "");
    assert IsUnder(cfg.snapshot[i], "") && i in rows;
    var k :| 0 <= k < |rows| && rows[k] == i;
    var there := SecondStart(cfg, c, p, k);
    var written := WriteRow(cfg, None, there, 1);
    after := Abandon(cfg, written, 1);
  }

  lemma Abandon(cfg: Config, c: Cache, w: nat) returns (after: Cache)
    requires Reachable(cfg, None, c) && w < |c.workers| && !c.workers[w].stage.Done?
    ensures Reachable(cfg, None, after) && after.disk == c.disk && after.coverage == c.coverage
    ensures after.workers == WithStage(c, w, Failed).workers
  {
    Reach(cfg, None, c, Crash(w));
    after := Act(cfg, c, Crash(w));
  }
}
