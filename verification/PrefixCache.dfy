/** The local source cache: search_text materialises the text files under a prefix and records the
    prefix in a coverage file, read_file materialises one file.  A file is written as the code does it:
    open and truncate `<path>.tmp`, fill it, rename it over the path.  Steps of different workers
    interleave freely (the per-prefix file lock only removes interleavings), reading and rewriting the
    coverage file are separate steps, so updates of it can get lost, and a worker may fail or die
    between any two steps. */
module PrefixCache {
  import opened Wrappers
  import opened RepoPath

  /** `readable`: a text file with content that is neither binary nor large; `visible`: not a secret path. */
  datatype Row = Row(path: string, readable: bool, visible: bool, size: nat, hash: Option<nat>)

  /** One snapshot with its content digest and the cache limit.  `oneWriter` tells whether write_file
      runs of different workers exclude each other, as they do when one process owns the cache. */
  datatype Config = Config(snapshot: seq<Row>, digest: string -> nat, maxBytes: int, oneWriter: bool)

  /** A directory of names and the contents they stand for; a renamed file keeps its content's number. */
  datatype Disk = Disk(names: map<string, nat>, blobs: seq<string>)

  datatype Job = Search(prefix: string) | Read(i: nat)

  /** Inside write_file: not writing, with the opened temporary file, or with the filled one. */
  datatype Pen = Up | Open(file: nat, data: string) | Full

  datatype Stage =
    | Starting
    | Missed
    | Writing(rows: seq<nat>, next: nat, pen: Pen)
    | Written
    | Marking(copy: seq<string>)
    | Done
    | Failed

  datatype Worker = Worker(job: Job, stage: Stage)

  datatype Cache = Cache(disk: Disk, coverage: seq<string>, workers: seq<Worker>)

  datatype Move =
    | Launch(raw: string)
    | Fetch(i: nat)
    | Check(w: nat)
    | Recheck(w: nat)
    | OpenTmp(w: nat, data: string)
    | FillTmp(w: nat)
    | RenameTmp(w: nat)
    | ReadCoverage(w: nat)
    | WriteCoverage(w: nat)
    | Crash(w: nat)

  predicate HashMatches(cfg: Config, data: string, hash: Option<nat>) {
    hash.None? || cfg.digest(data) == hash.value
  }

  function Tmp(path: string): string {
    path + ".tmp"
  }

  // --- The disk ---

  /** Opening for writing: an existing file is truncated, a missing one created. */
  function Opened(disk: Disk, path: string): Disk {
    if path !in disk.names then Disk(disk.names[path := |disk.blobs|], disk.blobs + [""])
    else Filled(disk, disk.names[path], "")
  }

  function Filled(disk: Disk, file: nat, data: string): Disk {
    if file < |disk.blobs| then disk.(blobs := disk.blobs[file := data]) else disk
  }

  function Renamed(disk: Disk, from: string, to: string): Disk
    requires from in disk.names
  {
    disk.(names := (disk.names - {from})[to := disk.names[from]])
  }

  predicate Holds(disk: Disk, path: string) {
    path in disk.names && disk.names[path] < |disk.blobs|
  }

  /** Names stand for different contents. */
  predicate NoLinks(disk: Disk) {
    (forall p :: p in disk.names ==> disk.names[p] < |disk.blobs|) &&
    (forall p, q :: p in disk.names && q in disk.names && p != q ==> disk.names[p] != disk.names[q])
  }

  // --- Coverage ---

  /** `is_prefix_covered`. */
  predicate IsCovered(coverage: seq<string>, prefix: string) {
    NormalizePrefix(prefix).Some? &&
    exists k :: 0 <= k < |coverage| && NormalizePrefix(coverage[k]).Some? &&
      StartsWith(NormalizePrefix(prefix).value, NormalizePrefix(coverage[k]).value)
  }

  /** An eligible file under the prefix. */
  predicate IsUnder(row: Row, prefix: string) {
    row.readable && row.visible && StartsWith(row.path, prefix)
  }

  /** `text_files_under_prefix`: the positions of the eligible rows under the prefix. */
  function Under(rows: seq<Row>, prefix: string): (r: seq<nat>)
    ensures forall k :: 0 <= k < |r| ==> r[k] < |rows| && IsUnder(rows[r[k]], prefix)
    ensures forall i :: 0 <= i < |rows| && IsUnder(rows[i], prefix) ==> i in r
  {
    if rows == [] then []
    else
      var n := |rows| - 1;
      Under(rows[..n], prefix) + if IsUnder(rows[n], prefix) then [n] else []
  }

  function TotalSize(rows: seq<Row>, ids: seq<nat>): nat
    requires forall k :: 0 <= k < |ids| ==> ids[k] < |rows|
  {
    if ids == [] then 0 else TotalSize(rows, ids[..|ids| - 1]) + rows[ids[|ids| - 1]].size
  }

  // --- Workers ---

  function WithStage(c: Cache, w: nat, stage: Stage): Cache
    requires w < |c.workers|
  {
    c.(workers := c.workers[w := c.workers[w].(stage := stage)])
  }

  predicate IsSearch(c: Cache, w: nat) {
    w < |c.workers| && c.workers[w].job.Search?
  }

  function Checked(c: Cache, w: nat, otherwise: Stage): Cache
    requires IsSearch(c, w)
  {
    var prefix := c.workers[w].job.prefix;
    WithStage(c, w, if NormalizePrefix(prefix).None? then Failed
                    else if IsCovered(c.coverage, prefix) then Done
                    else otherwise)
  }

  /** The query and the size limit. */
  function Started(cfg: Config, prefix: string): Stage {
    var rows := Under(cfg.snapshot, prefix);
    if TotalSize(cfg.snapshot, rows) > cfg.maxBytes then Failed
    else if rows == [] then Written
    else Writing(rows, 0, Up)
  }

  predicate Writes(worker: Worker) {
    worker.stage.Writing? && !worker.stage.pen.Up?
  }

  /** The worker has a row to write. */
  predicate AtRow(cfg: Config, c: Cache, w: nat) {
    w < |c.workers| && c.workers[w].stage.Writing? && c.workers[w].stage.next < |c.workers[w].stage.rows| &&
    c.workers[w].stage.rows[c.workers[w].stage.next] < |cfg.snapshot|
  }

  function RowOf(cfg: Config, c: Cache, w: nat): Row
    requires AtRow(cfg, c, w)
  {
    cfg.snapshot[c.workers[w].stage.rows[c.workers[w].stage.next]]
  }

  predicate MayOpen(cfg: Config, c: Cache, w: nat) {
    AtRow(cfg, c, w) && c.workers[w].stage.pen.Up? &&
    (cfg.oneWriter ==> forall v :: 0 <= v < |c.workers| ==> !Writes(c.workers[v]))
  }

  /** The hash is checked before write_file is called. */
  function TmpOpened(cfg: Config, c: Cache, w: nat, data: string): Cache
    requires MayOpen(cfg, c, w)
  {
    var row, s := RowOf(cfg, c, w), c.workers[w].stage;
    if !HashMatches(cfg, data, row.hash) then WithStage(c, w, Failed)
    else
      var disk := Opened(c.disk, Tmp(row.path));
      WithStage(c, w, s.(pen := Open(disk.names[Tmp(row.path)], data))).(disk := disk)
  }

  function NextStage(job: Job, rows: seq<nat>, next: nat): Stage {
    if next + 1 < |rows| then Writing(rows, next + 1, Up) else if job.Search? then Written else Done
  }

  /** Without the temporary file the rename raises. */
  function TmpRenamed(cfg: Config, c: Cache, w: nat): Cache
    requires AtRow(cfg, c, w)
  {
    var row, s := RowOf(cfg, c, w), c.workers[w].stage;
    if Tmp(row.path) !in c.disk.names then WithStage(c, w, Failed)
    else
      WithStage(c, w, NextStage(c.workers[w].job, s.rows, s.next)).(disk := Renamed(c.disk, Tmp(row.path), row.path))
  }

  /** `Launch` is a search_text call with the given path_prefix, `Fetch` a read_file call; an unsafe
      prefix and an unreadable file are refused before the cache is reached. */
  function Act(cfg: Config, c: Cache, move: Move): Cache {
    match move
    case Launch(raw) =>
      if NormalizePrefix(raw).Some?
      then c.(workers := c.workers + [Worker(Search(NormalizePrefix(raw).value), Starting)]) else c
    case Fetch(i) =>
      if i < |cfg.snapshot| && cfg.snapshot[i].readable
      then c.(workers := c.workers + [Worker(Read(i), Starting)]) else c
    case Check(w) =>
      if w >= |c.workers| || !c.workers[w].stage.Starting? then c
      else if c.workers[w].job.Search? then Checked(c, w, Missed)
      else WithStage(c, w, if Materialised(cfg, c.disk, c.workers[w].job.i) then Done
                           else Writing([c.workers[w].job.i], 0, Up))
    case Recheck(w) =>
      if IsSearch(c, w) && c.workers[w].stage.Missed? then Checked(c, w, Started(cfg, c.workers[w].job.prefix)) else c
    case OpenTmp(w, data) => if MayOpen(cfg, c, w) then TmpOpened(cfg, c, w, data) else c
    case FillTmp(w) =>
      if AtRow(cfg, c, w) && c.workers[w].stage.pen.Open?
      then
        var s := c.workers[w].stage;
        WithStage(c, w, s.(pen := Full)).(disk := Filled(c.disk, s.pen.file, s.pen.data))
      else c
    case RenameTmp(w) => if AtRow(cfg, c, w) && c.workers[w].stage.pen.Full? then TmpRenamed(cfg, c, w) else c
    case ReadCoverage(w) =>
      if IsSearch(c, w) && c.workers[w].stage.Written? then WithStage(c, w, Marking(c.coverage)) else c
    case WriteCoverage(w) =>
      if IsSearch(c, w) && c.workers[w].stage.Marking? && NormalizePrefix(c.workers[w].job.prefix).Some?
      then
        WithStage(c, w, Done).(coverage := c.workers[w].stage.copy + [NormalizePrefix(c.workers[w].job.prefix).value])
      else c
    case Crash(w) => if w < |c.workers| && !c.workers[w].stage.Done? then WithStage(c, w, Failed) else c
  }

  function Run(cfg: Config, c: Cache, moves: seq<Move>): Cache {
    if moves == [] then c else Act(cfg, Run(cfg, c, moves[..|moves| - 1]), moves[|moves| - 1])
  }

  function Fresh(): Cache {
    Cache(Disk(map[], []), [], [])
  }

  // --- Soundness ---

  predicate UniquePaths(rows: seq<Row>) {
    forall i, j :: 0 <= i < j < |rows| ==> rows[i].path != rows[j].path
  }

  predicate Materialised(cfg: Config, disk: Disk, i: nat) {
    i < |cfg.snapshot| && Holds(disk, cfg.snapshot[i].path) &&
    HashMatches(cfg, disk.blobs[disk.names[cfg.snapshot[i].path]], cfg.snapshot[i].hash)
  }

  predicate Complete(cfg: Config, disk: Disk, prefix: string) {
    forall i :: 0 <= i < |cfg.snapshot| && IsUnder(cfg.snapshot[i], prefix) ==> Materialised(cfg, disk, i)
  }

  /** Every prefix reported as covered has all its files in place, with content of the right hash. */
  ghost predicate Sound(cfg: Config, c: Cache) {
    forall prefix: string :: IsCovered(c.coverage, prefix) ==> Complete(cfg, c.disk, NormalizePrefix(prefix).value)
  }

  /** No eligible file under `area` is another readable file's temporary name. */
  predicate TmpFree(rows: seq<Row>, area: string) {
    forall i, j :: 0 <= i < |rows| && 0 <= j < |rows| && rows[i].readable && IsUnder(rows[j], area) ==>
      rows[j].path != Tmp(rows[i].path)
  }

  /** A stable prefix within the area. */
  predicate PrefixFits(area: string, prefix: string) {
    NormalizePrefix(prefix) == Some(prefix) && StartsWith(prefix, area)
  }

  predicate Entries(cfg: Config, area: string, disk: Disk, coverage: seq<string>) {
    forall k :: 0 <= k < |coverage| ==> PrefixFits(area, coverage[k]) && Complete(cfg, disk, coverage[k])
  }

  /** The rows that a worker writes are readable, and those it has done are in place. */
  predicate RowsFit(cfg: Config, area: string, disk: Disk, job: Job, rows: seq<nat>, next: nat) {
    next < |rows| && (forall k :: 0 <= k < |rows| ==> rows[k] < |cfg.snapshot| && cfg.snapshot[rows[k]].readable) &&
    (job.Search? ==>
      rows == Under(cfg.snapshot, job.prefix) && forall k :: 0 <= k < next ==> Materialised(cfg, disk, rows[k]))
  }

  /** The temporary file belongs to the one who writes it and holds what it was filled with. */
  predicate PenFits(cfg: Config, disk: Disk, row: Row, pen: Pen) {
    match pen
    case Up => true
    case Open(file, data) =>
      Holds(disk, Tmp(row.path)) && disk.names[Tmp(row.path)] == file && HashMatches(cfg, data, row.hash)
    case Full => Holds(disk, Tmp(row.path)) && HashMatches(cfg, disk.blobs[disk.names[Tmp(row.path)]], row.hash)
  }

  predicate JobFits(cfg: Config, area: string, job: Job) {
    (job.Search? ==> PrefixFits(area, job.prefix)) &&
    (job.Read? ==> job.i < |cfg.snapshot| && cfg.snapshot[job.i].readable)
  }

  predicate WorkerInv(cfg: Config, area: string, disk: Disk, worker: Worker) {
    JobFits(cfg, area, worker.job) &&
    match worker.stage
    case Writing(rows, next, pen) =>
      RowsFit(cfg, area, disk, worker.job, rows, next) && PenFits(cfg, disk, cfg.snapshot[rows[next]], pen)
    case Written => worker.job.Search? ==> Complete(cfg, disk, worker.job.prefix)
    case Marking(copy) =>
      worker.job.Search? ==> Complete(cfg, disk, worker.job.prefix) && Entries(cfg, area, disk, copy)
    case Done => worker.job.Search? ==> Complete(cfg, disk, worker.job.prefix)
    case _ => true
  }

  predicate OnePen(workers: seq<Worker>) {
    forall v, w :: 0 <= v < w < |workers| ==> !Writes(workers[v]) || !Writes(workers[w])
  }

  predicate CacheInv(cfg: Config, area: string, c: Cache) {
    NoLinks(c.disk) && OnePen(c.workers) && Entries(cfg, area, c.disk, c.coverage) &&
    forall w :: 0 <= w < |c.workers| ==> WorkerInv(cfg, area, c.disk, c.workers[w])
  }

  /** Eligible files of the area that are in place stay in place. */
  predicate FilesKept(cfg: Config, area: string, disk: Disk, after: Disk) {
    forall i :: 0 <= i < |cfg.snapshot| && IsUnder(cfg.snapshot[i], area) && Materialised(cfg, disk, i) ==>
      Materialised(cfg, after, i)
  }

  lemma UnderArea(row: Row, area: string, prefix: string)
    requires IsUnder(row, prefix) && StartsWith(prefix, area)
    ensures IsUnder(row, area)
  {
  }

  lemma EntriesStay(cfg: Config, area: string, disk: Disk, after: Disk, coverage: seq<string>)
    requires FilesKept(cfg, area, disk, after) && Entries(cfg, area, disk, coverage)
    ensures Entries(cfg, area, after, coverage)
  {
    forall k | 0 <= k < |coverage|
      ensures Complete(cfg, after, coverage[k])
    {
      CompleteStays(cfg, area, disk, after, coverage[k]);
    }
  }

  lemma CompleteStays(cfg: Config, area: string, disk: Disk, after: Disk, prefix: string)
    requires FilesKept(cfg, area, disk, after) && Complete(cfg, disk, prefix) && StartsWith(prefix, area)
    ensures Complete(cfg, after, prefix)
  {
    forall i | 0 <= i < |cfg.snapshot| && IsUnder(cfg.snapshot[i], prefix)
      ensures Materialised(cfg, after, i)
    {
      UnderArea(cfg.snapshot[i], area, prefix);
    }
  }

  lemma RowsStay(cfg: Config, area: string, disk: Disk, after: Disk, job: Job, rows: seq<nat>, next: nat)
    requires FilesKept(cfg, area, disk, after) && RowsFit(cfg, area, disk, job, rows, next)
    requires job.Search? ==> StartsWith(job.prefix, area)
    ensures RowsFit(cfg, area, after, job, rows, next)
  {
    if job.Search? {
      forall k | 0 <= k < next
        ensures Materialised(cfg, after, rows[k])
      {
        UnderArea(cfg.snapshot[rows[k]], area, job.prefix);
      }
    }
  }

  /** A worker that is not writing keeps its invariant when files are kept. */
  lemma WorkerStays(cfg: Config, area: string, disk: Disk, after: Disk, worker: Worker)
    requires FilesKept(cfg, area, disk, after) && WorkerInv(cfg, area, disk, worker) && !Writes(worker)
    ensures WorkerInv(cfg, area, after, worker)
  {
    if worker.stage.Writing? {
      RowsStay(cfg, area, disk, after, worker.job, worker.stage.rows, worker.stage.next);
    } else if worker.job.Search? {
      if worker.stage.Marking? {
        EntriesStay(cfg, area, disk, after, worker.stage.copy);
      }
      if worker.stage.Written? || worker.stage.Marking? || worker.stage.Done? {
        CompleteStays(cfg, area, disk, after, worker.job.prefix);
      }
    }
  }

  // --- The three steps of write_file ---

  lemma OpenKeepsFiles(cfg: Config, area: string, disk: Disk, path: string)
    requires NoLinks(disk)
    requires forall j :: 0 <= j < |cfg.snapshot| && IsUnder(cfg.snapshot[j], area) ==> cfg.snapshot[j].path != path
    ensures NoLinks(Opened(disk, path)) && FilesKept(cfg, area, disk, Opened(disk, path)) &&
            Holds(Opened(disk, path), path)
  {
  }

  lemma FillKeepsFiles(cfg: Config, area: string, disk: Disk, path: string, data: string)
    requires NoLinks(disk) && Holds(disk, path)
    requires forall j :: 0 <= j < |cfg.snapshot| && IsUnder(cfg.snapshot[j], area) ==> cfg.snapshot[j].path != path
    ensures var after := Filled(disk, disk.names[path], data);
            NoLinks(after) && FilesKept(cfg, area, disk, after) && Holds(after, path) &&
            after.blobs[after.names[path]] == data
  {
  }

  lemma RenameKeepsFiles(cfg: Config, area: string, disk: Disk, i: nat)
    requires NoLinks(disk) && UniquePaths(cfg.snapshot) && i < |cfg.snapshot| && Tmp(cfg.snapshot[i].path) in disk.names
    requires forall j :: 0 <= j < |cfg.snapshot| && IsUnder(cfg.snapshot[j], area) ==>
               cfg.snapshot[j].path != Tmp(cfg.snapshot[i].path)
    requires HashMatches(cfg, disk.blobs[disk.names[Tmp(cfg.snapshot[i].path)]], cfg.snapshot[i].hash)
    ensures var after := Renamed(disk, Tmp(cfg.snapshot[i].path), cfg.snapshot[i].path);
            NoLinks(after) && FilesKept(cfg, area, disk, after) && Materialised(cfg, after, i)
  {
    var after := Renamed(disk, Tmp(cfg.snapshot[i].path), cfg.snapshot[i].path);
    forall j | 0 <= j < |cfg.snapshot| && IsUnder(cfg.snapshot[j], area) && Materialised(cfg, disk, j)
      ensures Materialised(cfg, after, j)
    {
      if j != i {
        assert cfg.snapshot[j].path != cfg.snapshot[i].path;
      }
    }
  }

  /** Only the acting worker needs a look when the files are kept. */
  lemma InvFromActor(cfg: Config, area: string, c: Cache, after: Cache, w: nat)
    requires CacheInv(cfg, area, c) && w < |c.workers| == |after.workers| && after.coverage == c.coverage
    requires forall v :: 0 <= v < |c.workers| && v != w ==> after.workers[v] == c.workers[v] && !Writes(c.workers[v])
    requires NoLinks(after.disk) && FilesKept(cfg, area, c.disk, after.disk)
    requires WorkerInv(cfg, area, after.disk, after.workers[w])
    ensures CacheInv(cfg, area, after)
  {
    EntriesStay(cfg, area, c.disk, after.disk, c.coverage);
    forall v | 0 <= v < |c.workers| && v != w
      ensures WorkerInv(cfg, area, after.disk, after.workers[v])
    {
      WorkerStays(cfg, area, c.disk, after.disk, c.workers[v]);
    }
  }

  predicate Safe(cfg: Config, area: string) {
    cfg.oneWriter && UniquePaths(cfg.snapshot) && TmpFree(cfg.snapshot, area)
  }

  lemma OpenKeepsInv(cfg: Config, area: string, c: Cache, w: nat, data: string)
    requires CacheInv(cfg, area, c) && Safe(cfg, area) && MayOpen(cfg, c, w) &&
             HashMatches(cfg, data, RowOf(cfg, c, w).hash)
    ensures CacheInv(cfg, area, TmpOpened(cfg, c, w, data))
  {
    var row, s := RowOf(cfg, c, w), c.workers[w].stage;
    var after := TmpOpened(cfg, c, w, data);
    assert WorkerInv(cfg, area, c.disk, c.workers[w]);
    OpenKeepsFiles(cfg, area, c.disk, Tmp(row.path));
    RowsStay(cfg, area, c.disk, after.disk, c.workers[w].job, s.rows, s.next);
    InvFromActor(cfg, area, c, after, w);
  }

  lemma FillKeepsInv(cfg: Config, area: string, c: Cache, w: nat)
    requires CacheInv(cfg, area, c) && Safe(cfg, area) && AtRow(cfg, c, w) && c.workers[w].stage.pen.Open?
    ensures CacheInv(cfg, area, Act(cfg, c, FillTmp(w)))
  {
    var row, s := RowOf(cfg, c, w), c.workers[w].stage;
    var after := Act(cfg, c, FillTmp(w));
    assert WorkerInv(cfg, area, c.disk, c.workers[w]);
    FillKeepsFiles(cfg, area, c.disk, Tmp(row.path), s.pen.data);
    RowsStay(cfg, area, c.disk, after.disk, c.workers[w].job, s.rows, s.next);
    InvFromActor(cfg, area, c, after, w);
  }

  lemma WrittenIsComplete(cfg: Config, disk: Disk, prefix: string)
    requires forall k :: 0 <= k < |Under(cfg.snapshot, prefix)| ==>
               Materialised(cfg, disk, Under(cfg.snapshot, prefix)[k])
    ensures Complete(cfg, disk, prefix)
  {
    var rows := Under(cfg.snapshot, prefix);
    forall i | 0 <= i < |cfg.snapshot| && IsUnder(cfg.snapshot[i], prefix)
      ensures Materialised(cfg, disk, i)
    {
      var k :| 0 <= k < |rows| && rows[k] == i;
    }
  }

  /** With one more row in place the worker goes on to the next, or is done writing. */
  lemma NextStageFits(cfg: Config, area: string, disk: Disk, job: Job, rows: seq<nat>, next: nat)
    requires JobFits(cfg, area, job) && RowsFit(cfg, area, disk, job, rows, next) && Materialised(cfg, disk, rows[next])
    ensures WorkerInv(cfg, area, disk, Worker(job, NextStage(job, rows, next)))
  {
    if job.Search? && next + 1 == |rows| {
      WrittenIsComplete(cfg, disk, job.prefix);
    }
  }

  lemma RenameKeepsInv(cfg: Config, area: string, c: Cache, w: nat)
    requires CacheInv(cfg, area, c) && Safe(cfg, area) && AtRow(cfg, c, w) && c.workers[w].stage.pen.Full?
    ensures CacheInv(cfg, area, TmpRenamed(cfg, c, w))
  {
    var s, job := c.workers[w].stage, c.workers[w].job;
    var after := TmpRenamed(cfg, c, w);
    assert WorkerInv(cfg, area, c.disk, c.workers[w]);
    RenameKeepsFiles(cfg, area, c.disk, s.rows[s.next]);
    RowsStay(cfg, area, c.disk, after.disk, job, s.rows, s.next);
    NextStageFits(cfg, area, after.disk, job, s.rows, s.next);
    assert after.workers[w] == Worker(job, NextStage(job, s.rows, s.next));
    InvFromActor(cfg, area, c, after, w);
  }

  // --- The other steps ---

  lemma CoveredIsComplete(cfg: Config, area: string, disk: Disk, coverage: seq<string>, prefix: string)
    requires Entries(cfg, area, disk, coverage) && IsCovered(coverage, prefix)
    ensures Complete(cfg, disk, NormalizePrefix(prefix).value)
  {
  }

  /** A worker changes its own stage only. */
  lemma StageKeepsInv(cfg: Config, area: string, c: Cache, w: nat, stage: Stage)
    requires CacheInv(cfg, area, c) && w < |c.workers| && WorkerInv(cfg, area, c.disk, c.workers[w].(stage := stage))
    requires stage.Writing? ==> stage.pen.Up?
    ensures CacheInv(cfg, area, WithStage(c, w, stage))
  {
  }

  lemma CheckedKeepsInv(cfg: Config, area: string, c: Cache, w: nat, otherwise: Stage)
    requires CacheInv(cfg, area, c) && IsSearch(c, w) && WorkerInv(cfg, area, c.disk, c.workers[w].(stage := otherwise))
    requires otherwise.Writing? ==> otherwise.pen.Up?
    ensures CacheInv(cfg, area, Checked(c, w, otherwise))
  {
    var prefix := c.workers[w].job.prefix;
    assert WorkerInv(cfg, area, c.disk, c.workers[w]);
    if IsCovered(c.coverage, prefix) {
      CoveredIsComplete(cfg, area, c.disk, c.coverage, prefix);
    }
    StageKeepsInv(cfg, area, c, w, Checked(c, w, otherwise).workers[w].stage);
  }

  lemma StartedFits(cfg: Config, area: string, disk: Disk, prefix: string)
    requires PrefixFits(area, prefix)
    ensures WorkerInv(cfg, area, disk, Worker(Search(prefix), Started(cfg, prefix)))
  {
  }

  lemma CheckKeepsInv(cfg: Config, area: string, c: Cache, w: nat)
    requires CacheInv(cfg, area, c)
    ensures CacheInv(cfg, area, Act(cfg, c, Check(w)))
  {
    if w < |c.workers| && c.workers[w].stage.Starting? {
      assert WorkerInv(cfg, area, c.disk, c.workers[w]);
      if c.workers[w].job.Search? {
        CheckedKeepsInv(cfg, area, c, w, Missed);
      } else {
        StageKeepsInv(cfg, area, c, w, Act(cfg, c, Check(w)).workers[w].stage);
      }
    }
  }

  lemma RecheckKeepsInv(cfg: Config, area: string, c: Cache, w: nat)
    requires CacheInv(cfg, area, c)
    ensures CacheInv(cfg, area, Act(cfg, c, Recheck(w)))
  {
    if IsSearch(c, w) && c.workers[w].stage.Missed? {
      assert WorkerInv(cfg, area, c.disk, c.workers[w]);
      StartedFits(cfg, area, c.disk, c.workers[w].job.prefix);
      CheckedKeepsInv(cfg, area, c, w, Started(cfg, c.workers[w].job.prefix));
    }
  }

  lemma ReadCoverageKeepsInv(cfg: Config, area: string, c: Cache, w: nat)
    requires CacheInv(cfg, area, c)
    ensures CacheInv(cfg, area, Act(cfg, c, ReadCoverage(w)))
  {
    if IsSearch(c, w) && c.workers[w].stage.Written? {
      assert WorkerInv(cfg, area, c.disk, c.workers[w]);
      StageKeepsInv(cfg, area, c, w, Marking(c.coverage));
    }
  }

  /** Rewriting the coverage file from an old copy loses entries but adds no unsound one. */
  lemma WriteCoverageKeepsInv(cfg: Config, area: string, c: Cache, w: nat)
    requires CacheInv(cfg, area, c)
    ensures CacheInv(cfg, area, Act(cfg, c, WriteCoverage(w)))
  {
    if IsSearch(c, w) && c.workers[w].stage.Marking? {
      assert WorkerInv(cfg, area, c.disk, c.workers[w]);
      StageKeepsInv(cfg, area, c, w, Done);
    }
  }

  lemma CrashKeepsInv(cfg: Config, area: string, c: Cache, w: nat)
    requires CacheInv(cfg, area, c)
    ensures CacheInv(cfg, area, Act(cfg, c, Crash(w)))
  {
    if w < |c.workers| {
      assert WorkerInv(cfg, area, c.disk, c.workers[w]);
      StageKeepsInv(cfg, area, c, w, Failed);
    }
  }

  /** A search whose prefix is not made of "." alone and lies within the area. */
  predicate LaunchFits(area: string, move: Move) {
    move.Launch? && NormalizePrefix(move.raw).Some? ==>
      !OnlyDots(move.raw) && StartsWith(NormalizePrefix(move.raw).value, area)
  }

  lemma ArrivalKeepsInv(cfg: Config, area: string, c: Cache, move: Move)
    requires CacheInv(cfg, area, c) && (move.Launch? || move.Fetch?) && LaunchFits(area, move)
    ensures CacheInv(cfg, area, Act(cfg, c, move))
  {
    if move.Launch? && NormalizePrefix(move.raw).Some? {
      NormalizesToSlashIff(move.raw);
      NormalizedPrefixIsStableIff(move.raw);
    }
  }

  lemma WriteKeepsInv(cfg: Config, area: string, c: Cache, move: Move)
    requires CacheInv(cfg, area, c) && Safe(cfg, area) && (move.OpenTmp? || move.FillTmp? || move.RenameTmp?)
    ensures CacheInv(cfg, area, Act(cfg, c, move))
  {
    if move.OpenTmp? && MayOpen(cfg, c, move.w) {
      if HashMatches(cfg, move.data, RowOf(cfg, c, move.w).hash) {
        OpenKeepsInv(cfg, area, c, move.w, move.data);
      } else {
        CrashKeepsInv(cfg, area, c, move.w);
      }
    }
    if move.FillTmp? && AtRow(cfg, c, move.w) && c.workers[move.w].stage.pen.Open? {
      FillKeepsInv(cfg, area, c, move.w);
    }
    if move.RenameTmp? && AtRow(cfg, c, move.w) && c.workers[move.w].stage.pen.Full? {
      RenameKeepsInv(cfg, area, c, move.w);
    }
  }

  lemma ActKeepsCacheInv(cfg: Config, area: string, c: Cache, move: Move)
    requires CacheInv(cfg, area, c) && Safe(cfg, area) && LaunchFits(area, move)
    ensures CacheInv(cfg, area, Act(cfg, c, move))
  {
    match move
    case Launch(_) => ArrivalKeepsInv(cfg, area, c, move);
    case Fetch(_) => ArrivalKeepsInv(cfg, area, c, move);
    case Check(w) => CheckKeepsInv(cfg, area, c, w);
    case Recheck(w) => RecheckKeepsInv(cfg, area, c, w);
    case ReadCoverage(w) => ReadCoverageKeepsInv(cfg, area, c, w);
    case WriteCoverage(w) => WriteCoverageKeepsInv(cfg, area, c, w);
    case Crash(w) => CrashKeepsInv(cfg, area, c, w);
    case _ => WriteKeepsInv(cfg, area, c, move);
  }

  /** With one writer at a time and no eligible file named like a temporary one, in every interleaving of
      searches and reads, with lost coverage updates, failures and crashes between any two steps of
      write_file, coverage is sound and a search that returned has its prefix complete. */
  lemma {:induction false} CacheIsSound(cfg: Config, area: string, moves: seq<Move>)
    requires Safe(cfg, area)
    ensures AllFit(area, moves) ==>
              CacheInv(cfg, area, Run(cfg, Fresh(), moves)) && Sound(cfg, Run(cfg, Fresh(), moves))
  {
    if AllFit(area, moves) {
      if moves != [] {
        var n := |moves| - 1;
        CacheIsSound(cfg, area, moves[..n]);
        ActKeepsCacheInv(cfg, area, Run(cfg, Fresh(), moves[..n]), moves[n]);
      }
      InvIsSound(cfg, area, Run(cfg, Fresh(), moves));
    }
  }

  /** Every search of the run fits the area. */
  predicate AllFit(area: string, moves: seq<Move>) {
    forall k :: 0 <= k < |moves| ==> LaunchFits(area, moves[k])
  }

  lemma InvIsSound(cfg: Config, area: string, c: Cache)
    requires CacheInv(cfg, area, c)
    ensures Sound(cfg, c)
  {
    forall prefix: string | IsCovered(c.coverage, prefix)
      ensures Complete(cfg, c.disk, NormalizePrefix(prefix).value)
    {
      CoveredIsComplete(cfg, area, c.disk, c.coverage, prefix);
    }
  }
}
