/** What the source cache's workers make of what they find: hits, refusals and the end of each job. */
module CacheSteps {
  import opened Wrappers
  import opened RepoPath
  import opened PrefixCache

  predicate Moved(c: Cache, after: Cache, w: nat, stage: Stage) {
    w < |c.workers| && after == c.(workers := c.workers[w := Worker(c.workers[w].job, stage)])
  }

  /** The prefix starts with a covered one. */
  predicate Hit(coverage: seq<string>, prefix: string) {
    exists covered :: covered in coverage && NormalizePrefix(covered).Some? && NormalizePrefix(covered).value <= prefix
  }

  lemma HitIsCovered(coverage: seq<string>, prefix: string)
    requires NormalizePrefix(prefix) == Some(prefix)
    ensures Hit(coverage, prefix) <==> IsCovered(coverage, prefix)
  {
    if Hit(coverage, prefix) {
      var covered :| covered in coverage && NormalizePrefix(covered).Some? && NormalizePrefix(covered).value <= prefix;
      var k :| 0 <= k < |coverage| && coverage[k] == covered;
      assert StartsWith(prefix, NormalizePrefix(coverage[k]).value);
    }
  }

  /** A search looks at the coverage twice and is done at once on a hit; before it writes it refuses more
      than the limit, and with nothing under the prefix it goes straight to the mark. */
  lemma SearchLooks(cfg: Config, c: Cache, w: nat)
    requires IsSearch(c, w) && NormalizePrefix(c.workers[w].job.prefix) == Some(c.workers[w].job.prefix)
    ensures var prefix := c.workers[w].job.prefix;
            var rows := Under(cfg.snapshot, prefix);
            (c.workers[w].stage.Starting? ==>
              Moved(c, Act(cfg, c, Check(w)), w, if Hit(c.coverage, prefix) then Done else Missed)) &&
            (c.workers[w].stage.Missed? ==>
              Moved(c, Act(cfg, c, Recheck(w)), w,
                    if Hit(c.coverage, prefix) then Done
                    else if TotalSize(cfg.snapshot, rows) > cfg.maxBytes then Failed
                    else if |rows| == 0 then Written
                    else Writing(rows, 0, Up)))
  {
    HitIsCovered(c.coverage, c.workers[w].job.prefix);
  }

  /** What is searched is a normalised prefix or fails. */
  lemma UnsafePrefixFails(cfg: Config, c: Cache, w: nat)
    requires IsSearch(c, w) && NormalizePrefix(c.workers[w].job.prefix) == None && c.workers[w].stage.Starting?
    ensures Moved(c, Act(cfg, c, Check(w)), w, Failed)
  {
  }

  /** A read is done at once if the file is in place with the right content, and writes it otherwise. */
  lemma ReadLooks(cfg: Config, c: Cache, w: nat)
    requires w < |c.workers| && c.workers[w].job.Read? && c.workers[w].stage.Starting?
    requires c.workers[w].job.i < |cfg.snapshot|
    ensures var i := c.workers[w].job.i;
            var row := cfg.snapshot[i];
            Moved(c, Act(cfg, c, Check(w)), w,
                  if row.path in c.disk.names && c.disk.names[row.path] < |c.disk.blobs| &&
                     (row.hash.Some? ==> cfg.digest(c.disk.blobs[c.disk.names[row.path]]) == row.hash.value)
                  then Done else Writing([i], 0, Up))
  {
  }

  /** Content of another hash is refused before anything is written. */
  lemma WrongContentFails(cfg: Config, c: Cache, w: nat, data: string)
    requires MayOpen(cfg, c, w) && RowOf(cfg, c, w).hash.Some? && cfg.digest(data) != RowOf(cfg, c, w).hash.value
    ensures Moved(c, Act(cfg, c, OpenTmp(w, data)), w, Failed)
  {
  }

  /** Opening truncates the file that has the name, whoever else writes to it, or makes a new one; no other
      content and no other name changes. */
  lemma OpenTruncates(disk: Disk, path: string, q: string)
    requires NoLinks(disk)
    ensures var after := Opened(disk, path);
            NoLinks(after) && path in after.names && after.blobs[after.names[path]] == "" &&
            (path in disk.names ==> after.names == disk.names && |after.blobs| == |disk.blobs|) &&
            (q in disk.names && q != path ==>
              q in after.names && after.names[q] == disk.names[q] &&
              after.blobs[after.names[q]] == disk.blobs[disk.names[q]]) &&
            (q !in disk.names && q != path ==> q !in after.names)
  {
  }

  /** The rename puts the temporary file over the path, whatever it holds by then, and the worker goes on
      to the next row, to the mark or to its end; without a temporary file it fails. */
  lemma RenameEndsRow(cfg: Config, c: Cache, w: nat)
    requires AtRow(cfg, c, w) && c.workers[w].stage.pen.Full?
    ensures var path := RowOf(cfg, c, w).path;
            var s, after := c.workers[w].stage, Act(cfg, c, RenameTmp(w));
            if path + ".tmp" !in c.disk.names then Moved(c, after, w, Failed)
            else
              after.coverage == c.coverage && after.disk.blobs == c.disk.blobs &&
              after.disk.names == (c.disk.names - {path + ".tmp"})[path := c.disk.names[path + ".tmp"]] &&
              Moved(c, after.(disk := c.disk), w,
                    if s.next + 1 < |s.rows| then Writing(s.rows, s.next + 1, Up)
                    else if c.workers[w].job.Search? then Written
                    else Done)
  {
  }
}
