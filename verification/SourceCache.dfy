/** One uninterrupted call of the source cache, statement by statement. */
module SourceCache {
  import opened Wrappers
  import opened RepoPath
  import opened PrefixCache

  function TotalLength(data: seq<string>): nat {
    if data == [] then 0 else TotalLength(data[..|data| - 1]) + |data[|data| - 1]|
  }

  /** Every eligible file of the area that was in place still is. */
  predicate Keeps(cfg: Config, area: string, disk: Disk, after: Disk) {
    TmpFree(cfg.snapshot, area) ==> FilesKept(cfg, area, disk, after)
  }

  predicate AllReadable(cfg: Config, rows: seq<nat>) {
    forall k :: 0 <= k < |rows| ==> rows[k] < |cfg.snapshot| && cfg.snapshot[rows[k]].readable
  }

  /** The first `n` rows are in place, if they belong to an area free of temporary names. */
  predicate InPlace(cfg: Config, area: string, disk: Disk, rows: seq<nat>, n: nat)
    requires AllReadable(cfg, rows) && n <= |rows|
  {
    TmpFree(cfg.snapshot, area) ==>
      forall k :: 0 <= k < n && IsUnder(cfg.snapshot[rows[k]], area) ==> Materialised(cfg, disk, rows[k])
  }

  /** The files under the prefix are within the cache limit. */
  predicate Affordable(cfg: Config, prefix: string) {
    TotalSize(cfg.snapshot, Under(cfg.snapshot, prefix)) <= cfg.maxBytes
  }

  /** Storage returned for every row either content of the row's hash, or the row names none. */
  predicate AllHashed(cfg: Config, prefix: string, data: seq<string>)
    requires |data| == |Under(cfg.snapshot, prefix)|
  {
    var rows := Under(cfg.snapshot, prefix);
    forall k :: 0 <= k < |rows| ==>
      match cfg.snapshot[rows[k]].hash
      case None => true
      case Some(hash) => cfg.digest(data[k]) == hash
  }

  /** Sizes add up over any split of the rows. */
  lemma {:induction false} TotalSizeAdds(rows: seq<Row>, first: seq<nat>, second: seq<nat>, i: nat)
    requires forall k :: 0 <= k < |first| ==> first[k] < |rows|
    requires forall k :: 0 <= k < |second| ==> second[k] < |rows|
    requires i < |rows|
    ensures TotalSize(rows, first + second) == TotalSize(rows, first) + TotalSize(rows, second)
    ensures TotalSize(rows, [i]) == rows[i].size
  {
    assert [i][..0] == [];
    if second == [] {
      assert first + second == first;
    } else {
      var n := |second| - 1;
      TotalSizeAdds(rows, first, second[..n], i);
      assert (first + second)[..|first + second| - 1] == first + second[..n];
    }
  }

  class LocalCache {
    var names: map<string, nat>
    var blobs: seq<string>
    var coverage: seq<string>

    ghost function Model(): Disk
      reads this
    {
      Disk(names, blobs)
    }

    constructor ()
      ensures Model() == Fresh().disk && coverage == []
    {
      names, blobs, coverage := map[], [], [];
    }

    /** `write_file`: the content goes to the temporary name first, and whatever stood there is gone. */
    method WriteFile(path: string, data: string)
      requires NoLinks(Model())
      modifies this`names, this`blobs
      ensures NoLinks(Model()) && Holds(Model(), path) && blobs[names[path]] == data && Tmp(path) !in names
      ensures forall q :: q in old(names) && q != path && q != Tmp(path) ==>
                q in names && names[q] == old(names)[q] && blobs[names[q]] == old(blobs)[old(names)[q]]
      ensures |blobs| >= |old(blobs)|
    {
      var tmp := Tmp(path);
      assert |tmp| > |path|;
      var file := |blobs|;
      if tmp in names {
        file := names[tmp];
        blobs := blobs[file := ""];
      } else {
        names := names[tmp := file];
        blobs := blobs + [""];
      }
      blobs := blobs[file := data];
      names := (names - {tmp})[path := file];
    }

    /** One row: other eligible files stay in place unless one is named like this row's temporary file. */
    method WriteRow(cfg: Config, area: string, i: nat, data: string)
      requires NoLinks(Model()) && UniquePaths(cfg.snapshot) && i < |cfg.snapshot| && cfg.snapshot[i].readable
      requires HashMatches(cfg, data, cfg.snapshot[i].hash)
      modifies this`names, this`blobs
      ensures NoLinks(Model()) && Keeps(cfg, area, old(Model()), Model()) && Materialised(cfg, Model(), i)
    {
      WriteFile(cfg.snapshot[i].path, data);
      forall j | 0 <= j < |cfg.snapshot| && j != i
        ensures cfg.snapshot[j].path != cfg.snapshot[i].path
      {
      }
    }

    /** Fetches, checks and writes the rows one by one; `data[k]` is what storage returns for row `k`. */
    method WriteRows(cfg: Config, area: string, rows: seq<nat>, data: seq<string>) returns (ok: bool, total: nat)
      requires NoLinks(Model()) && UniquePaths(cfg.snapshot) && |data| == |rows| && AllReadable(cfg, rows)
      modifies this`names, this`blobs
      ensures NoLinks(Model()) && Keeps(cfg, area, old(Model()), Model())
      ensures ok <==> forall k :: 0 <= k < |rows| ==> HashMatches(cfg, data[k], cfg.snapshot[rows[k]].hash)
      ensures ok ==> total == TotalLength(data) && InPlace(cfg, area, Model(), rows, |rows|)
    {
      ok, total := true, 0;
      for n := 0 to |rows|
        invariant ok && NoLinks(Model()) && Keeps(cfg, area, old(Model()), Model()) && total == TotalLength(data[..n])
        invariant InPlace(cfg, area, Model(), rows, n)
        invariant forall k :: 0 <= k < n ==> HashMatches(cfg, data[k], cfg.snapshot[rows[k]].hash)
      {
        if !HashMatches(cfg, data[n], cfg.snapshot[rows[n]].hash) {
          return false, total;
        }
        WriteRow(cfg, area, rows[n], data[n]);
        total := total + |data[n]|;
        assert data[..n + 1][..n] == data[..n];
      }
      assert data[..|rows|] == data;
    }

    /** `_ensure_prefix` with a normalised prefix.  In a snapshot without eligible temporary names success
        means covered and complete, and no covered prefix is ever hurt, failures included. */
    method EnsurePrefix(cfg: Config, prefix: string, data: seq<string>) returns (ok: bool, fileCount: nat, bytes: nat)
      requires NoLinks(Model()) && UniquePaths(cfg.snapshot) && NormalizePrefix(prefix) == Some(prefix)
      requires |data| == |Under(cfg.snapshot, prefix)| && Entries(cfg, "", Model(), coverage)
      modifies this
      ensures NoLinks(Model()) && Keeps(cfg, "", old(Model()), Model())
      ensures TmpFree(cfg.snapshot, "") ==> Entries(cfg, "", Model(), coverage)
      ensures TmpFree(cfg.snapshot, "") && ok ==> Complete(cfg, Model(), prefix)
      ensures ok ==> IsCovered(coverage, prefix)
      ensures ok <==> old(IsCovered(coverage, prefix)) || (Affordable(cfg, prefix) && AllHashed(cfg, prefix, data))
      ensures !ok ==> coverage == old(coverage)
      ensures old(IsCovered(coverage, prefix)) ==> ok && coverage == old(coverage) && Model() == old(Model())
      ensures ok && !old(IsCovered(coverage, prefix)) ==>
                coverage == old(coverage) + [prefix] && fileCount == |data| && bytes == TotalLength(data)
    {
      fileCount, bytes := 0, 0;
      if IsCovered(coverage, prefix) {
        CoveredIsComplete(cfg, "", Model(), coverage, prefix);
        return true, 0, 0;
      }
      var rows := Under(cfg.snapshot, prefix);
      if TotalSize(cfg.snapshot, rows) > cfg.maxBytes {
        return false, 0, 0;
      }
      ok, bytes := WriteRows(cfg, "", rows, data);
      if TmpFree(cfg.snapshot, "") {
        EntriesStay(cfg, "", old(Model()), Model(), coverage);
      }
      if ok {
        if TmpFree(cfg.snapshot, "") {
          WrittenIsComplete(cfg, Model(), prefix);
        }
        fileCount := |rows|;
        coverage := coverage + [prefix];
        assert coverage[|coverage| - 1] == prefix;
      }
    }
  }
}
