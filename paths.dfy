/** The `folders_map` that `run` fills (quark.py:228-231, 266-271) and the
    walk up its `pdir_fid` links that builds a download's folder path
    (quark.py:394-406). */
module Paths {
  import opened Wrappers
  import opened Text
  import opened Listing

  /** The value `folders_map` keeps for a folder. */
  datatype FolderEntry = FolderEntry(fileName: string, pdirFid: string)

  /** `fid -> {file_name, pdir_fid}`. */
  type FolderMap = map<string, FolderEntry>

  /** The map after recording the folders among `recs` in order: a plain
      dict assignment per folder, so a later record with the same `fid`
      replaces an earlier one. */
  function Recorded(m: FolderMap, recs: seq<FileRecord>): FolderMap
    decreases |recs|
  {
    if |recs| == 0 then m
    else
      var r := recs[|recs| - 1];
      var m' := Recorded(m, recs[..|recs| - 1]);
      if r.dir then m'[r.fid := FolderEntry(r.fileName, r.pdirFid)] else m'
  }

  /** The loop at quark.py:266-271 (and the folder half of the one at
      quark.py:224-231): every folder record is written into the map. */
  method RecordFolders(m: FolderMap, recs: seq<FileRecord>) returns (m': FolderMap)
    ensures m' == Recorded(m, recs)
  {
    m' := m;
    for k := 0 to |recs|
      invariant m' == Recorded(m, recs[..k])
    {
      assert recs[..k + 1][..k] == recs[..k];
      if recs[k].dir {
        m' := m'[recs[k].fid := FolderEntry(recs[k].fileName, recs[k].pdirFid)];
      }
    }
    assert recs[..|recs|] == recs;
  }

  /** Last writer wins: the entry for a folder's `fid` is that of the last
      folder record with that `fid`; keys no folder record carries keep
      their old entry, or stay absent. */
  lemma {:induction false} RecordedEntries(m: FolderMap, recs: seq<FileRecord>, fid: string)
    ensures var r := Recorded(m, recs);
      (exists k :: 0 <= k < |recs| && recs[k].dir && recs[k].fid == fid) ==>
        (fid in r && (exists k :: 0 <= k < |recs| && recs[k].dir && recs[k].fid == fid
                        && r[fid] == FolderEntry(recs[k].fileName, recs[k].pdirFid)
                        && forall j :: k < j < |recs| ==> !(recs[j].dir && recs[j].fid == fid)))
    ensures var r := Recorded(m, recs);
      (forall k :: 0 <= k < |recs| ==> !(recs[k].dir && recs[k].fid == fid)) ==>
        (fid in r <==> fid in m) && (fid in m ==> r[fid] == m[fid])
    decreases |recs|
  {
    if |recs| > 0 {
      var init := recs[..|recs| - 1];
      RecordedEntries(m, init, fid);
      var last := recs[|recs| - 1];
      if !(last.dir && last.fid == fid) {
        forall k | 0 <= k < |init| ensures init[k] == recs[k] {}
        if exists k :: 0 <= k < |recs| && recs[k].dir && recs[k].fid == fid {
          var k :| 0 <= k < |recs| && recs[k].dir && recs[k].fid == fid;
          assert init[k] == recs[k];
        }
      }
    }
  }

  /** The walk from `fid` leaves the map within `fuel` steps. */
  predicate Exits(m: FolderMap, fid: string, fuel: nat)
    decreases fuel
  {
    fid !in m || (fuel > 0 && Exits(m, m[fid].pdirFid, fuel - 1))
  }

  /** The names of the folders the walk from `fid` passes, outermost first. */
  function AncestorNames(m: FolderMap, fid: string, fuel: nat): seq<string>
    requires Exits(m, fid, fuel)
    decreases fuel
  {
    if fid !in m then [] else AncestorNames(m, m[fid].pdirFid, fuel - 1) + [m[fid].fileName]
  }

  /** `base_path`: `"/" + name` for each folder on the walk, outermost
      first; empty when `fid` is not a key. */
  function BasePathOf(m: FolderMap, fid: string, fuel: nat): (path: string)
    requires Exits(m, fid, fuel)
    ensures fid !in m ==> path == ""
    ensures fid in m ==> |path| > |m[fid].fileName| && path[|path| - |m[fid].fileName| - 1] == '/'
                         && path[|path| - |m[fid].fileName|..] == m[fid].fileName
    decreases fuel
  {
    if fid !in m then "" else BasePathOf(m, m[fid].pdirFid, fuel - 1) + "/" + m[fid].fileName
  }

  /** The loop at quark.py:397-400. It has no bound of its own: it ends
      only because the walk from `start` leaves the map, which `fuel`
      witnesses. */
  method BuildBasePath(m: FolderMap, start: string, ghost fuel: nat) returns (basePath: string)
    requires Exits(m, start, fuel)
    ensures basePath == BasePathOf(m, start, fuel)
  {
    basePath := "";
    var pdirFid := start;
    ghost var f := fuel;
    while pdirFid in m
      invariant Exits(m, pdirFid, f)
      invariant BasePathOf(m, pdirFid, f) + basePath == BasePathOf(m, start, fuel)
      decreases f
    {
      BasePathStep(m, pdirFid, f, basePath);
      basePath := "/" + m[pdirFid].fileName + basePath;
      pdirFid := m[pdirFid].pdirFid;
      f := f - 1;
    }
  }

  lemma BasePathStep(m: FolderMap, fid: string, fuel: nat, suffix: string)
    requires fid in m && Exits(m, fid, fuel)
    ensures fuel > 0 && Exits(m, m[fid].pdirFid, fuel - 1)
    ensures BasePathOf(m, fid, fuel) + suffix
            == BasePathOf(m, m[fid].pdirFid, fuel - 1) + ("/" + m[fid].fileName + suffix)
  {
    var p := BasePathOf(m, m[fid].pdirFid, fuel - 1);
    assert BasePathOf(m, fid, fuel) == p + "/" + m[fid].fileName;
  }

  /** A folder that is its own parent keeps the walk going forever. */
  lemma {:induction false} SelfParentNeverExits(m: FolderMap, fid: string, fuel: nat)
    requires fid in m && m[fid].pdirFid == fid
    ensures !Exits(m, fid, fuel)
    decreases fuel
  {
    if fuel > 0 {
      SelfParentNeverExits(m, fid, fuel - 1);
    }
  }

  /** More fuel gives the same path. */
  lemma {:induction false} BasePathFuel(m: FolderMap, fid: string, fuel: nat, more: nat)
    requires Exits(m, fid, fuel) && fuel <= more
    ensures Exits(m, fid, more)
    ensures BasePathOf(m, fid, more) == BasePathOf(m, fid, fuel)
    ensures AncestorNames(m, fid, more) == AncestorNames(m, fid, fuel)
    decreases fuel
  {
    if fid in m {
      BasePathFuel(m, m[fid].pdirFid, fuel - 1, more - 1);
    }
  }

  lemma JoinAppend(parts: seq<string>, last: string, sep: string)
    requires |parts| >= 1
    ensures Join(parts + [last], sep) == Join(parts, sep) + sep + last
    decreases |parts|
  {
    if |parts| > 1 {
      assert (parts + [last])[1..] == parts[1..] + [last];
      JoinAppend(parts[1..], last, sep);
    }
  }

  /** The path is the folder names joined by `/` after a leading `/`, so
      splitting it on `/` gives back the names, outermost first, when no
      name contains `/`. */
  lemma {:induction false} BasePathNames(m: FolderMap, fid: string, fuel: nat)
    requires Exits(m, fid, fuel)
    requires forall k | k in m :: '/' !in m[k].fileName
    ensures BasePathOf(m, fid, fuel) == Join([""] + AncestorNames(m, fid, fuel), "/")
    ensures Split(BasePathOf(m, fid, fuel), "/") == [""] + AncestorNames(m, fid, fuel)
    decreases fuel
  {
    var names := AncestorNames(m, fid, fuel);
    if fid in m {
      var parent := m[fid].pdirFid;
      BasePathNames(m, parent, fuel - 1);
      JoinAppend([""] + AncestorNames(m, parent, fuel - 1), m[fid].fileName, "/");
      assert [""] + names == [""] + AncestorNames(m, parent, fuel - 1) + [m[fid].fileName];
    }
    NamesLackSlash(m, fid, fuel);
    forall i | 0 <= i < |[""] + names| ensures '/' !in ([""] + names)[i] {
      if i > 0 {
        assert ([""] + names)[i] == names[i - 1];
      }
    }
    SplitJoin([""] + names, "/", '/', 0);
  }

  lemma {:induction false} NamesLackSlash(m: FolderMap, fid: string, fuel: nat)
    requires Exits(m, fid, fuel)
    requires forall k | k in m :: '/' !in m[k].fileName
    ensures forall i :: 0 <= i < |AncestorNames(m, fid, fuel)| ==> '/' !in AncestorNames(m, fid, fuel)[i]
    decreases fuel
  {
    if fid in m {
      NamesLackSlash(m, m[fid].pdirFid, fuel - 1);
    }
  }

  /** The top folder of all downloads. */
  const SaveFolder: string := "downloads"

  /** Python's `os.path.join(a, b)` on POSIX for two components. */
  function PathJoin(a: string, b: string): (r: string)
    ensures |b| > 0 && b[0] == '/' ==> r == b
    ensures !(|b| > 0 && b[0] == '/') ==> |r| >= |b| && r[|r| - |b|..] == b
    ensures !(|b| > 0 && b[0] == '/') && (a == "" || a[|a| - 1] == '/') ==>
      |r| == |a| + |b| && r[..|a|] == a
    ensures !(|b| > 0 && b[0] == '/') && !(a == "" || a[|a| - 1] == '/') ==>
      |r| == |a| + 1 + |b| && r[..|a|] == a && r[|a|] == '/'
  {
    if |b| > 0 && b[0] == '/' then b
    else if a == "" || a[|a| - 1] == '/' then a + b
    else a + "/" + b
  }

  /** One entry of the download API's reply: its name and, when present,
      its `pdir_fid`. */
  datatype DownloadItem = DownloadItem(fileName: string, pdirFid: Option<string>, downloadUrl: string)

  /** The path a file is saved to (quark.py:394-406):
      `downloads/` + base path, joined with the file name. The base path
      starts with `/`, so a file inside a known folder gets a doubled
      slash (`downloads//A/B/name`). */
  function SavePath(item: DownloadItem, m: FolderMap, fuel: nat): (path: string)
    requires item.pdirFid.Some? ==> Exits(m, item.pdirFid.value, fuel)
    ensures |path| >= |item.fileName| && path[|path| - |item.fileName|..] == item.fileName
    ensures |item.fileName| > 0 && item.fileName[0] == '/' ==> path == item.fileName
    ensures !(|item.fileName| > 0 && item.fileName[0] == '/') ==>
      |path| > |SaveFolder| && path[..|SaveFolder| + 1] == SaveFolder + "/"
  {
    var basePath := if item.pdirFid.Some? then BasePathOf(m, item.pdirFid.value, fuel) else "";
    PathJoin(SaveFolder + "/" + basePath, item.fileName)
  }

  /** A file whose parent is not in the map (or that has no parent) goes
      straight under `downloads/`; one inside known folders goes to
      `downloads/` followed by `/name` for each folder, outermost first. */
  lemma SavePathShape(item: DownloadItem, m: FolderMap, fuel: nat)
    requires item.pdirFid.Some? ==> Exits(m, item.pdirFid.value, fuel)
    requires !(|item.fileName| > 0 && item.fileName[0] == '/')
    ensures item.pdirFid.None? || item.pdirFid.value !in m ==>
      SavePath(item, m, fuel) == "downloads/" + item.fileName
    ensures (item.pdirFid.Some? && item.pdirFid.value in m
             && var name := m[item.pdirFid.value].fileName; name != "" && name[|name| - 1] != '/') ==>
      SavePath(item, m, fuel) == "downloads/" + BasePathOf(m, item.pdirFid.value, fuel) + "/" + item.fileName
  {
    if item.pdirFid.Some? && item.pdirFid.value in m {
      var name := m[item.pdirFid.value].fileName;
      if name != "" && name[|name| - 1] != '/' {
        SavePathInFolder(item, m, fuel);
      }
    } else {
      assert SavePath(item, m, fuel) == PathJoin("downloads/", item.fileName);
    }
  }

  lemma SavePathInFolder(item: DownloadItem, m: FolderMap, fuel: nat)
    requires item.pdirFid.Some? && Exits(m, item.pdirFid.value, fuel) && item.pdirFid.value in m
    requires !(|item.fileName| > 0 && item.fileName[0] == '/')
    requires var name := m[item.pdirFid.value].fileName; name != "" && name[|name| - 1] != '/'
    ensures SavePath(item, m, fuel) == "downloads/" + BasePathOf(m, item.pdirFid.value, fuel) + "/" + item.fileName
  {
    var name := m[item.pdirFid.value].fileName;
    var b := BasePathOf(m, item.pdirFid.value, fuel);
    var a := SaveFolder + "/" + b;
    assert b[|b| - 1] == name[|name| - 1];
    assert a[|a| - 1] == b[|b| - 1];
    assert SavePath(item, m, fuel) == PathJoin(a, item.fileName) == a + "/" + item.fileName;
  }
}
