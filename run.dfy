/** `run` (quark.py:200-299): reads a share link, lists the share, and
    either saves its top-level entries to the user's drive or walks its
    folders level by level to download them. The replies of the server are
    given in the order `run` asks for them; a request past the end of them
    stands for a call that raised. */
module ShareTransfer {
  import opened Wrappers
  import opened Text
  import opened ShareLink
  import opened Listing
  import opened Paths
  import opened Poller

  /** The folders among `recs`, in order. */
  function Dirs(recs: seq<FileRecord>): seq<FileRecord>
    decreases |recs|
  {
    if |recs| == 0 then []
    else Dirs(recs[..|recs| - 1]) + if recs[|recs| - 1].dir then [recs[|recs| - 1]] else []
  }

  /** The files (non-folders) among `recs`, in order. */
  function Files(recs: seq<FileRecord>): seq<FileRecord>
    decreases |recs|
  {
    if |recs| == 0 then []
    else Files(recs[..|recs| - 1]) + if recs[|recs| - 1].dir then [] else [recs[|recs| - 1]]
  }

  /** `Dirs` keeps only folders, and `Files` only non-folders, each drawn
      from `recs`. */
  lemma {:induction false} FiltersKeepTheirKind(recs: seq<FileRecord>)
    ensures forall x | x in Dirs(recs) :: x.dir && x in recs
    ensures forall x | x in Files(recs) :: !x.dir && x in recs
    decreases |recs|
  {
    if |recs| > 0 {
      FiltersKeepTheirKind(recs[..|recs| - 1]);
    }
  }

  function Names(recs: seq<FileRecord>): (ns: seq<string>)
    ensures |ns| == |recs| && forall k :: 0 <= k < |recs| ==> ns[k] == recs[k].fileName
  {
    seq(|recs|, k requires 0 <= k < |recs| => recs[k].fileName)
  }

  function Fids(recs: seq<FileRecord>): (fs: seq<string>)
    ensures |fs| == |recs| && forall k :: 0 <= k < |recs| ==> fs[k] == recs[k].fid
  {
    seq(|recs|, k requires 0 <= k < |recs| => recs[k].fid)
  }

  lemma FidsFrom(recs: seq<FileRecord>, j: nat)
    requires j < |recs|
    ensures Fids(recs[j..]) == [recs[j].fid] + Fids(recs[j + 1..])
  {
    assert Fids(recs[j..]) == [recs[j].fid] + Fids(recs[j + 1..]);
  }

  function Tokens(recs: seq<FileRecord>): (ts: seq<string>)
    ensures |ts| == |recs| && forall k :: 0 <= k < |recs| ==> ts[k] == recs[k].shareFidToken
  {
    seq(|recs|, k requires 0 <= k < |recs| => recs[k].shareFidToken)
  }

  lemma ProjectionsSnoc(recs: seq<FileRecord>, x: FileRecord)
    ensures Names(recs + [x]) == Names(recs) + [x.fileName]
    ensures FileIdPairs(recs + [x]) == FileIdPairs(recs) + [(x.fid, x.fileName)]
  {
    assert Names(recs + [x]) == Names(recs) + [x.fileName];
    assert FileIdPairs(recs + [x]) == FileIdPairs(recs) + [(x.fid, x.fileName)];
  }

  /** Appending one record adds it to exactly one of the two lists. */
  lemma DirsFilesSnoc(init: seq<FileRecord>, x: FileRecord)
    ensures Dirs(init + [x]) == Dirs(init) + if x.dir then [x] else []
    ensures Files(init + [x]) == Files(init) + if x.dir then [] else [x]
  {
    assert (init + [x])[..|init + [x]| - 1] == init;
  }

  /** Every record is a folder or a file: the two counts `run` prints add
      up to the number of records. */
  lemma {:induction false} DirsFilesCount(recs: seq<FileRecord>)
    ensures |Dirs(recs)| + |Files(recs)| == |recs|
    decreases |recs|
  {
    if |recs| > 0 {
      DirsFilesCount(recs[..|recs| - 1]);
    }
  }

  /** The multiset of a non-empty sequence splits off its last element. */
  lemma MultisetLast(recs: seq<FileRecord>)
    requires |recs| > 0
    ensures multiset(recs) == multiset(recs[..|recs| - 1]) + multiset{recs[|recs| - 1]}
  {
    assert recs == recs[..|recs| - 1] + [recs[|recs| - 1]];
  }

  /** Together the two lists hold every record exactly as often as `recs`
      does. */
  lemma {:induction false} DirsFilesPartition(recs: seq<FileRecord>)
    ensures multiset(Dirs(recs)) + multiset(Files(recs)) == multiset(recs)
    decreases |recs|
  {
    if |recs| > 0 {
      var init := recs[..|recs| - 1];
      DirsFilesPartition(init);
      MultisetLast(recs);
    }
  }

  /** What the classification loop at quark.py:224-236 collects. */
  datatype Classification = Classification(
    foldersCount: nat, filesCount: nat, foldersList: seq<string>, filesList: seq<string>,
    foldersMap: FolderMap, filesIdList: seq<(string, string)>)

  function FileIdPairs(recs: seq<FileRecord>): (ps: seq<(string, string)>)
    ensures |ps| == |recs| && forall k :: 0 <= k < |recs| ==> ps[k] == (recs[k].fid, recs[k].fileName)
  {
    seq(|recs|, k requires 0 <= k < |recs| => (recs[k].fid, recs[k].fileName))
  }

  /** What the classification loop collects from `recs`. */
  function Classified(recs: seq<FileRecord>): Classification
  {
    Classification(|Dirs(recs)|, |Files(recs)|, Names(Dirs(recs)), Names(Files(recs)),
                   Recorded(map[], recs), FileIdPairs(Files(recs)))
  }

  /** One more folder is counted, named and recorded. */
  lemma ClassifiedSnocDir(recs: seq<FileRecord>, x: FileRecord)
    requires x.dir
    ensures var c := Classified(recs);
      Classified(recs + [x]) ==
        c.(foldersCount := c.foldersCount + 1, foldersList := c.foldersList + [x.fileName],
           foldersMap := c.foldersMap[x.fid := FolderEntry(x.fileName, x.pdirFid)])
  {
    DirsFilesSnoc(recs, x);
    ProjectionsSnoc(Dirs(recs), x);
    assert Recorded(map[], recs + [x]) == Recorded(map[], recs)[x.fid := FolderEntry(x.fileName, x.pdirFid)] by {
      assert (recs + [x])[..|recs|] == recs;
    }
  }

  /** One more file is counted, named and listed with its `fid`. */
  lemma ClassifiedSnocFile(recs: seq<FileRecord>, x: FileRecord)
    requires !x.dir
    ensures var c := Classified(recs);
      Classified(recs + [x]) ==
        c.(filesCount := c.filesCount + 1, filesList := c.filesList + [x.fileName],
           filesIdList := c.filesIdList + [(x.fid, x.fileName)])
  {
    DirsFilesSnoc(recs, x);
    ProjectionsSnoc(Files(recs), x);
    assert Recorded(map[], recs + [x]) == Recorded(map[], recs) by {
      assert (recs + [x])[..|recs|] == recs;
    }
  }

  /** The classification loop: folders are counted, named and recorded in
      `folders_map`; files are counted, named and listed with their `fid`. */
  method Classify(dataList: seq<FileRecord>) returns (c: Classification)
    ensures c.foldersCount == |Dirs(dataList)| && c.filesCount == |Files(dataList)|
    ensures c.foldersList == Names(Dirs(dataList)) && c.filesList == Names(Files(dataList))
    ensures c.foldersMap == Recorded(map[], dataList)
    ensures c.filesIdList == FileIdPairs(Files(dataList))
  {
    c := Classification(0, 0, [], [], map[], []);
    for k := 0 to |dataList|
      invariant c == Classified(dataList[..k])
    {
      var data := dataList[k];
      assert dataList[..k + 1] == dataList[..k] + [data];
      if data.dir {
        ClassifiedSnocDir(dataList[..k], data);
        c := c.(foldersCount := c.foldersCount + 1, foldersList := c.foldersList + [data.fileName],
                foldersMap := c.foldersMap[data.fid := FolderEntry(data.fileName, data.pdirFid)]);
      } else {
        ClassifiedSnocFile(dataList[..k], data);
        c := c.(filesCount := c.filesCount + 1, filesList := c.filesList + [data.fileName],
                filesIdList := c.filesIdList + [(data.fid, data.fileName)]);
      }
    }
    assert dataList[..|dataList|] == dataList;
  }

  /** One call of `quark_file_download`: the `fid`s asked for, the
      `folder` argument, and `folders_map` as it is at the call. */
  datatype DownloadBatch = DownloadBatch(fids: seq<string>, folder: string, folders: FolderMap)

  /** The variables of the download walk: the replies used, `folders_map`,
      the batches sent, `file_fid_list`, and the `pdir_fid` of every
      `get_detail` call. */
  datatype Walk = Walk(cursor: nat, folders: FolderMap, batches: seq<DownloadBatch>,
                       fileFids: seq<FileRecord>, detailRequests: seq<string>)

  /** The end of one level: the walk, the next frontier (`data_list3`),
      `not_dir`, and whether a call raised. */
  datatype LevelEnd = LevelEnd(w: Walk, next: seq<FileRecord>, notDir: bool, raised: bool)

  datatype WalkEnd = WalkEnd(w: Walk, raised: bool)

  /** The replies from `cursor` on. */
  function From(replies: seq<DetailPage>, cursor: nat): seq<DetailPage>
  {
    if cursor <= |replies| then replies[cursor..] else []
  }

  /** The visit of one folder `i2` of a level: the result of listing it,
      or `raised` when the listing raised. */
  datatype Visit = Visit(w: Walk, dirs: seq<FileRecord>, raised: bool)

  /** The body of `for i2 in data_list2` (quark.py:261-282): the folder is
      listed, the sub-folders among its entries are recorded in
      `folders_map`, its entries are sent as one batch under the top
      folder's name, its entries would join `file_fid_list` were `i2` not a
      folder, and its sub-folders are returned for the next level. */
  function VisitOf(replies: seq<DetailPage>, w: Walk, top: string, i2: FileRecord): (v: Visit)
    requires w.cursor <= |replies|
    ensures w.cursor <= v.w.cursor <= |replies|
    ensures !v.raised ==> v.w.cursor > w.cursor
    ensures i2.dir ==> v.w.fileFids == w.fileFids
    ensures forall x | x in v.dirs :: x.dir
    ensures v.w.detailRequests == w.detailRequests + [i2.fid]
    ensures |v.w.batches| == |w.batches| + if v.raised then 0 else 1
  {
    var w1 := w.(detailRequests := w.detailRequests + [i2.fid]);
    var rest := From(replies, w.cursor);
    match DetailOf(rest)
    case Failed => Visit(w1, [], true)
    case Listed(_, children) =>
      FiltersKeepTheirKind(children);
      var m := Recorded(w.folders, children);
      Visit(w1.(cursor := w.cursor + RequestCount(rest), folders := m,
                batches := w.batches + [DownloadBatch(Fids(children), top, m)],
                fileFids := w.fileFids + if i2.dir then [] else children),
            Dirs(children), false)
  }

  /** What one visit does: when the listing of `i2` raises, only the
      request is recorded; otherwise, with `children` the listed entries,
      the sub-folders returned are `Dirs(children)`, `folders_map` gains
      the folders among them (last writer wins), one batch of all their
      `fid`s is sent under the top folder's name with the updated map, and
      `file_fid_list` grows by them only when `i2` is not a folder. */
  lemma VisitContents(replies: seq<DetailPage>, w: Walk, top: string, i2: FileRecord)
    requires w.cursor <= |replies|
    ensures var v := VisitOf(replies, w, top, i2);
      (v.raised <==> DetailOf(From(replies, w.cursor)).Failed?)
      && (v.raised ==> v.w == w.(detailRequests := w.detailRequests + [i2.fid]) && v.dirs == [])
      && (!v.raised ==>
            var children := DetailOf(From(replies, w.cursor)).files;
            v.dirs == Dirs(children)
            && v.w.folders == Recorded(w.folders, children)
            && v.w.batches == w.batches + [DownloadBatch(Fids(children), top, v.w.folders)]
            && v.w.fileFids == w.fileFids + (if i2.dir then [] else children))
  {
  }

  /** The folders of one level, from `frontier[j]` on: each is visited in
      turn, and a folder without sub-folders sets `not_dir`. */
  function LevelFrom(replies: seq<DetailPage>, w: Walk, top: string, frontier: seq<FileRecord>,
                     j: nat, next: seq<FileRecord>, notDir: bool): (e: LevelEnd)
    requires j <= |frontier| && w.cursor <= |replies|
    ensures w.cursor <= e.w.cursor <= |replies|
    ensures !e.raised && j < |frontier| ==> e.w.cursor > w.cursor
    ensures w.detailRequests <= e.w.detailRequests
    ensures |e.w.batches| - |w.batches| == |e.w.detailRequests| - |w.detailRequests| - if e.raised then 1 else 0
    ensures !e.raised ==> e.w.detailRequests == w.detailRequests + Fids(frontier[j..])
    decreases |frontier| - j
  {
    if j == |frontier| then
      assert frontier[j..] == [];
      LevelEnd(w, next, notDir, false)
    else
      var v := VisitOf(replies, w, top, frontier[j]);
      if v.raised then LevelEnd(v.w, next, notDir, true)
      else
        var e := LevelFrom(replies, v.w, top, frontier, j + 1, next + v.dirs, notDir || v.dirs == []);
        LevelRequestsStep(w.detailRequests, v.w.detailRequests, e.w.detailRequests, e.raised, frontier, j);
        e
  }

  /** The requests of a level from `frontier[j]` on are that folder's
      request followed by those from `frontier[j + 1]` on. */
  lemma LevelRequestsStep(before: seq<string>, mid: seq<string>, after: seq<string>, raised: bool,
                          frontier: seq<FileRecord>, j: nat)
    requires j < |frontier|
    requires mid == before + [frontier[j].fid] && mid <= after
    requires !raised ==> after == mid + Fids(frontier[j + 1..])
    ensures before <= after
    ensures !raised ==> after == before + Fids(frontier[j..])
  {
    FidsFrom(frontier, j);
    assert before <= mid;
  }

  /** The levels below one top folder (quark.py:256-285): each level lists
      the whole frontier; the walk stops after a level that raised, left no
      sub-folders, or met a folder without sub-folders (`not_dir`, which
      leaves the sub-folders already found unlisted). */
  function LevelsFrom(replies: seq<DetailPage>, w: Walk, top: string, frontier: seq<FileRecord>): (f: WalkEnd)
    requires |frontier| > 0 && w.cursor <= |replies|
    ensures w.cursor <= f.w.cursor <= |replies|
    ensures w.detailRequests <= f.w.detailRequests
    ensures |f.w.batches| - |w.batches| == |f.w.detailRequests| - |w.detailRequests| - if f.raised then 1 else 0
    decreases |replies| - w.cursor
  {
    var e := LevelFrom(replies, w, top, frontier, 0, [], false);
    if e.raised then WalkEnd(e.w, true)
    else if e.next == [] || e.notDir then WalkEnd(e.w, false)
    else LevelsFrom(replies, e.w, top, e.next)
  }

  /** The loop over the top-level records from `data[k]` on: each folder
      starts a walk of its own, named after it; files are skipped here. */
  function TopFrom(replies: seq<DetailPage>, w: Walk, data: seq<FileRecord>, k: nat): (f: WalkEnd)
    requires k <= |data| && w.cursor <= |replies|
    ensures w.cursor <= f.w.cursor <= |replies|
    ensures w.detailRequests <= f.w.detailRequests
    ensures |f.w.batches| - |w.batches| == |f.w.detailRequests| - |w.detailRequests| - if f.raised then 1 else 0
    decreases |data| - k
  {
    if k == |data| then WalkEnd(w, false)
    else if !data[k].dir then TopFrom(replies, w, data, k + 1)
    else
      var f := LevelsFrom(replies, w, data[k].fileName, [data[k]]);
      if f.raised then f else TopFrom(replies, f.w, data, k + 1)
  }

  /** A level whose folders are all folders leaves `file_fid_list` as it
      was, and passes on only folders. */
  lemma {:induction false} LevelKeepsFileFids(replies: seq<DetailPage>, w: Walk, top: string, frontier: seq<FileRecord>,
                                              j: nat, next: seq<FileRecord>, notDir: bool)
    requires j <= |frontier| && w.cursor <= |replies|
    requires forall x | x in frontier :: x.dir
    requires forall x | x in next :: x.dir
    ensures var e := LevelFrom(replies, w, top, frontier, j, next, notDir);
      e.w.fileFids == w.fileFids && forall x | x in e.next :: x.dir
    decreases |frontier| - j
  {
    if j < |frontier| {
      var v := VisitOf(replies, w, top, frontier[j]);
      if !v.raised {
        assert forall x | x in next + v.dirs :: x.dir;
        LevelKeepsFileFids(replies, v.w, top, frontier, j + 1, next + v.dirs, notDir || v.dirs == []);
      }
    }
  }

  /** The walk below a folder never adds to `file_fid_list`. */
  lemma {:induction false} LevelsKeepFileFids(replies: seq<DetailPage>, w: Walk, top: string, frontier: seq<FileRecord>)
    requires |frontier| > 0 && w.cursor <= |replies|
    requires forall x | x in frontier :: x.dir
    ensures LevelsFrom(replies, w, top, frontier).w.fileFids == w.fileFids
    decreases |replies| - w.cursor
  {
    LevelKeepsFileFids(replies, w, top, frontier, 0, [], false);
    var e := LevelFrom(replies, w, top, frontier, 0, [], false);
    if !e.raised && e.next != [] && !e.notDir {
      LevelsKeepFileFids(replies, e.w, top, e.next);
    }
  }

  /** The walks of all top-level folders never add to `file_fid_list`: the
      `extend` at quark.py:277 only ever adds entries of a non-folder
      parent, and every parent listed is a folder. */
  lemma {:induction false} TopKeepsFileFids(replies: seq<DetailPage>, w: Walk, data: seq<FileRecord>, k: nat)
    requires k <= |data| && w.cursor <= |replies|
    ensures TopFrom(replies, w, data, k).w.fileFids == w.fileFids
    decreases |data| - k
  {
    if k < |data| {
      if !data[k].dir {
        TopKeepsFileFids(replies, w, data, k + 1);
      } else {
        LevelsKeepFileFids(replies, w, data[k].fileName, [data[k]]);
        var f := LevelsFrom(replies, w, data[k].fileName, [data[k]]);
        if !f.raised {
          TopKeepsFileFids(replies, f.w, data, k + 1);
        }
      }
    }
  }

  /** The `fid`s of `files_id_list`. */
  function PairFirsts(ps: seq<(string, string)>): (fs: seq<string>)
    ensures |fs| == |ps| && forall k :: 0 <= k < |ps| ==> fs[k] == ps[k].0
  {
    seq(|ps|, k requires 0 <= k < |ps| => ps[k].0)
  }

  /** The download branch after its `is_owner` check (quark.py:254-290):
      the folder walks, then one batch into `.` holding `file_fid_list` and
      the top-level files when either is non-empty. Since every folder the
      walk lists is itself a folder, `file_fid_list` never grows: the last
      batch holds exactly the top-level files. */
  function DownloadWalk(replies: seq<DetailPage>, w0: Walk, data: seq<FileRecord>,
                        filesIdList: seq<(string, string)>): (f: WalkEnd)
    requires w0.cursor <= |replies|
    ensures f.w.fileFids == w0.fileFids && w0.detailRequests <= f.w.detailRequests
    ensures w0.fileFids == [] && !f.raised && |filesIdList| > 0 ==>
      |f.w.batches| > 0 && f.w.batches[|f.w.batches| - 1] == DownloadBatch(PairFirsts(filesIdList), ".", f.w.folders)
  {
    TopKeepsFileFids(replies, w0, data, 0);
    var f := TopFrom(replies, w0, data, 0);
    if f.raised then f
    else if |filesIdList| > 0 || |f.w.fileFids| > 0 then
      var last := DownloadBatch(Fids(f.w.fileFids) + PairFirsts(filesIdList), ".", f.w.folders);
      WalkEnd(f.w.(batches := f.w.batches + [last]), false)
    else f
  }

  /** One pass of the `for i2 in data_list2` loop body. */
  method VisitFolder(replies: seq<DetailPage>, w: Walk, top: string, i2: FileRecord) returns (v: Visit)
    requires w.cursor <= |replies|
    ensures v == VisitOf(replies, w, top, i2)
  {
    var rest := From(replies, w.cursor);
    var detail, pages := GetDetail(rest);
    var w1 := w.(detailRequests := w.detailRequests + [i2.fid]);
    if detail.Failed? {
      return Visit(w1, [], true);
    }
    var folders := RecordFolders(w.folders, detail.files);
    var fidList := Fids(detail.files);
    var dirList := Dirs(detail.files);
    w1 := w1.(cursor := w.cursor + |pages|, folders := folders,
              batches := w.batches + [DownloadBatch(fidList, top, folders)],
              fileFids := w.fileFids + if i2.dir then [] else detail.files);
    v := Visit(w1, dirList, false);
  }

  /** One level of the walk, as the `for i2 in data_list2` loop runs it. */
  method ListLevel(replies: seq<DetailPage>, w: Walk, top: string, frontier: seq<FileRecord>)
    returns (e: LevelEnd)
    requires w.cursor <= |replies|
    ensures e == LevelFrom(replies, w, top, frontier, 0, [], false)
  {
    var cur := w;
    var next: seq<FileRecord> := [];
    var notDir := false;
    for j := 0 to |frontier|
      invariant cur.cursor <= |replies|
      invariant LevelFrom(replies, cur, top, frontier, j, next, notDir) == LevelFrom(replies, w, top, frontier, 0, [], false)
    {
      var v := VisitFolder(replies, cur, top, frontier[j]);
      if v.raised {
        return LevelEnd(v.w, next, notDir, true);
      }
      cur := v.w;
      if v.dirs == [] {
        notDir := true;
      }
      next := next + v.dirs;
    }
    e := LevelEnd(cur, next, notDir, false);
  }

  /** The `while True` loop below one top folder. */
  method WalkFolder(replies: seq<DetailPage>, w: Walk, first: FileRecord) returns (f: WalkEnd)
    requires w.cursor <= |replies|
    ensures f == LevelsFrom(replies, w, first.fileName, [first])
  {
    var cur := w;
    var frontier := [first];
    while true
      invariant |frontier| > 0 && cur.cursor <= |replies|
      invariant LevelsFrom(replies, cur, first.fileName, frontier) == LevelsFrom(replies, w, first.fileName, [first])
      decreases |replies| - cur.cursor
    {
      var e := ListLevel(replies, cur, first.fileName, frontier);
      if e.raised {
        return WalkEnd(e.w, true);
      }
      if e.next == [] || e.notDir {
        return WalkEnd(e.w, false);
      }
      cur, frontier := e.w, e.next;
    }
  }

  /** The download branch's loops over the top-level records and the last
      batch into `.`. */
  method DownloadAll(replies: seq<DetailPage>, w0: Walk, data: seq<FileRecord>,
                     filesIdList: seq<(string, string)>) returns (f: WalkEnd)
    requires w0.cursor <= |replies|
    ensures f == DownloadWalk(replies, w0, data, filesIdList)
  {
    var cur := w0;
    for k := 0 to |data|
      invariant cur.cursor <= |replies|
      invariant TopFrom(replies, cur, data, k) == TopFrom(replies, w0, data, 0)
    {
      if data[k].dir {
        var g := WalkFolder(replies, cur, data[k]);
        if g.raised {
          return g;
        }
        cur := g.w;
      }
    }
    if |filesIdList| > 0 || |cur.fileFids| > 0 {
      var fileFidList := Fids(cur.fileFids) + PairFirsts(filesIdList);
      cur := cur.(batches := cur.batches + [DownloadBatch(fileFidList, ".", cur.folders)]);
    }
    f := WalkEnd(cur, false);
  }

  /** The body `get_share_save_task_id` posts (quark.py:301-321). */
  datatype SaveRequest = SaveRequest(fidList: seq<string>, fidTokenList: seq<string>, toPdirFid: string,
                                     pwdId: string, stoken: string, pdirFid: string, scene: string)

  /** How `run` ends. */
  datatype RunEnd =
    | EmptyPwdId          // the link yields an empty `pwd_id`
    | NoStoken            // the token request failed
    | Raised              // a request raised
    | NothingListed       // the share lists nothing
    | NoTargetFolder      // `folder_id` is empty
    | NotOwnShare         // a download of a share that is not the user's own
    | AlreadySaved        // a save of the user's own share
    | Downloaded          // every batch was sent
    | Transferred(taskId: string, poll: PollOutcome)

  /** The end of `run`, the password and `pwd_id` sent for the token, the
      `pdir_fid` of every listing, the download batches and the save
      request, if any. */
  datatype RunResult = RunResult(end: RunEnd, password: string, pwdId: string, detailRequests: seq<string>,
                                 batches: seq<DownloadBatch>, save: Option<SaveRequest>)

  /** Python's truth value of `folder_id`. */
  predicate Truthy(folderId: Option<string>)
  {
    folderId.Some? && folderId.value != []
  }

  /** `run` (quark.py:200-299) given the replies: the token (`None` when
      the request raised, `""` when it failed), the listing pages in the
      order they are asked for, the save task id (`None` when the request
      raised) and the replies to the task polls. */
  function RunOf(inputLine: string, folderId: Option<string>, download: bool, stokenReply: Option<string>,
                 details: seq<DetailPage>, taskIdReply: Option<string>, taskReplies: seq<TaskReply>): (r: RunResult)
    ensures r.password == ExtractPassword(Strip(inputLine)) && r.pwdId == RunPwdId(inputLine)
    ensures r.end.Downloaded? || r.end.Transferred? ==>
      r.pwdId != [] && stokenReply.Some? && stokenReply.value != [] && Truthy(folderId)
      && DetailOf(details).Listed? && DetailOf(details).files != []
    ensures r.end.Downloaded? ==> download && DetailOf(details).isOwner != 0 && r.save.None?
    ensures r.end.Transferred? ==> !download && DetailOf(details).isOwner != 1 && r.batches == []
    ensures r.save.Some? ==>
      !download && DetailOf(details).Listed? && Truthy(folderId) && stokenReply.Some?
      && var files := DetailOf(details).files;
      r.save.value == SaveRequest(Fids(files), Tokens(files),
        folderId.value, r.pwdId, stokenReply.value, "0", "link")
    ensures r.detailRequests == [] <==> (r.pwdId == [] || stokenReply.None? || stokenReply.value == [])
    ensures r.detailRequests != [] ==> r.detailRequests[0] == "0"
    ensures r.pwdId == [] ==> r.end == EmptyPwdId
    ensures r.pwdId != [] && stokenReply.None? ==> r.end == Raised
    ensures r.pwdId != [] && stokenReply == Some([]) ==> r.end == NoStoken
    ensures r.detailRequests != [] && DetailOf(details).Failed? ==> r.end == Raised
    ensures r.detailRequests != [] && DetailOf(details).Listed? ==>
      var d := DetailOf(details);
      (r.end == NothingListed <==> d.files == [])
      && (d.files != [] ==> (r.end == NoTargetFolder <==> !Truthy(folderId)))
      && (d.files != [] && Truthy(folderId) && download && d.isOwner == 0 ==> r.end == NotOwnShare)
      && (d.files != [] && Truthy(folderId) && download && d.isOwner != 0 ==>
            var f := DownloadWalk(details, Walk(RequestCount(details), Recorded(map[], d.files), [], [], ["0"]),
                                  d.files, FileIdPairs(Files(d.files)));
            r.end == (if f.raised then Raised else Downloaded)
            && r.batches == f.w.batches && r.detailRequests == f.w.detailRequests)
      && (d.files != [] && Truthy(folderId) && !download && d.isOwner == 1 ==> r.end == AlreadySaved)
      && (d.files != [] && Truthy(folderId) && !download && d.isOwner != 1 ==>
            r.save.Some?
            && r.end == (if taskIdReply.None? then Raised
                         else Transferred(taskIdReply.value, Poll(taskReplies, DefaultRetry))))
  {
    var password := ExtractPassword(Strip(inputLine));
    var pwdId := RunPwdId(inputLine);
    var base := RunResult(EmptyPwdId, password, pwdId, [], [], None);
    if pwdId == [] then base
    else if stokenReply.None? then base.(end := Raised)
    else if stokenReply.value == [] then base.(end := NoStoken)
    else
      var listed := base.(detailRequests := ["0"]);
      match DetailOf(details)
      case Failed => listed.(end := Raised)
      case Listed(isOwner, dataList) =>
        if dataList == [] then listed.(end := NothingListed)
        else if !Truthy(folderId) then listed.(end := NoTargetFolder)
        else if download then
          if isOwner == 0 then listed.(end := NotOwnShare)
          else
            var w0 := Walk(RequestCount(details), Recorded(map[], dataList), [], [], ["0"]);
            var f := DownloadWalk(details, w0, dataList, FileIdPairs(Files(dataList)));
            listed.(end := if f.raised then Raised else Downloaded,
                    detailRequests := f.w.detailRequests, batches := f.w.batches)
        else if isOwner == 1 then listed.(end := AlreadySaved)
        else
          var saved := listed.(save := Some(SaveRequest(Fids(dataList), Tokens(dataList), folderId.value,
                                                         pwdId, stokenReply.value, "0", "link")));
          match taskIdReply
          case None => saved.(end := Raised)
          case Some(taskId) => saved.(end := Transferred(taskId, Poll(taskReplies, DefaultRetry)))
  }

  /** `run`, step by step. */
  method Run(inputLine: string, folderId: Option<string>, download: bool, stokenReply: Option<string>,
             details: seq<DetailPage>, taskIdReply: Option<string>, taskReplies: seq<TaskReply>)
    returns (r: RunResult)
    ensures r == RunOf(inputLine, folderId, download, stokenReply, details, taskIdReply, taskReplies)
  {
    var shareUrl := Strip(inputLine);
    var password := ExtractPassword(shareUrl);
    var pwdId := RunPwdId(inputLine);
    r := RunResult(EmptyPwdId, password, pwdId, [], [], None);
    if pwdId == [] {
      return;
    }
    if stokenReply.None? {
      return r.(end := Raised);
    }
    var stoken := stokenReply.value;
    if stoken == [] {
      return r.(end := NoStoken);
    }
    var detail, pages := GetDetail(details);
    r := r.(detailRequests := ["0"]);
    if detail.Failed? {
      return r.(end := Raised);
    }
    var isOwner, dataList := detail.isOwner, detail.files;
    if dataList == [] {
      return r.(end := NothingListed);
    }
    var c := Classify(dataList);
    var fidList := Fids(dataList);
    var shareFidTokenList := Tokens(dataList);
    if !Truthy(folderId) {
      return r.(end := NoTargetFolder);
    }
    if download {
      if isOwner == 0 {
        return r.(end := NotOwnShare);
      }
      var f := DownloadAll(details, Walk(|pages|, c.foldersMap, [], [], ["0"]), dataList, c.filesIdList);
      r := r.(end := if f.raised then Raised else Downloaded, detailRequests := f.w.detailRequests,
              batches := f.w.batches);
    } else {
      if isOwner == 1 {
        return r.(end := AlreadySaved);
      }
      r := r.(save := Some(SaveRequest(fidList, shareFidTokenList, folderId.value, pwdId, stoken, "0", "link")));
      if taskIdReply.None? {
        return r.(end := Raised);
      }
      var outcome, retryIndexes := SubmitTask(taskIdReply.value, DefaultRetry, taskReplies);
      r := r.(end := Transferred(taskIdReply.value, outcome));
    }
  }

  /** A download sends one batch per folder listed by the walk, and, when
      the share has top-level files, a last batch into `.` holding exactly
      their `fid`s. */
  lemma DownloadBatches(inputLine: string, folderId: Option<string>, stokenReply: Option<string>,
                        details: seq<DetailPage>, taskIdReply: Option<string>, taskReplies: seq<TaskReply>)
    ensures var r := RunOf(inputLine, folderId, true, stokenReply, details, taskIdReply, taskReplies);
      r.end.Downloaded? ==>
        var files := Files(DetailOf(details).files);
        |r.batches| == |r.detailRequests| - 1 + (if files == [] then 0 else 1)
        && (files != [] ==> r.batches[|r.batches| - 1].fids == Fids(files) && r.batches[|r.batches| - 1].folder == ".")
  {
    var r := RunOf(inputLine, folderId, true, stokenReply, details, taskIdReply, taskReplies);
    if r.end.Downloaded? {
      var dataList := DetailOf(details).files;
      var w0 := Walk(RequestCount(details), Recorded(map[], dataList), [], [], ["0"]);
      var ps := FileIdPairs(Files(dataList));
      assert PairFirsts(ps) == Fids(Files(dataList));
      var t := TopFrom(details, w0, dataList, 0);
      assert |t.w.batches| == |t.w.detailRequests| - 1;
    }
  }

  /** A level that ends with `not_dir` set ends the walk of its top folder:
      exactly the folders of that level are listed, and the sub-folders it
      found (`data_list3`), though recorded in `folders_map`, are never
      listed. */
  lemma NotDirEndsWalk(replies: seq<DetailPage>, w: Walk, top: string, frontier: seq<FileRecord>)
    requires |frontier| > 0 && w.cursor <= |replies|
    ensures var e := LevelFrom(replies, w, top, frontier, 0, [], false);
      !e.raised && e.notDir ==>
        var f := LevelsFrom(replies, w, top, frontier);
        !f.raised && f.w.detailRequests == w.detailRequests + Fids(frontier)
        && f.w.batches == e.w.batches
  {
    assert frontier[0..] == frontier;
  }
}
