/** `share_run` (quark.py:574-713): shares the folders of a share page,
    numbering them, retrying each up to three times, and writing the links,
    the errors and a ledger of failed folders under `share/`. The listing
    replies and the share attempts are given in the order the run asks for
    them; a request past the end of either stands for a call that raised. */
module ShareEngine {
  import opened Wrappers
  import opened Text
  import opened ShareLink

  /** One entry of a folder listing. */
  datatype Item = Item(fid: string, fileName: string, dir: bool)

  /** A listing reply: `data.list`, `metadata._total`, `_size`, `_page`. */
  datatype ListPage = ListPage(items: seq<Item>, total: int, size: int, page: int)

  /** A listing request: the folder listed and the `page` asked for. */
  datatype ListRequest = ListRequest(pdirFid: string, page: int)

  /** A share request: the folder shared and the title sent with it. */
  datatype ShareRequest = ShareRequest(fid: string, title: string)

  /** What `submit_share` returns when an attempt gets that far. */
  datatype Shared = Shared(shareUrl: string, title: string)

  /** The replies the run receives: listing pages, and for each share
      attempt either its result or `None` when one of its calls raised. */
  datatype Server = Server(listing: seq<ListPage>, attempts: seq<Option<Shared>>)

  /** The files under `share/`: `share_url.txt` and its backup (absent or
      present), `share_error.txt` and `retry.txt` (appended to). */
  datatype ShareFiles = ShareFiles(shareUrl: Option<string>, backup: Option<string>,
                                   errorLog: string, retryLedger: string)

  /** The variables of the run: the counters `n` and `error`, the current
      `first_dir`/`second_dir`, how many listing replies and share attempts
      were used, the files, and the requests sent. */
  datatype Run = Run(n: nat, error: nat, firstDir: string, secondDir: string,
                     listed: nat, attempted: nat, files: ShareFiles,
                     listRequests: seq<ListRequest>, shareRequests: seq<ShareRequest>)

  /** A loop's end: normally, or by an exception that reaches the outer
      handler. */
  datatype Flow = Flow(run: Run, raised: bool)

  /** How many times a folder is tried. */
  const MaxAttempts: nat := 3

  /** The field separator of the output and ledger lines. */
  const FieldSep: string := " | "

  /** A listing reply after which a paging loop asks for another page:
      `_size * _page < _total`. */
  predicate GoesOn(p: ListPage)
  {
    p.size * p.page < p.total
  }

  function AttemptAt(attempts: seq<Option<Shared>>, c: nat): Option<Shared>
  {
    if c < |attempts| then attempts[c] else None
  }

  /** The outcome of up to `left` attempts from attempt `c` on: how many
      failed, and the result of the one that succeeded. */
  datatype ShareTry = ShareTry(failures: nat, result: Option<Shared>)

  function TryShare(attempts: seq<Option<Shared>>, c: nat, left: nat): (t: ShareTry)
    ensures t.failures <= left
    ensures t.result.None? ==> t.failures == left
    ensures t.result.Some? ==> t.failures < left && AttemptAt(attempts, c + t.failures) == t.result
    ensures forall j :: c <= j < c + t.failures ==> AttemptAt(attempts, j).None?
    decreases left
  {
    if left == 0 then ShareTry(0, None)
    else match AttemptAt(attempts, c)
      case Some(s) => ShareTry(0, Some(s))
      case None =>
        var t := TryShare(attempts, c + 1, left - 1);
        ShareTry(t.failures + 1, t.result)
  }

  /** The number of attempts a try used. */
  function Used(t: ShareTry): nat
  {
    t.failures + if t.result.Some? then 1 else 0
  }

  function Repeat<T>(x: T, k: nat): (xs: seq<T>)
    ensures |xs| == k && forall i :: 0 <= i < k ==> xs[i] == x
  {
    seq(k, _ => x)
  }

  /** A line of `share_url.txt` or `retry.txt`: the number, the folder
      names and the link (or the `fid`), separated by ` | `. */
  function FieldLine(n: nat, names: seq<string>, last: string): string
  {
    Join([NatToString(n)] + names + [last], FieldSep)
  }

  /** A line of `share_error.txt`: `{error}.{first} 文件夹` for a
      first-level folder, `{error}.{first}/{second} Map` for a second-level
      one. */
  function ErrorLine(error: nat, names: seq<string>): string
    requires |names| == 1 || |names| == 2
  {
    NatToString(error) + "."
      + if |names| == 1 then names[0] + " 文件夹" else names[0] + "/" + names[1] + " Map"
  }

  /** One folder shared with up to three attempts (quark.py:618-650 for a
      first-level folder, quark.py:658-693 for a second-level one). It
      takes the next number whatever happens; each failed attempt adds one
      to `error`; a success appends one line to `share_url.txt`, and three
      failures append one line to `share_error.txt` and one to `retry.txt`.
      The title sent is the folder's own name. */
  function ShareFolder(attempts: seq<Option<Shared>>, r: Run, names: seq<string>, fid: string): (r': Run)
    requires |names| == 1 || |names| == 2
    ensures r'.n == r.n + 1
    ensures r.attempted < r'.attempted <= r.attempted + MaxAttempts
    ensures r'.error - r.error == |r'.shareRequests| - |r.shareRequests|
            - (if r'.files.retryLedger == r.files.retryLedger then 1 else 0)
    ensures |r'.shareRequests| >= |r.shareRequests| && r'.shareRequests[..|r.shareRequests|] == r.shareRequests
    ensures forall k :: |r.shareRequests| <= k < |r'.shareRequests| ==>
              r'.shareRequests[k] == ShareRequest(fid, names[|names| - 1])
    ensures r'.listed == r.listed && r'.listRequests == r.listRequests
    ensures r'.firstDir == r.firstDir && r'.secondDir == r.secondDir
    ensures r'.files.backup == r.files.backup
    ensures r'.files.retryLedger == r.files.retryLedger
            || r'.files.retryLedger == r.files.retryLedger + FieldLine(r'.n, names, fid) + "\n"
  {
    var n := r.n + 1;
    var t := TryShare(attempts, r.attempted, MaxAttempts);
    var error := r.error + t.failures;
    var files := r.files;
    var files' := match t.result
      case Some(s) =>
        files.(shareUrl := Some(files.shareUrl.GetOr("") + FieldLine(n, names, s.shareUrl) + "\n"))
      case None =>
        files.(errorLog := files.errorLog + ErrorLine(error, names) + "\n",
               retryLedger := files.retryLedger + FieldLine(n, names, fid) + "\n");
    var sent := Repeat(ShareRequest(fid, names[|names| - 1]), Used(t));
    assert t.result.Some? ==> files'.retryLedger == files.retryLedger;
    assert t.result.None? ==> files'.retryLedger != files.retryLedger;
    r.(n := n, error := error, attempted := r.attempted + Used(t), files := files',
       shareRequests := r.shareRequests + sent)
  }

  /** The folder's line goes to `retry.txt` exactly when all three attempts
      fail; then `error` grows by three and `share_error.txt` gets its
      line. A success instead appends the numbered link to
      `share_url.txt` and leaves both error files alone. */
  lemma ShareFolderOutcome(attempts: seq<Option<Shared>>, r: Run, names: seq<string>, fid: string)
    requires |names| == 1 || |names| == 2
    ensures var r' := ShareFolder(attempts, r, names, fid);
      var t := TryShare(attempts, r.attempted, MaxAttempts);
      (t.result.None? <==> r'.files.retryLedger == r.files.retryLedger + FieldLine(r.n + 1, names, fid) + "\n")
      && (t.result.None? ==>
            r'.error == r.error + MaxAttempts
            && r'.files.errorLog == r.files.errorLog + ErrorLine(r'.error, names) + "\n"
            && r'.files.shareUrl == r.files.shareUrl)
      && (t.result.Some? ==>
            r'.error == r.error + t.failures
            && r'.files.errorLog == r.files.errorLog && r'.files.retryLedger == r.files.retryLedger
            && r'.files.shareUrl == Some(r.files.shareUrl.GetOr("") + FieldLine(r.n + 1, names, t.result.value.shareUrl) + "\n"))
  {
    var t := TryShare(attempts, r.attempted, MaxAttempts);
    if t.result.Some? {
      var line := FieldLine(r.n + 1, names, fid) + "\n";
      assert |r.files.retryLedger + line| > |r.files.retryLedger|;
    }
  }

  /** The second-level entries of one page, from index `i` on
      (quark.py:657-693): every folder among them is shared. */
  function ChildItems(attempts: seq<Option<Shared>>, r: Run, items: seq<Item>, i: nat): (r': Run)
    requires i <= |items|
    ensures r'.listed == r.listed && r'.listRequests == r.listRequests
    ensures r'.firstDir == r.firstDir
    decreases |items| - i
  {
    if i == |items| then r
    else if !items[i].dir then ChildItems(attempts, r, items, i + 1)
    else
      var second := items[i].fileName;
      var r1 := ShareFolder(attempts, r.(secondDir := second), [r.firstDir, second], items[i].fid);
      ChildItems(attempts, r1, items, i + 1)
  }

  /** The paging loop over one first-level folder (quark.py:653-700):
      page `page` is requested; after its entries, the loop stops when
      `_size * _page >= _total` and otherwise asks for the reported
      `_page + 1`. */
  function ChildPages(server: Server, r: Run, parent: string, page: int): (f: Flow)
    ensures f.run.listed >= r.listed && f.run.firstDir == r.firstDir
    decreases |server.listing| - r.listed
  {
    var r1 := r.(listRequests := r.listRequests + [ListRequest(parent, page)]);
    if r.listed >= |server.listing| then Flow(r1, true)
    else
      var p := server.listing[r.listed];
      var r2 := ChildItems(server.attempts, r1.(listed := r.listed + 1), p.items, 0);
      if !GoesOn(p) then Flow(r2, false)
      else ChildPages(server, r2, parent, p.page + 1)
  }

  /** The first-level entries of one page, from index `i` on
      (quark.py:613-652): each folder becomes `first_dir`; at depth 1 it is
      shared, at any other depth its second-level folders are. */
  function RootItems(server: Server, r: Run, depth: int, items: seq<Item>, i: nat): (f: Flow)
    requires i <= |items|
    ensures f.run.listed >= r.listed
    decreases |items| - i
  {
    if i == |items| then Flow(r, false)
    else if !items[i].dir then RootItems(server, r, depth, items, i + 1)
    else
      var first := items[i].fileName;
      var r1 := r.(firstDir := first);
      if depth == 1 then
        RootItems(server, ShareFolder(server.attempts, r1, [first], items[i].fid), depth, items, i + 1)
      else
        var f := ChildPages(server, r1, items[i].fid, 1);
        if f.raised then f else RootItems(server, f.run, depth, items, i + 1)
  }

  /** The paging loop over the share page itself (quark.py:611-707): the
      stop test is the same, but the next page asked for is the loop's own
      counter plus one. */
  function RootPages(server: Server, r: Run, pwdId: string, depth: int, page: int): (f: Flow)
    ensures f.run.listed >= r.listed
    decreases |server.listing| - r.listed
  {
    var r1 := r.(listRequests := r.listRequests + [ListRequest(pwdId, page)]);
    if r.listed >= |server.listing| then Flow(r1, true)
    else
      var p := server.listing[r.listed];
      var f := RootItems(server, r1.(listed := r.listed + 1), depth, p.items, 0);
      if f.raised then f
      else if !GoesOn(p) then f
      else RootPages(server, f.run, pwdId, depth, page + 1)
  }

  /** The title of the single share made at depth 0. */
  const RootTitle: string := "direktori akar"

  /** `safe_copy('share/share_url.txt', 'share/share_url_backup.txt')`
      followed by truncating `share_url.txt`. */
  function BackUpAndTruncate(files: ShareFiles): (files': ShareFiles)
    ensures files'.shareUrl == Some("")
    ensures files'.backup == if files.shareUrl.Some? then files.shareUrl else files.backup
    ensures files'.errorLog == files.errorLog && files'.retryLedger == files.retryLedger
  {
    files.(backup := if files.shareUrl.Some? then files.shareUrl else files.backup, shareUrl := Some(""))
  }

  /** What a run leaves behind. */
  datatype ShareRunResult = ShareRunResult(files: ShareFiles, n: nat,
                                           listRequests: seq<ListRequest>,
                                           shareRequests: seq<ShareRequest>)

  function InitialRun(files: ShareFiles): Run
  {
    Run(0, 0, "", "", 0, 0, files, [], [])
  }

  /** The line the outer handler appends: `{first_dir}/{second_dir} Map`,
      without a newline. */
  function AbortLine(firstDir: string, secondDir: string): string
  {
    firstDir + "/" + secondDir + " Map"
  }

  /** The line depth 0 writes to `share_url.txt`: `1 | {title} | {share_url}`. */
  lemma RootLine(title: string, url: string)
    ensures FieldLine(1, [title], url) == "1 | " + title + " | " + url
  {
    assert NatToString(1) == "1";
    var fields := [NatToString(1)] + [title] + [url];
    assert fields == ["1", title, url];
    assert fields[1..] == [title, url] && fields[1..][1..] == [url];
    assert Join([url], FieldSep) == url;
    assert Join([title, url], FieldSep) == title + FieldSep + url;
    assert Join(fields, FieldSep) == "1" + FieldSep + (title + FieldSep + url);
  }

  /** `share_run(share_url, ..., traverse_depth)`. A link without `/`
      raises `IndexError` before anything is written, and the outer handler
      appends `/ Map` to `share_error.txt`. At depth 0 the share page itself
      is shared, once, under the title `direktori akar`, without any
      listing. At other depths a listing or share call that raises ends the
      walk, and the handler appends `{first_dir}/{second_dir} Map`. */
  function ShareRunOf(server: Server, files: ShareFiles, shareUrl: string, depth: int): (res: ShareRunResult)
    ensures ShareRunPwdId(shareUrl).None? ==>
      res.files == files.(errorLog := files.errorLog + "/ Map")
      && res.n == 0 && res.listRequests == [] && res.shareRequests == []
    ensures ShareRunPwdId(shareUrl).Some? && depth == 0 ==>
      var reply := AttemptAt(server.attempts, 0);
      res.n == 0 && res.listRequests == []
      && res.shareRequests == [ShareRequest(ShareRunPwdId(shareUrl).value, "direktori akar")]
      && res.files.backup == BackUpAndTruncate(files).backup
      && res.files.errorLog == files.errorLog && res.files.retryLedger == files.retryLedger
      && res.files.shareUrl
         == Some(if reply.Some? then "1 | " + reply.value.title + " | " + reply.value.shareUrl + "\n" else "")
    ensures ShareRunPwdId(shareUrl).Some? && depth != 0 ==>
      var f := RootPages(server, InitialRun(BackUpAndTruncate(files)), ShareRunPwdId(shareUrl).value, depth, 1);
      res.n == f.run.n && res.listRequests == f.run.listRequests && res.shareRequests == f.run.shareRequests
      && res.files.shareUrl == f.run.files.shareUrl && res.files.retryLedger == f.run.files.retryLedger
      && res.files.errorLog
         == f.run.files.errorLog + (if f.raised then f.run.firstDir + "/" + f.run.secondDir + " Map" else "")
  {
    match ShareRunPwdId(shareUrl)
    case None =>
      ShareRunResult(files.(errorLog := files.errorLog + AbortLine("", "")), 0, [], [])
    case Some(pwdId) =>
      var files1 := BackUpAndTruncate(files);
      if depth == 0 then
        var sent := [ShareRequest(pwdId, RootTitle)];
        match AttemptAt(server.attempts, 0)
        case None => ShareRunResult(files1, 0, [], sent)
        case Some(s) =>
          RootLine(s.title, s.shareUrl);
          ShareRunResult(files1.(shareUrl := Some(FieldLine(1, [s.title], s.shareUrl) + "\n")), 0, [], sent)
      else
        var f := RootPages(server, InitialRun(files1), pwdId, depth, 1);
        var r := f.run;
        var files2 := if f.raised then r.files.(errorLog := r.files.errorLog + AbortLine(r.firstDir, r.secondDir))
                      else r.files;
        ShareRunResult(files2, r.n, r.listRequests, r.shareRequests)
  }

  /** The attempts loop `for i in range(3)`: stops at the first attempt
      that succeeds. */
  method TryShareLoop(attempts: seq<Option<Shared>>, c: nat) returns (t: ShareTry)
    ensures t == TryShare(attempts, c, MaxAttempts)
  {
    var failures := 0;
    for i := 0 to MaxAttempts
      invariant failures == i
      invariant TryShare(attempts, c, MaxAttempts)
                == var rest := TryShare(attempts, c + i, MaxAttempts - i); ShareTry(rest.failures + i, rest.result)
    {
      var reply := AttemptAt(attempts, c + i);
      if reply.Some? {
        return ShareTry(failures, reply);
      }
      failures := failures + 1;
    }
    return ShareTry(failures, None);
  }

  /** One folder shared: the number, the attempts, and the line written. */
  method ShareFolderStep(attempts: seq<Option<Shared>>, r: Run, names: seq<string>, fid: string)
    returns (r': Run)
    requires |names| == 1 || |names| == 2
    ensures r' == ShareFolder(attempts, r, names, fid)
  {
    var n := r.n + 1;
    var t := TryShareLoop(attempts, r.attempted);
    var error := r.error + t.failures;
    var files := r.files;
    if t.result.Some? {
      files := files.(shareUrl := Some(files.shareUrl.GetOr("") + FieldLine(n, names, t.result.value.shareUrl) + "\n"));
    } else {
      files := files.(errorLog := files.errorLog + ErrorLine(error, names) + "\n",
                      retryLedger := files.retryLedger + FieldLine(n, names, fid) + "\n");
    }
    r' := r.(n := n, error := error, attempted := r.attempted + Used(t), files := files,
             shareRequests := r.shareRequests + Repeat(ShareRequest(fid, names[|names| - 1]), Used(t)));
  }

  /** The paging loop over one first-level folder, with the loop over each
      page's entries inside it. */
  method ShareChildren(server: Server, r: Run, parent: string) returns (f: Flow)
    ensures f == ChildPages(server, r, parent, 1)
  {
    var cur := r;
    var page := 1;
    while true
      invariant ChildPages(server, cur, parent, page) == ChildPages(server, r, parent, 1)
      decreases |server.listing| - cur.listed
    {
      var r1 := cur.(listRequests := cur.listRequests + [ListRequest(parent, page)]);
      if cur.listed >= |server.listing| {
        return Flow(r1, true);
      }
      var p := server.listing[cur.listed];
      var x := r1.(listed := cur.listed + 1);
      ghost var x0 := x;
      var i := 0;
      while i < |p.items|
        invariant 0 <= i <= |p.items|
        invariant ChildItems(server.attempts, x, p.items, i) == ChildItems(server.attempts, x0, p.items, 0)
      {
        if p.items[i].dir {
          var second := p.items[i].fileName;
          x := ShareFolderStep(server.attempts, x.(secondDir := second), [x.firstDir, second], p.items[i].fid);
        }
        i := i + 1;
      }
      if !GoesOn(p) {
        return Flow(x, false);
      }
      page := p.page + 1;
      cur := x;
    }
  }

  /** The paging loop over the share page, with the loop over each page's
      entries inside it. */
  method ShareRoot(server: Server, r: Run, pwdId: string, depth: int) returns (f: Flow)
    ensures f == RootPages(server, r, pwdId, depth, 1)
  {
    var cur := r;
    var page := 1;
    while true
      invariant RootPages(server, cur, pwdId, depth, page) == RootPages(server, r, pwdId, depth, 1)
      decreases |server.listing| - cur.listed
    {
      var r1 := cur.(listRequests := cur.listRequests + [ListRequest(pwdId, page)]);
      if cur.listed >= |server.listing| {
        return Flow(r1, true);
      }
      var p := server.listing[cur.listed];
      var x := r1.(listed := cur.listed + 1);
      ghost var x0 := x;
      var i := 0;
      while i < |p.items|
        invariant 0 <= i <= |p.items|
        invariant x.listed >= x0.listed
        invariant RootItems(server, x, depth, p.items, i) == RootItems(server, x0, depth, p.items, 0)
      {
        if p.items[i].dir {
          var first := p.items[i].fileName;
          x := x.(firstDir := first);
          if depth == 1 {
            x := ShareFolderStep(server.attempts, x, [first], p.items[i].fid);
          } else {
            var g := ShareChildren(server, x, p.items[i].fid);
            if g.raised {
              return g;
            }
            x := g.run;
          }
        }
        i := i + 1;
      }
      if !GoesOn(p) {
        return Flow(x, false);
      }
      page := page + 1;
      cur := x;
    }
  }

  /** `share_run(share_url, ..., traverse_depth)`. */
  method ShareRun(server: Server, files: ShareFiles, shareUrl: string, depth: int)
    returns (res: ShareRunResult)
    ensures res == ShareRunOf(server, files, shareUrl, depth)
  {
    var pwdId := ShareRunPwdId(shareUrl);
    if pwdId.None? {
      return ShareRunResult(files.(errorLog := files.errorLog + AbortLine("", "")), 0, [], []);
    }
    var files1 := BackUpAndTruncate(files);
    if depth == 0 {
      var sent := [ShareRequest(pwdId.value, RootTitle)];
      var reply := AttemptAt(server.attempts, 0);
      if reply.Some? {
        files1 := files1.(shareUrl := Some(FieldLine(1, [reply.value.title], reply.value.shareUrl) + "\n"));
      }
      return ShareRunResult(files1, 0, [], sent);
    }
    var f := ShareRoot(server, InitialRun(files1), pwdId.value, depth);
    var r := f.run;
    var files2 := r.files;
    if f.raised {
      files2 := files2.(errorLog := files2.errorLog + AbortLine(r.firstDir, r.secondDir));
    }
    res := ShareRunResult(files2, r.n, r.listRequests, r.shareRequests);
  }

  /** The number of folders among `items`. */
  function DirCount(items: seq<Item>): nat
  {
    if |items| == 0 then 0 else (if items[0].dir then 1 else 0) + DirCount(items[1..])
  }

  /** Every second-level folder of a page takes the next number, whether
      or not it could be shared. */
  lemma {:induction false} ChildItemsNumbering(attempts: seq<Option<Shared>>, r: Run, items: seq<Item>, i: nat)
    requires i <= |items|
    ensures ChildItems(attempts, r, items, i).n == r.n + DirCount(items[i..])
    decreases |items| - i
  {
    if i < |items| {
      assert items[i..][1..] == items[i + 1..];
      if items[i].dir {
        var second := items[i].fileName;
        ChildItemsNumbering(attempts, ShareFolder(attempts, r.(secondDir := second), [r.firstDir, second], items[i].fid), items, i + 1);
      } else {
        ChildItemsNumbering(attempts, r, items, i + 1);
      }
    }
  }

  /** At depth 1 no second-level listing is made: the entries of a page
      never raise, list nothing, and number every folder among them. */
  lemma {:induction false} RootItemsDepthOne(server: Server, r: Run, items: seq<Item>, i: nat)
    requires i <= |items|
    ensures var f := RootItems(server, r, 1, items, i);
      !f.raised && f.run.listed == r.listed && f.run.listRequests == r.listRequests
      && f.run.n == r.n + DirCount(items[i..])
    decreases |items| - i
  {
    if i < |items| {
      assert items[i..][1..] == items[i + 1..];
      if items[i].dir {
        var first := items[i].fileName;
        RootItemsDepthOne(server, ShareFolder(server.attempts, r.(firstDir := first), [first], items[i].fid), items, i + 1);
      } else {
        RootItemsDepthOne(server, r, items, i + 1);
      }
    }
  }

  /** The folders among `items`, in order. */
  function DirItems(items: seq<Item>): (ds: seq<Item>)
    ensures |ds| == DirCount(items)
  {
    if |items| == 0 then []
    else (if items[0].dir then [items[0]] else []) + DirItems(items[1..])
  }

  /** `DirItems` keeps exactly the folders. */
  lemma {:induction false} DirItemsAreFolders(items: seq<Item>, x: Item)
    ensures x in DirItems(items) <==> x in items && x.dir
  {
    if |items| > 0 {
      DirItemsAreFolders(items[1..], x);
      assert items == [items[0]] + items[1..];
    }
  }

  /** The share requests for `folders` when the k-th of them is asked for
      `uses[k]` times in a row, each under its own `fid` and name. */
  function Expand(folders: seq<Item>, uses: seq<nat>): seq<ShareRequest>
    requires |uses| == |folders|
  {
    if |folders| == 0 then []
    else Repeat(ShareRequest(folders[0].fid, folders[0].fileName), uses[0]) + Expand(folders[1..], uses[1..])
  }

  /** Every folder is asked for at least once and at most three times. */
  predicate OneToThree(uses: seq<nat>)
  {
    forall k :: 0 <= k < |uses| ==> 1 <= uses[k] <= MaxAttempts
  }

  /** The entries of the listing replies `listing[a..b]`, in order (none
      past the last reply). */
  function PageItems(listing: seq<ListPage>, a: nat, b: nat): seq<Item>
    decreases b - a
  {
    if a >= b || a >= |listing| then [] else listing[a].items + PageItems(listing, a + 1, b)
  }

  lemma {:induction false} DirItemsAppend(a: seq<Item>, b: seq<Item>)
    ensures DirItems(a + b) == DirItems(a) + DirItems(b)
  {
    if |a| == 0 {
      assert a + b == b;
    } else {
      assert (a + b)[1..] == a[1..] + b;
      DirItemsAppend(a[1..], b);
    }
  }

  lemma {:induction false} ExpandAppend(a: seq<Item>, ua: seq<nat>, b: seq<Item>, ub: seq<nat>)
    requires |ua| == |a| && |ub| == |b|
    ensures Expand(a + b, ua + ub) == Expand(a, ua) + Expand(b, ub)
  {
    if |a| == 0 {
      assert a + b == b && ua + ub == ub;
    } else {
      assert (a + b)[1..] == a[1..] + b && (ua + ub)[1..] == ua[1..] + ub;
      ExpandAppend(a[1..], ua[1..], b, ub);
    }
  }

  lemma {:induction false} PageItemsSplit(listing: seq<ListPage>, a: nat, m: nat, b: nat)
    requires a <= m <= b
    ensures PageItems(listing, a, b) == PageItems(listing, a, m) + PageItems(listing, m, b)
    decreases m - a
  {
    if a < m && a < |listing| {
      PageItemsSplit(listing, a + 1, m, b);
    }
  }

  lemma ExpandCons(x: Item, rest: seq<Item>, u: nat, urest: seq<nat>)
    requires |urest| == |rest|
    ensures Expand([x] + rest, [u] + urest) == Repeat(ShareRequest(x.fid, x.fileName), u) + Expand(rest, urest)
  {
    assert ([x] + rest)[1..] == rest && ([u] + urest)[1..] == urest;
  }

  /** One folder's block of requests followed by the later folders' is
      the expansion of all of them. */
  lemma BlockThenRest(prev: seq<ShareRequest>, mid: seq<ShareRequest>, fin: seq<ShareRequest>,
                      x: Item, u: nat, tail: seq<Item>, rest: seq<nat>)
    requires |rest| == |tail|
    requires mid == prev + Repeat(ShareRequest(x.fid, x.fileName), u)
    requires fin == mid + Expand(tail, rest)
    ensures fin == prev + Expand([x] + tail, [u] + rest)
  {
    ExpandCons(x, tail, u, rest);
  }

  /** Two stretches of listing replies, one after the other, share the
      folders of both. */
  lemma StretchThenRest(prev: seq<ShareRequest>, mid: seq<ShareRequest>, fin: seq<ShareRequest>,
                        here: seq<Item>, u1: seq<nat>, later: seq<Item>, u2: seq<nat>)
    requires |u1| == |DirItems(here)| && |u2| == |DirItems(later)|
    requires mid == prev + Expand(DirItems(here), u1)
    requires fin == mid + Expand(DirItems(later), u2)
    ensures |u1 + u2| == |DirItems(here + later)| && fin == prev + Expand(DirItems(here + later), u1 + u2)
  {
    DirItemsAppend(here, later);
    ExpandAppend(DirItems(here), u1, DirItems(later), u2);
  }

  /** The folders from index `i` on: the one at `i`, if it is one, then
      the rest. */
  lemma DirItemsFrom(items: seq<Item>, i: nat)
    requires i < |items|
    ensures DirItems(items[i..]) == (if items[i].dir then [items[i]] else []) + DirItems(items[i + 1..])
  {
    assert items[i..][0] == items[i] && items[i..][1..] == items[i + 1..];
  }

  /** A second-level folder's step: one to three requests, all for it. */
  lemma ChildItemsFolder(attempts: seq<Option<Shared>>, r: Run, items: seq<Item>, i: nat)
    returns (r1: Run, u: nat)
    requires i < |items| && items[i].dir
    ensures ChildItems(attempts, r, items, i) == ChildItems(attempts, r1, items, i + 1)
    ensures 1 <= u <= MaxAttempts
    ensures r1.shareRequests == r.shareRequests + Repeat(ShareRequest(items[i].fid, items[i].fileName), u)
  {
    var second := items[i].fileName;
    r1 := ShareFolder(attempts, r.(secondDir := second), [r.firstDir, second], items[i].fid);
    u := Used(TryShare(attempts, r.attempted, MaxAttempts));
  }

  /** A first-level folder's step at depth 1: one to three requests, all
      for it. */
  lemma RootItemsFolder(server: Server, r: Run, items: seq<Item>, i: nat)
    returns (r1: Run, u: nat)
    requires i < |items| && items[i].dir
    ensures RootItems(server, r, 1, items, i) == RootItems(server, r1, 1, items, i + 1)
    ensures r1.listed == r.listed
    ensures 1 <= u <= MaxAttempts
    ensures r1.shareRequests == r.shareRequests + Repeat(ShareRequest(items[i].fid, items[i].fileName), u)
  {
    var first := items[i].fileName;
    r1 := ShareFolder(server.attempts, r.(firstDir := first), [first], items[i].fid);
    u := Used(TryShare(server.attempts, r.attempted, MaxAttempts));
  }

  /** The second-level entries of a page share exactly their folders, in
      order, each under its own `fid` and name, one to three times. */
  lemma {:induction false} ChildItemsShares(attempts: seq<Option<Shared>>, r: Run, items: seq<Item>, i: nat)
    returns (uses: seq<nat>)
    requires i <= |items|
    ensures |uses| == |DirItems(items[i..])| && OneToThree(uses)
    ensures ChildItems(attempts, r, items, i).shareRequests == r.shareRequests + Expand(DirItems(items[i..]), uses)
    decreases |items| - i
  {
    if i == |items| {
      uses := [];
      assert items[i..] == [];
    } else {
      DirItemsFrom(items, i);
      if !items[i].dir {
        assert ChildItems(attempts, r, items, i) == ChildItems(attempts, r, items, i + 1);
        assert DirItems(items[i..]) == DirItems(items[i + 1..]);
        uses := ChildItemsShares(attempts, r, items, i + 1);
      } else {
        assert DirItems(items[i..]) == [items[i]] + DirItems(items[i + 1..]);
        var r1, u := ChildItemsFolder(attempts, r, items, i);
        var rest := ChildItemsShares(attempts, r1, items, i + 1);
        BlockThenRest(r.shareRequests, r1.shareRequests, ChildItems(attempts, r1, items, i + 1).shareRequests,
                      items[i], u, DirItems(items[i + 1..]), rest);
        uses := [u] + rest;
      }
    }
  }

  /** At depth 1 the first-level entries of a page share exactly their
      folders, in order, each under its own `fid` and name, one to three
      times. */
  lemma {:induction false} RootItemsDepthOneShares(server: Server, r: Run, items: seq<Item>, i: nat)
    returns (uses: seq<nat>)
    requires i <= |items|
    ensures |uses| == |DirItems(items[i..])| && OneToThree(uses)
    ensures RootItems(server, r, 1, items, i).run.shareRequests
            == r.shareRequests + Expand(DirItems(items[i..]), uses)
    decreases |items| - i
  {
    if i == |items| {
      uses := [];
      assert items[i..] == [];
    } else {
      DirItemsFrom(items, i);
      if !items[i].dir {
        assert RootItems(server, r, 1, items, i) == RootItems(server, r, 1, items, i + 1);
        assert DirItems(items[i..]) == DirItems(items[i + 1..]);
        uses := RootItemsDepthOneShares(server, r, items, i + 1);
      } else {
        assert DirItems(items[i..]) == [items[i]] + DirItems(items[i + 1..]);
        var r1, u := RootItemsFolder(server, r, items, i);
        var rest := RootItemsDepthOneShares(server, r1, items, i + 1);
        BlockThenRest(r.shareRequests, r1.shareRequests, RootItems(server, r1, 1, items, i + 1).run.shareRequests,
                      items[i], u, DirItems(items[i + 1..]), rest);
        uses := [u] + rest;
      }
    }
  }

  /** One page of a paging loop: the loop either raises with nothing
      listed, or lists the page's entries and stops or goes on. */
  lemma ChildPagesStep(server: Server, r: Run, parent: string, page: int)
    returns (r2: Run, u1: seq<nat>)
    requires r.listed < |server.listing|
    ensures var p := server.listing[r.listed];
      r2.listed == r.listed + 1
      && |u1| == |DirItems(p.items)| && OneToThree(u1)
      && r2.shareRequests == r.shareRequests + Expand(DirItems(p.items), u1)
      && ChildPages(server, r, parent, page)
         == (if GoesOn(p) then ChildPages(server, r2, parent, p.page + 1) else Flow(r2, false))
  {
    var p := server.listing[r.listed];
    var x := r.(listRequests := r.listRequests + [ListRequest(parent, page)], listed := r.listed + 1);
    assert p.items[0..] == p.items;
    u1 := ChildItemsShares(server.attempts, x, p.items, 0);
    r2 := ChildItems(server.attempts, x, p.items, 0);
  }

  /** The paging loop over a first-level folder shares exactly the folders
      on the pages it was given, in order, one to three times each. */
  lemma {:induction false} ChildPagesShares(server: Server, r: Run, parent: string, page: int)
    returns (uses: seq<nat>)
    ensures var f := ChildPages(server, r, parent, page);
      var shared := DirItems(PageItems(server.listing, r.listed, f.run.listed));
      |uses| == |shared| && OneToThree(uses)
      && f.run.shareRequests == r.shareRequests + Expand(shared, uses)
    decreases |server.listing| - r.listed
  {
    var listing := server.listing;
    if r.listed >= |listing| {
      uses := [];
    } else {
      var p := listing[r.listed];
      var r2, u1 := ChildPagesStep(server, r, parent, page);
      var f := ChildPages(server, r, parent, page);
      var u2: seq<nat>;
      if GoesOn(p) {
        u2 := ChildPagesShares(server, r2, parent, p.page + 1);
      } else {
        u2 := [];
      }
      var later := PageItems(listing, r.listed + 1, f.run.listed);
      StretchThenRest(r.shareRequests, r2.shareRequests, f.run.shareRequests, p.items, u1, later, u2);
      assert PageItems(listing, r.listed, f.run.listed) == p.items + later;
      uses := u1 + u2;
    }
  }

  /** A first-level folder's step at a depth other than 1: the paging loop
      over it, and then the rest of the page unless it raised. */
  lemma RootItemsDeepStep(server: Server, r: Run, depth: int, items: seq<Item>, i: nat)
    requires i < |items| && items[i].dir && depth != 1
    ensures var f := ChildPages(server, r.(firstDir := items[i].fileName), items[i].fid, 1);
      RootItems(server, r, depth, items, i)
         == (if f.raised then f else RootItems(server, f.run, depth, items, i + 1))
  {
  }

  /** At any depth but 1 the first-level entries of a page share nothing
      themselves: the share requests are those of the paging loops over
      their folders, exactly the folders on the second-level pages. */
  lemma {:induction false} RootItemsDeepShares(server: Server, r: Run, depth: int, items: seq<Item>, i: nat)
    returns (uses: seq<nat>)
    requires i <= |items| && depth != 1
    ensures var f := RootItems(server, r, depth, items, i);
      var shared := DirItems(PageItems(server.listing, r.listed, f.run.listed));
      |uses| == |shared| && OneToThree(uses)
      && f.run.shareRequests == r.shareRequests + Expand(shared, uses)
    decreases |items| - i
  {
    var listing := server.listing;
    if i == |items| {
      uses := [];
    } else if !items[i].dir {
      uses := RootItemsDeepShares(server, r, depth, items, i + 1);
    } else {
      var r1 := r.(firstDir := items[i].fileName);
      RootItemsDeepStep(server, r, depth, items, i);
      var u1 := ChildPagesShares(server, r1, items[i].fid, 1);
      var f := ChildPages(server, r1, items[i].fid, 1);
      var g := if f.raised then f else RootItems(server, f.run, depth, items, i + 1);
      var u2: seq<nat>;
      if f.raised {
        u2 := [];
      } else {
        u2 := RootItemsDeepShares(server, f.run, depth, items, i + 1);
      }
      var here := PageItems(listing, r.listed, f.run.listed);
      var later := PageItems(listing, f.run.listed, g.run.listed);
      PageItemsSplit(listing, r.listed, f.run.listed, g.run.listed);
      StretchThenRest(r.shareRequests, f.run.shareRequests, g.run.shareRequests, here, u1, later, u2);
      uses := u1 + u2;
    }
  }

  /** One page at depth 1: its entries list nothing and never raise. */
  lemma RootPagesDepthOneStep(server: Server, r: Run, pwdId: string, page: int)
    returns (f: Flow, u1: seq<nat>)
    requires r.listed < |server.listing|
    ensures var p := server.listing[r.listed];
      f.run.listed == r.listed + 1
      && |u1| == |DirItems(p.items)| && OneToThree(u1)
      && f.run.shareRequests == r.shareRequests + Expand(DirItems(p.items), u1)
      && RootPages(server, r, pwdId, 1, page)
         == (if GoesOn(p) then RootPages(server, f.run, pwdId, 1, page + 1) else f)
  {
    var p := server.listing[r.listed];
    var x := r.(listRequests := r.listRequests + [ListRequest(pwdId, page)], listed := r.listed + 1);
    assert p.items[0..] == p.items;
    u1 := RootItemsDepthOneShares(server, x, p.items, 0);
    RootItemsDepthOne(server, x, p.items, 0);
    f := RootItems(server, x, 1, p.items, 0);
  }

  /** At depth 1 the whole run shares exactly the folders on the share
      page's listing pages, in order, one to three times each. */
  lemma {:induction false} RootPagesDepthOneShares(server: Server, r: Run, pwdId: string, page: int)
    returns (uses: seq<nat>)
    ensures var f := RootPages(server, r, pwdId, 1, page);
      var shared := DirItems(PageItems(server.listing, r.listed, f.run.listed));
      |uses| == |shared| && OneToThree(uses)
      && f.run.shareRequests == r.shareRequests + Expand(shared, uses)
    decreases |server.listing| - r.listed
  {
    var listing := server.listing;
    if r.listed >= |listing| {
      uses := [];
    } else {
      var p := listing[r.listed];
      var f, u1 := RootPagesDepthOneStep(server, r, pwdId, page);
      var g := RootPages(server, r, pwdId, 1, page);
      var u2: seq<nat>;
      if GoesOn(p) {
        u2 := RootPagesDepthOneShares(server, f.run, pwdId, page + 1);
      } else {
        u2 := [];
      }
      var later := PageItems(listing, r.listed + 1, g.run.listed);
      StretchThenRest(r.shareRequests, f.run.shareRequests, g.run.shareRequests, p.items, u1, later, u2);
      assert PageItems(listing, r.listed, g.run.listed) == p.items + later;
      uses := u1 + u2;
    }
  }

  /** The pages a paging loop asks for, from the listing replies alone: it
      asks for `page`; after a reply that goes on it asks again, for the
      reported `_page + 1` when `followReported` and for its own previous
      page plus one otherwise; it stops after a reply that does not go on,
      or when a request raises. */
  function PageRequests(listing: seq<ListPage>, k: nat, parent: string, page: int, followReported: bool)
    : (rs: seq<ListRequest>)
    ensures |rs| >= 1 && rs[0] == ListRequest(parent, page)
    ensures forall j :: 0 <= j < |rs| ==> rs[j].pdirFid == parent
    ensures |rs| > 1 ==> k + |rs| - 1 <= |listing|
    ensures forall j :: k <= j < k + |rs| - 1 ==> GoesOn(listing[j])
    ensures followReported ==> forall j :: 0 < j < |rs| ==> rs[j].page == listing[k + j - 1].page + 1
    ensures !followReported ==> forall j :: 0 < j < |rs| ==> rs[j].page == rs[j - 1].page + 1
    ensures k + |rs| - 1 < |listing| ==> !GoesOn(listing[k + |rs| - 1])
    decreases |listing| - k
  {
    var here := [ListRequest(parent, page)];
    if k >= |listing| then here
    else
      var p := listing[k];
      if !GoesOn(p) then here
      else
        var next := if followReported then p.page + 1 else page + 1;
        var rest := PageRequests(listing, k + 1, parent, next, followReported);
        var rs := here + rest;
        assert forall j :: 1 <= j < |rs| ==> rs[j] == rest[j - 1];
        rs
  }

  /** The requests of one first-level folder's paging loop are exactly the
      ones the listing replies determine; its second-level shares add no
      listing request. */
  lemma {:induction false} ChildPagesRequests(server: Server, r: Run, parent: string, page: int)
    ensures ChildPages(server, r, parent, page).run.listRequests
            == r.listRequests + PageRequests(server.listing, r.listed, parent, page, true)
    decreases |server.listing| - r.listed
  {
    var r1 := r.(listRequests := r.listRequests + [ListRequest(parent, page)]);
    if r.listed < |server.listing| {
      var p := server.listing[r.listed];
      var r2 := ChildItems(server.attempts, r1.(listed := r.listed + 1), p.items, 0);
      if GoesOn(p) {
        ChildPagesRequests(server, r2, parent, p.page + 1);
      }
    }
  }

  /** At depth 1 the requests of the whole run are the share page's own
      paging loop, which counts its pages itself. */
  lemma {:induction false} RootPagesDepthOneRequests(server: Server, r: Run, pwdId: string, page: int)
    ensures RootPages(server, r, pwdId, 1, page).run.listRequests
            == r.listRequests + PageRequests(server.listing, r.listed, pwdId, page, false)
    decreases |server.listing| - r.listed
  {
    var r1 := r.(listRequests := r.listRequests + [ListRequest(pwdId, page)]);
    if r.listed < |server.listing| {
      var p := server.listing[r.listed];
      RootItemsDepthOne(server, r1.(listed := r.listed + 1), p.items, 0);
      var f := RootItems(server, r1.(listed := r.listed + 1), 1, p.items, 0);
      if GoesOn(p) {
        RootPagesDepthOneRequests(server, f.run, pwdId, page + 1);
      }
    }
  }

  /** A line written with ` | ` separators splits back into its fields
      when no name and no link contains `|`. */
  lemma FieldLineSplits(n: nat, names: seq<string>, last: string)
    requires forall k :: 0 <= k < |names| ==> '|' !in names[k]
    requires '|' !in last
    ensures Split(FieldLine(n, names, last), FieldSep) == [NatToString(n)] + names + [last]
  {
    var fields := [NatToString(n)] + names + [last];
    forall k | 0 <= k < |fields| ensures '|' !in fields[k] {
      if k == 0 {
        var d := NatToString(n);
        forall j | 0 <= j < |d| ensures d[j] != '|' {
          assert '0' <= d[j] <= '9';
        }
      } else if k <= |names| {
        assert fields[k] == names[k - 1];
      } else {
        assert fields[k] == last;
      }
    }
    assert AnchoredAt(FieldSep, '|', 1);
    SplitJoin(fields, FieldSep, '|', 1);
  }
}
