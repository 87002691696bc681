/** `get_detail` (quark.py:71-122): the paged listing of one folder of a
    share. Each reply is one page of the server's answer; the pages are
    given in the order they are requested, and a request past the end of
    the given replies stands for a network call that raised. */
module Listing {
  import opened Wrappers

  /** The page size `get_detail` asks for. */
  const PageSize: int := 50

  /** One child as the server lists it. `includeItems` is absent for some
      children; `extra` holds the keys the tool does not keep. */
  datatype RawChild = RawChild(
    fid: string, fileName: string, fileType: int, dir: bool, pdirFid: string,
    includeItems: Option<int>, shareFidToken: string, status: int,
    extra: map<string, string>)

  /** `include_items`, or the empty string `''` the tool puts in its place. */
  datatype IncludeItems = Count(n: int) | Blank

  /** The 8-key record `get_detail` keeps for each child. */
  datatype FileRecord = FileRecord(
    fid: string, fileName: string, fileType: int, dir: bool, pdirFid: string,
    includeItems: IncludeItems, shareFidToken: string, status: int)

  /** One reply: `data.is_owner`, `metadata._total`, `_size`, `_count` and
      `data.list`. */
  datatype DetailPage = DetailPage(isOwner: int, total: int, size: int, count: int, children: seq<RawChild>)

  /** What `get_detail` returns, or `Failed` when a request raised. */
  datatype Detail = Listed(isOwner: int, files: seq<FileRecord>) | Failed

  /** The projection of one child onto the 8 kept keys. */
  function Project(c: RawChild): (r: FileRecord)
    ensures r.fid == c.fid && r.fileName == c.fileName && r.fileType == c.fileType
    ensures r.dir == c.dir && r.pdirFid == c.pdirFid
    ensures r.shareFidToken == c.shareFidToken && r.status == c.status
    ensures r.includeItems == (if c.includeItems.Some? then Count(c.includeItems.value) else Blank)
  {
    FileRecord(c.fid, c.fileName, c.fileType, c.dir, c.pdirFid,
               match c.includeItems case Some(k) => Count(k) case None => Blank,
               c.shareFidToken, c.status)
  }

  function ProjectAll(cs: seq<RawChild>): (rs: seq<FileRecord>)
    ensures |rs| == |cs| && forall k :: 0 <= k < |cs| ==> rs[k] == Project(cs[k])
  {
    seq(|cs|, k requires 0 <= k < |cs| => Project(cs[k]))
  }

  /** The loop asks for the next page after `p`: `_total >= 1`, more than a
      page in total, and a full page this time. */
  predicate Continues(p: DetailPage)
  {
    p.total >= 1 && !(p.total <= p.size || p.count < p.size)
  }

  /** The index of the first reply from `k` on after which the loop stops. */
  function StopFrom(replies: seq<DetailPage>, k: nat): (m: Option<nat>)
    ensures m.Some? ==> k <= m.value < |replies| && !Continues(replies[m.value])
    ensures forall j :: k <= j < |replies| && (m.None? || j < m.value) ==> Continues(replies[j])
    decreases |replies| - k
  {
    if k >= |replies| then None
    else if !Continues(replies[k]) then Some(k)
    else StopFrom(replies, k + 1)
  }

  /** The kept records of the first `m` replies, in page order. */
  function Gathered(replies: seq<DetailPage>, m: nat): seq<FileRecord>
    requires m <= |replies|
  {
    if m == 0 then [] else Gathered(replies, m - 1) + ProjectAll(replies[m - 1].children)
  }

  /** What `get_detail` returns for the replies: the records of every page
      up to the one that stops the loop, that page's `is_owner`, and none
      of that page's children when it reports `_total < 1`. */
  function DetailOf(replies: seq<DetailPage>): Detail
  {
    match StopFrom(replies, 0)
    case None => Failed
    case Some(m) =>
      Listed(replies[m].isOwner, if replies[m].total < 1 then Gathered(replies, m) else Gathered(replies, m + 1))
  }

  /** How many requests the loop makes: up to and including the stopping
      one, or one past the given replies (the one that raised). */
  function RequestCount(replies: seq<DetailPage>): nat
  {
    match StopFrom(replies, 0)
    case None => |replies| + 1
    case Some(m) => m + 1
  }

  /** `get_detail`: requests pages 1, 2, ... (the `_page` parameter) and
      collects the records until a page stops the loop. `pages` lists the
      `_page` values requested. */
  method GetDetail(replies: seq<DetailPage>) returns (result: Detail, pages: seq<int>)
    ensures result == DetailOf(replies)
    ensures |pages| == RequestCount(replies)
    ensures forall k :: 0 <= k < |pages| ==> pages[k] == k + 1
  {
    var page := 1;
    var fileList: seq<FileRecord> := [];
    pages := [];
    while true
      invariant 1 <= page <= |replies| + 1
      invariant fileList == Gathered(replies, page - 1)
      invariant forall j :: 0 <= j < page - 1 ==> Continues(replies[j])
      invariant |pages| == page - 1 && forall k :: 0 <= k < |pages| ==> pages[k] == k + 1
      decreases |replies| + 1 - page
    {
      pages := pages + [page];
      if page > |replies| {
        // The request raised.
        assert StopFrom(replies, 0).None?;
        return Failed, pages;
      }
      var reply := replies[page - 1];
      if reply.total < 1 {
        assert StopFrom(replies, 0) == Some(page - 1) by { StopIsFirst(replies, page - 1); }
        return Listed(reply.isOwner, fileList), pages;
      }
      fileList := fileList + ProjectAll(reply.children);
      if reply.total <= reply.size || reply.count < reply.size {
        assert StopFrom(replies, 0) == Some(page - 1) by { StopIsFirst(replies, page - 1); }
        return Listed(reply.isOwner, fileList), pages;
      }
      page := page + 1;
    }
  }

  /** The first reply that does not continue is where the loop stops. */
  lemma StopIsFirst(replies: seq<DetailPage>, m: nat)
    requires m < |replies| && !Continues(replies[m])
    requires forall j :: 0 <= j < m ==> Continues(replies[j])
    ensures StopFrom(replies, 0) == Some(m)
  {
  }

  /** A first page reporting `_total < 1` ends the listing at once with
      no records. (A later such page returns the records gathered before
      it.) */
  lemma EmptyFirstPage(replies: seq<DetailPage>)
    requires |replies| > 0 && replies[0].total < 1
    ensures DetailOf(replies) == Listed(replies[0].isOwner, [])
    ensures RequestCount(replies) == 1
  {
    StopIsFirst(replies, 0);
  }

  lemma ProjectAllAppend(a: seq<RawChild>, b: seq<RawChild>)
    ensures ProjectAll(a + b) == ProjectAll(a) + ProjectAll(b)
  {
  }

  function Min(a: int, b: int): int { if a <= b then a else b }

  /** Page `k` (counting from 0) of a server that holds `children` and
      answers every request with pages of `PageSize`. */
  function ServerPage(children: seq<RawChild>, isOwner: int, k: nat): (p: DetailPage)
    ensures p.total == |children| && p.size == PageSize && p.count == |p.children|
  {
    var lo := Min(PageSize * k, |children|);
    var hi := Min(PageSize * k + PageSize, |children|);
    DetailPage(isOwner, |children|, PageSize, hi - lo, children[lo..hi])
  }

  /** The replies such a server gives to the first `|children| / 50 + 1`
      requests. */
  function ServerPages(children: seq<RawChild>, isOwner: int): (ps: seq<DetailPage>)
    ensures |ps| == |children| / PageSize + 1
    ensures forall k :: 0 <= k < |ps| ==> ps[k] == ServerPage(children, isOwner, k)
  {
    seq(|children| / PageSize + 1, k requires 0 <= k => ServerPage(children, isOwner, k))
  }

  lemma {:induction false} GatheredServerPages(children: seq<RawChild>, isOwner: int, j: nat)
    requires j <= |children| / PageSize + 1
    ensures Gathered(ServerPages(children, isOwner), j) == ProjectAll(children[..Min(PageSize * j, |children|)])
  {
    var ps := ServerPages(children, isOwner);
    if j == 0 {
      assert children[..0] == [];
    } else {
      GatheredServerPages(children, isOwner, j - 1);
      var lo := Min(PageSize * (j - 1), |children|);
      var hi := Min(PageSize * j, |children|);
      assert ps[j - 1].children == children[lo..hi];
      assert children[..hi] == children[..lo] + children[lo..hi];
      ProjectAllAppend(children[..lo], children[lo..hi]);
    }
  }

  /** The index of the page that stops the loop against such a server. */
  function LastServerPage(t: nat): nat
  {
    if t <= PageSize then 0 else t / PageSize
  }

  /** Every page before the last one is full and leaves children over. */
  lemma ServerPageContinues(children: seq<RawChild>, isOwner: int, j: nat)
    requires j < LastServerPage(|children|)
    ensures Continues(ServerPage(children, isOwner, j))
  {
    var t := |children|;
    assert PageSize * j + PageSize <= PageSize * (t / PageSize) <= t;
  }

  /** The last page is the one whose end reaches the children's count. */
  lemma ServerPageStops(children: seq<RawChild>, isOwner: int)
    ensures !Continues(ServerPage(children, isOwner, LastServerPage(|children|)))
    ensures Min(PageSize * (LastServerPage(|children|) + 1), |children|) == |children|
  {
    var t := |children|;
    if t > PageSize {
      var m := t / PageSize;
      assert PageSize * m <= t < PageSize * m + PageSize;
    }
  }

  /** Against a server that pages its `T` children correctly, `get_detail`
      returns every child once, in order. It makes one request when
      `T <= 50` and `T / 50 + 1` otherwise, so when `T` is a multiple of 50
      above 50 the last request returns an empty page. */
  lemma ConformingServerListsAll(children: seq<RawChild>, isOwner: int)
    ensures DetailOf(ServerPages(children, isOwner)) == Listed(isOwner, ProjectAll(children))
    ensures RequestCount(ServerPages(children, isOwner))
            == if |children| <= PageSize then 1 else |children| / PageSize + 1
  {
    var ps := ServerPages(children, isOwner);
    var m := LastServerPage(|children|);
    forall j | 0 <= j < m ensures Continues(ps[j]) {
      ServerPageContinues(children, isOwner, j);
    }
    ServerPageStops(children, isOwner);
    StopIsFirst(ps, m);
    GatheredServerPages(children, isOwner, m + 1);
    assert children[..|children|] == children;
    if |children| < 1 {
      GatheredServerPages(children, isOwner, 0);
      assert children == [];
    }
  }

  lemma {:induction false} GatheredPrefix(replies: seq<DetailPage>, n: nat, m: nat)
    requires m <= n <= |replies|
    ensures Gathered(replies[..n], m) == Gathered(replies, m)
  {
    if m > 0 {
      GatheredPrefix(replies, n, m - 1);
      assert replies[..n][m - 1] == replies[m - 1];
    }
  }

  /** The replies after the page that stops the loop are never consulted. */
  lemma RepliesAfterStopIgnored(replies: seq<DetailPage>, extra: seq<DetailPage>)
    requires StopFrom(replies, 0).Some?
    ensures DetailOf(replies + extra) == DetailOf(replies)
    ensures RequestCount(replies + extra) == RequestCount(replies)
  {
    var m := StopFrom(replies, 0).value;
    var all := replies + extra;
    assert all[..|replies|] == replies;
    StopIsFirst(all, m);
    GatheredPrefix(all, |replies|, m);
    GatheredPrefix(all, |replies|, m + 1);
  }
}
