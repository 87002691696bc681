/** Share-link text as quark.py reads and writes it: the `pwd_id` taken
    from a link (`get_pwd_id`, and the splits in `run` and `share_run`),
    the password taken from its `pwd=` parameter, and the link that
    `submit_share` builds with `?pwd=` appended. */
module ShareLink {
  import opened Wrappers
  import opened Text

  /** `get_pwd_id(share_url)`, quark.py:42-43:
      `share_url.split('?')[0].split('/s/')[-1]`. The text before the first
      `?` is cut after an occurrence of `/s/` (the last one the
      left-to-right split finds); without `/s/` it is kept whole. */
  function GetPwdId(shareUrl: string): (pwdId: string)
    ensures '?' !in pwdId
    ensures !Contains(pwdId, "/s/")
    ensures var b := Split(shareUrl, "?")[0];
      |pwdId| <= |b| && b[|b| - |pwdId|..] == pwdId
      && (Contains(b, "/s/") ==> OccursAt(b, "/s/", |b| - |pwdId| - 3))
      && (!Contains(b, "/s/") ==> pwdId == b)
  {
    var beforeQuery := Split(shareUrl, "?")[0];
    SplitFirst(shareUrl, "?");
    CharContains(beforeQuery, '?');
    SplitKeepsAbsentChar(beforeQuery, "/s/", '?');
    SplitFirst(beforeQuery, "/s/");
    SplitLast(beforeQuery, "/s/");
    Last(Split(beforeQuery, "/s/"))
  }

  /** The `pwd_id` of `run`, quark.py:206: `get_pwd_id(input_line)` cut at
      the first `#`. `run` passes the line as it was given, not stripped. */
  function RunPwdId(inputLine: string): (pwdId: string)
    ensures '#' !in pwdId && '?' !in pwdId
    ensures var id := GetPwdId(inputLine);
      |pwdId| <= |id| && id[..|pwdId|] == pwdId && (|pwdId| == |id| || id[|pwdId|] == '#')
  {
    var id := GetPwdId(inputLine);
    var r := Split(id, "#")[0];
    CharContains(r, '#');
    SplitKeepsAbsentChar(id, "#", '?');
    SplitFirst(id, "#");
    assert |Split(id, "#")| > 1 ==> id[|r|..|r| + 1] == "#";
    r
  }

  /** The `pwd_id` of `share_run`, quark.py:581:
      `share_url.rsplit('/', maxsplit=1)[1].split('-')[0]`; `None` where the
      link has no `/` and the indexing raises. */
  function ShareRunPwdId(shareUrl: string): (pwdId: Option<string>)
    ensures pwdId.None? <==> '/' !in shareUrl
    ensures pwdId.Some? ==> '/' !in pwdId.value && '-' !in pwdId.value
    ensures pwdId.Some? ==> var tail := AfterLast(shareUrl, '/').value;
      |pwdId.value| <= |tail| && tail[..|pwdId.value|] == pwdId.value
      && (|pwdId.value| == |tail| || tail[|pwdId.value|] == '-')
  {
    match AfterLast(shareUrl, '/')
    case None => None
    case Some(tail) =>
      var r := Split(tail, "-")[0];
      CharContains(r, '-');
      SplitKeepsAbsentChar(tail, "-", '/');
      SplitFirst(tail, "-");
      assert |Split(tail, "-")| > 1 ==> tail[|r|..|r| + 1] == "-";
      Some(r)
  }

  /** The text before the first `?` of `p + "/s/" + id + tail`, where `tail`
      is empty or starts the query part. */
  lemma BeforeQueryOfLink(p: string, id: string, tail: string)
    requires '?' !in p && '?' !in id && (tail == [] || tail[0] == '?')
    ensures Split(p + "/s/" + id + tail, "?")[0] == p + "/s/" + id
  {
    var b := p + "/s/" + id;
    assert '?' !in b by {
      forall k | 0 <= k < |b| ensures b[k] != '?' {
        if k < |p| { assert b[k] == p[k]; }
        else if k < |p| + 3 { assert b[k] == "/s/"[k - |p|]; }
        else { assert b[k] == id[k - |p| - 3]; }
      }
    }
    if tail == [] {
      assert b + tail == b;
      CharContains(b, '?');
      SplitFirst(b, "?");
    } else {
      assert b + tail == b + "?" + tail[1..];
      FirstOccurrenceAfterField(b, "?", tail[1..], '?', 0);
      assert (b + "?" + tail[1..])[..|b|] == b;
    }
  }

  /** When `/s/` occurs at `k` in `b`, no `/` follows it, and `b` does not
      read `/s` just before `k`, the only suffix of `b` free of `/s/` that an
      occurrence of `/s/` precedes is the one after `k + 3`. */
  lemma OnlySuffixAfterSlashS(b: string, k: nat, r: string)
    requires k + 3 <= |b| && b[k] == '/' && b[k + 1] == 's' && b[k + 2] == '/'
    requires forall j :: k + 3 <= j < |b| ==> b[j] != '/'
    requires !(k >= 2 && b[k - 2] == '/' && b[k - 1] == 's')
    requires |r| + 3 <= |b| && b[|b| - |r|..] == r && OccursAt(b, "/s/", |b| - |r| - 3)
    requires !Contains(r, "/s/")
    ensures |r| == |b| - k - 3
  {
    var q := |b| - |r| - 3;
    assert b[q] == '/' && b[q + 1] == 's' && b[q + 2] == '/' by {
      assert b[q..q + 3] == "/s/";
      assert b[q..q + 3][0] == b[q] && b[q..q + 3][1] == b[q + 1] && b[q..q + 3][2] == b[q + 2];
    }
    if q < k {
      if q < k - 2 {
        var o := k - q - 3;
        assert r[o..o + 3] == b[k..k + 3];
        assert OccursAt(r, "/s/", o);
      }
      assert false;
    }
  }

  /** With `/s/` at `k` as above, the last piece of `b` split at `/s/` is
      the text after `k + 3`. */
  lemma LastPieceAfter(b: string, k: nat, sep: string)
    requires sep == "/s/"
    requires k + 3 <= |b| && b[k] == '/' && b[k + 1] == 's' && b[k + 2] == '/'
    requires forall j :: k + 3 <= j < |b| ==> b[j] != '/'
    requires !(k >= 2 && b[k - 2] == '/' && b[k - 1] == 's')
    ensures Last(Split(b, sep)) == b[k + 3..]
  {
    assert OccursAt(b, sep, k) by {
      assert b[k..k + 3] == sep;
    }
    var parts := Split(b, sep);
    var r := Last(parts);
    SplitLast(b, sep);
    SplitFirst(b, sep);
    assert !Contains(r, sep) by { assert r == parts[|parts| - 1]; }
    OnlySuffixAfterSlashS(b, k, r);
  }

  /** The last piece of `p/s/<id>` split at `/s/` is `<id>`. */
  lemma LastPieceOfLink(b: string, p: string, id: string)
    requires b == p + "/s/" + id && '/' !in id
    requires !(|p| >= 2 && p[|p| - 2] == '/' && p[|p| - 1] == 's')
    ensures Last(Split(b, "/s/")) == id
  {
    var k := |p|;
    assert b[k] == '/' && b[k + 1] == 's' && b[k + 2] == '/';
    assert forall j :: k + 3 <= j < |b| ==> b[j] != '/' by {
      forall j | k + 3 <= j < |b| ensures b[j] != '/' {
        assert b[j] == id[j - k - 3];
      }
    }
    assert k >= 2 ==> b[k - 2] == p[k - 2] && b[k - 1] == p[k - 1];
    LastPieceAfter(b, k, "/s/");
    assert b[k + 3..] == id;
  }

  /** A link whose text before the first `?` is `p/s/<id>` has `pwd_id`
      `<id>`. */
  lemma PwdIdFromBeforeQuery(url: string, p: string, id: string)
    requires Split(url, "?")[0] == p + "/s/" + id
    requires '/' !in id
    requires !(|p| >= 2 && p[|p| - 2] == '/' && p[|p| - 1] == 's')
    ensures GetPwdId(url) == id
  {
    LastPieceOfLink(Split(url, "?")[0], p, id);
  }

  /** The `pwd_id` of a link `p/s/<id>` (with an optional query part) is
      `<id>`, when `<id>` has no `/` and `p` does not end in `/s` (that
      would make the scan find `/s/` one character early). */
  lemma GetPwdIdOfLink(p: string, id: string, tail: string)
    requires '?' !in p && '?' !in id && '/' !in id && (tail == [] || tail[0] == '?')
    requires !(|p| >= 2 && p[|p| - 2] == '/' && p[|p| - 1] == 's')
    ensures GetPwdId(p + "/s/" + id + tail) == id
  {
    BeforeQueryOfLink(p, id, tail);
    PwdIdFromBeforeQuery(p + "/s/" + id + tail, p, id);
  }

  /** The `pwd_id` of `run` for a line `p/s/<id>#<fragment>` (with an
      optional query part) is `<id>`. */
  lemma RunPwdIdOfLink(p: string, id: string, fragment: string, tail: string)
    requires '?' !in p && '?' !in id && '?' !in fragment && (tail == [] || tail[0] == '?')
    requires '/' !in id && '/' !in fragment && '#' !in id
    requires !(|p| >= 2 && p[|p| - 2] == '/' && p[|p| - 1] == 's')
    ensures RunPwdId(p + "/s/" + id + "#" + fragment + tail) == id
  {
    var full := id + "#" + fragment;
    assert '?' !in full && '/' !in full by {
      forall k | 0 <= k < |full| ensures full[k] != '?' && full[k] != '/' {
        if k < |id| { assert full[k] == id[k]; }
        else if k > |id| { assert full[k] == fragment[k - |id| - 1]; }
      }
    }
    assert p + "/s/" + id + "#" + fragment + tail == p + "/s/" + full + tail;
    GetPwdIdOfLink(p, full, tail);
    FirstOccurrenceAfterField(id, "#", fragment, '#', 0);
    assert full[..|id|] == id;
  }

  /** The `pwd_id` of `share_run` for a link `p/<id>-<rest>` is `<id>`. */
  lemma ShareRunPwdIdOfLink(p: string, id: string, rest: string)
    requires '/' !in id && '/' !in rest && '-' !in id
    ensures ShareRunPwdId(p + "/" + id + "-" + rest) == Some(id)
  {
    var x := id + "-" + rest;
    assert '/' !in x by {
      forall k | 0 <= k < |x| ensures x[k] != '/' {
        if k < |id| { assert x[k] == id[k]; }
        else if k > |id| { assert x[k] == rest[k - |id| - 1]; }
      }
    }
    assert p + "/" + id + "-" + rest == p + "/" + x;
    AfterLastOfSuffix(p, x, '/');
    FirstPieceOfField(id, rest);
  }

  lemma AfterLastOfSuffix(p: string, x: string, c: char)
    requires c !in x
    ensures AfterLast(p + [c] + x, c) == Some(x)
  {
    var url := p + [c] + x;
    assert url[|p|] == c;
    assert url[|p| + 1..] == x;
  }

  lemma FirstPieceOfField(id: string, rest: string)
    requires '-' !in id
    ensures Split(id + "-" + rest, "-")[0] == id
  {
    FirstOccurrenceAfterField(id, "-", rest, '-', 0);
    assert (id + "-" + rest)[..|id|] == id;
  }

  /** Where the look-ahead `(?=$|&)` holds in `s`: at the end, before a
      final newline (Python's `$`), or before `&`. */
  predicate ValueEnd(s: string, j: int)
  {
    j == |s| || (0 <= j < |s| && s[j] == '&') || (j == |s| - 1 && 0 <= j && s[j] == '\n')
  }

  /** Where the lazy `(.*?)` begun at `k` stops: the first index at which the
      look-ahead holds, provided `.` (any character but a newline) can
      reach it; `None` when a newline comes first. */
  function LazyEnd(s: string, k: nat): (e: Option<nat>)
    requires k <= |s|
    ensures e.Some? ==> k <= e.value <= |s| && ValueEnd(s, e.value)
    ensures e.Some? ==> forall j :: k <= j < e.value ==> s[j] != '\n' && !ValueEnd(s, j)
    ensures e.None? <==> exists j :: k <= j < |s| && s[j] == '\n' && forall j' :: k <= j' <= j ==> !ValueEnd(s, j')
    decreases |s| - k
  {
    if ValueEnd(s, k) then Some(k)
    else if s[k] == '\n' then None
    else LazyEnd(s, k + 1)
  }

  /** The group `pwd=(.*?)(?=$|&)` captures when matched from index `i`. */
  function MatchAt(s: string, i: nat): (v: Option<string>)
    ensures v.Some? ==> OccursAt(s, "pwd=" + v.value, i) && ValueEnd(s, i + 4 + |v.value|)
    ensures v.Some? ==> '&' !in v.value && '\n' !in v.value
    ensures OccursAt(s, "pwd=", i) && LazyEnd(s, i + 4).Some? ==> v.Some?
  {
    if !OccursAt(s, "pwd=", i) then None
    else match LazyEnd(s, i + 4)
      case None => None
      case Some(e) =>
        var v := s[i + 4..e];
        assert s[i..i + 4 + |v|] == s[i..i + 4] + v;
        assert forall j :: 0 <= j < |v| ==> v[j] == s[i + 4 + j];
        Some(v)
  }

  /** `re.search`: the leftmost index from `i` on where the pattern matches. */
  function SearchFrom(s: string, i: nat): (r: Option<nat>)
    ensures r.Some? ==> i <= r.value && MatchAt(s, r.value).Some?
    ensures forall j :: i <= j && (r.None? || j < r.value) ==> MatchAt(s, j).None?
    decreases |s| + 1 - i
  {
    if i > |s| then None
    else if MatchAt(s, i).Some? then Some(i)
    else SearchFrom(s, i + 1)
  }

  /** The password of `run`, quark.py:204-205: the group of the first match
      of `pwd=(.*?)(?=$|&)` in the link, or the empty string. */
  function ExtractPassword(shareUrl: string): (password: string)
    ensures '&' !in password && '\n' !in password
    ensures password != "" ==> exists i :: OccursAt(shareUrl, "pwd=" + password, i)
    ensures forall i: nat :: MatchAt(shareUrl, i).Some? && (forall j: nat :: j < i ==> MatchAt(shareUrl, j).None?)
              ==> password == MatchAt(shareUrl, i).value
    ensures (forall i: nat :: MatchAt(shareUrl, i).None?) ==> password == ""
  {
    match SearchFrom(shareUrl, 0)
    case None => ""
    case Some(i) => MatchAt(shareUrl, i).value
  }

  /** The link `submit_share` returns, quark.py:568-571: the server's
      `share_url`, followed by `?pwd=<passcode>` when the reply carries a
      passcode. */
  function ShareUrlWithPasscode(shareUrl: string, passcode: Option<string>): (url: string)
    ensures passcode.None? ==> url == shareUrl
    ensures passcode.Some? ==> |url| == |shareUrl| + 5 + |passcode.value|
                               && url[..|shareUrl|] == shareUrl
                               && url[|shareUrl|..|shareUrl| + 5] == "?pwd="
                               && url[|shareUrl| + 5..] == passcode.value
  {
    match passcode
    case None => shareUrl
    case Some(p) => shareUrl + "?pwd=" + p
  }

  lemma LazyEndRunsToEnd(s: string, k: nat)
    requires k <= |s|
    requires forall j :: k <= j < |s| ==> s[j] != '&' && s[j] != '\n'
    ensures LazyEnd(s, k) == Some(|s|)
    decreases |s| - k
  {
    if k < |s| {
      LazyEndRunsToEnd(s, k + 1);
    }
  }

  /** No `pwd=` starts inside a link that has none of its own, nor on the
      `?` that follows it. */
  lemma NoMatchBeforeQuery(shareUrl: string, rest: string)
    requires !Contains(shareUrl, "pwd=")
    ensures forall j :: 0 <= j <= |shareUrl| ==> !OccursAt(shareUrl + "?" + rest, "pwd=", j)
  {
    var url := shareUrl + "?" + rest;
    var b := |shareUrl|;
    forall j | 0 <= j <= b ensures !OccursAt(url, "pwd=", j) {
      if j + 4 <= b {
        assert !OccursAt(shareUrl, "pwd=", j);
        assert url[j..j + 4] == shareUrl[j..j + 4];
      } else if j + 4 <= |url| {
        assert url[j..j + 4][b - j] == url[b];
        assert url[b] == '?';
      }
    }
  }

  /** A link built by `submit_share` and given back to `run` yields the
      passcode that was appended, provided the bare link has no `pwd=` of
      its own and the passcode has no `&` and no newline. */
  lemma PasswordRoundTrip(shareUrl: string, passcode: string)
    requires !Contains(shareUrl, "pwd=")
    requires '&' !in passcode && '\n' !in passcode
    ensures ExtractPassword(ShareUrlWithPasscode(shareUrl, Some(passcode))) == passcode
  {
    var url := ShareUrlWithPasscode(shareUrl, Some(passcode));
    var b := |shareUrl|;
    assert url == shareUrl + "?" + ("pwd=" + passcode);
    NoMatchBeforeQuery(shareUrl, "pwd=" + passcode);
    assert url[b + 1..b + 5] == "pwd=";
    assert OccursAt(url, "pwd=", b + 1);
    LazyEndRunsToEnd(url, b + 5);
    assert url[b + 5..|url|] == passcode;
    assert MatchAt(url, b + 1) == Some(passcode);
    var r := SearchFrom(url, 0);
    assert r == Some(b + 1) by {
      if r.None? || r.value != b + 1 {
        assert false;
      }
    }
  }

  /** Appending `?pwd=<passcode>` leaves the `pwd_id` of a link without a
      query part unchanged. */
  lemma PwdIdIgnoresPasscode(shareUrl: string, passcode: string)
    requires '?' !in shareUrl
    ensures GetPwdId(ShareUrlWithPasscode(shareUrl, Some(passcode))) == GetPwdId(shareUrl)
  {
    var url := ShareUrlWithPasscode(shareUrl, Some(passcode));
    assert url == shareUrl + "?" + ("pwd=" + passcode);
    FirstOccurrenceAfterField(shareUrl, "?", "pwd=" + passcode, '?', 0);
    assert url[..|shareUrl|] == shareUrl;
    CharContains(shareUrl, '?');
    SplitFirst(shareUrl, "?");
  }
}
