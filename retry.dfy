/** `share_run_retry` (quark.py:715-750): shares again the folders listed in
    `share/retry.txt`, writes the new links to `share/retry_share_url.txt`
    and rewrites the ledger. */
module ShareRetry {
  import opened Wrappers
  import opened Text
  import opened ShareEngine

  /** The variables of the replay: whether `share_success` was ever set
      (it is only ever set to `True`, and never reset), the attempts used,
      `error`, the text appended to `retry_share_url.txt`, the lines kept
      for the ledger (`error_data`) and the share requests sent. */
  datatype Replay = Replay(successSet: bool, attempted: nat, error: nat, output: string,
                           failed: seq<string>, shareRequests: seq<ShareRequest>)

  /** How the replay ended: normally, after which `retry.txt` holds
      `'\n'.join(error_data)`, or by the `UnboundLocalError` raised when a
      line fails before any line succeeded, which leaves `retry.txt` as it
      was. */
  datatype ReplayEnd = Finished(replay: Replay, ledger: string) | Unbound(replay: Replay)

  /** The number every line of `retry_share_url.txt` carries: `n` is never
      incremented in the replay. */
  const ReplayNumber: nat := 0

  /** The end of one line's handling: on to the next line, or the
      `UnboundLocalError`, raised after the line's attempts were made. */
  datatype LineEnd = Next(replay: Replay) | Raises(replay: Replay)

  /** One ledger line as the source handles it (quark.py:723-747): a line
      that splits into exactly 4 fields is tried up to three times with its
      last field as `fid` and its third as the title; any other line is
      skipped. A success appends `0 | first | second | url` to the output;
      a line whose attempts all fail raises unless an earlier line set
      `share_success`, and is never kept. */
  function ReplayLine(attempts: seq<Option<Shared>>, st: Replay, line: string): (r: LineEnd)
    ensures |Split(line, FieldSep)| != 4 ==> r == Next(st)
    ensures var data := Split(line, FieldSep);
      var t := TryShare(attempts, st.attempted, MaxAttempts);
      |data| == 4 ==>
        (r.Raises? <==> t.result.None? && !st.successSet)
        && r.replay.attempted == st.attempted + Used(t)
        && r.replay.error == st.error + t.failures
        && r.replay.shareRequests == st.shareRequests + Repeat(ShareRequest(data[3], data[2]), Used(t))
        && r.replay.successSet == (st.successSet || t.result.Some?)
        && r.replay.output == st.output
             + (if t.result.Some? then FieldLine(ReplayNumber, [data[1], data[2]], t.result.value.shareUrl) + "\n"
                else "")
    ensures r.replay.failed == st.failed
  {
    var data := Split(line, FieldSep);
    if |data| != 4 then Next(st)
    else
      var t := TryShare(attempts, st.attempted, MaxAttempts);
      var st1 := st.(attempted := st.attempted + Used(t), error := st.error + t.failures,
                     shareRequests := st.shareRequests + Repeat(ShareRequest(data[3], data[2]), Used(t)));
      match t.result
      case Some(s) =>
        Next(st1.(output := st1.output + FieldLine(ReplayNumber, [data[1], data[2]], s.shareUrl) + "\n",
                  successSet := true))
      case None =>
        if st.successSet then Next(st1) else Raises(st1)
  }

  function ReplayFrom(attempts: seq<Option<Shared>>, st: Replay, lines: seq<string>, i: nat): ReplayEnd
    requires i <= |lines|
    decreases |lines| - i
  {
    if i == |lines| then Finished(st, Join(st.failed, "\n"))
    else match ReplayLine(attempts, st, lines[i])
      case Raises(st1) => Unbound(st1)
      case Next(st1) => ReplayFrom(attempts, st1, lines, i + 1)
  }

  function InitialReplay(): Replay
  {
    Replay(false, 0, 0, "", [], [])
  }

  /** `share_run_retry(retry_url)` as written. */
  function ReplayAsWritten(attempts: seq<Option<Shared>>, retryText: string): ReplayEnd
  {
    ReplayFrom(attempts, InitialReplay(), Split(retryText, "\n"), 0)
  }

  /** The replay loop as written. */
  method ShareRunRetry(attempts: seq<Option<Shared>>, retryText: string) returns (e: ReplayEnd)
    ensures e == ReplayAsWritten(attempts, retryText)
  {
    var lines := Split(retryText, "\n");
    var st := InitialReplay();
    for i := 0 to |lines|
      invariant ReplayFrom(attempts, st, lines, i) == ReplayAsWritten(attempts, retryText)
    {
      var data := Split(lines[i], FieldSep);
      if |data| == 4 {
        var t := TryShareLoop(attempts, st.attempted);
        var st1 := st.(attempted := st.attempted + Used(t), error := st.error + t.failures,
                       shareRequests := st.shareRequests + Repeat(ShareRequest(data[3], data[2]), Used(t)));
        if t.result.Some? {
          st := st1.(output := st1.output + FieldLine(ReplayNumber, [data[1], data[2]], t.result.value.shareUrl) + "\n",
                     successSet := true);
        } else if st.successSet {
          st := st1;
        } else {
          return Unbound(st1);
        }
      }
    }
    e := Finished(st, Join(st.failed, "\n"));
  }

  /** As written, no line is ever kept: a finished replay always empties
      `retry.txt`, whatever failed. */
  lemma {:induction false} AsWrittenKeepsNothing(attempts: seq<Option<Shared>>, st: Replay, lines: seq<string>, i: nat)
    requires i <= |lines| && st.failed == []
    ensures ReplayFrom(attempts, st, lines, i).Finished? ==> ReplayFrom(attempts, st, lines, i).ledger == ""
    decreases |lines| - i
  {
    if i < |lines| {
      var r := ReplayLine(attempts, st, lines[i]);
      if r.Next? {
        AsWrittenKeepsNothing(attempts, r.replay, lines, i + 1);
      }
    }
  }

  /** One ledger line with `share_success` reset for it, as `share_run`
      does for each folder: a 4-field line whose three attempts fail is
      kept. */
  function ReplayLineCorrected(attempts: seq<Option<Shared>>, st: Replay, line: string): (r: Replay)
    ensures |Split(line, FieldSep)| != 4 ==> r == st
    ensures var t := TryShare(attempts, st.attempted, MaxAttempts);
      |Split(line, FieldSep)| == 4 ==>
        r.attempted == st.attempted + Used(t)
        && r.failed == st.failed + (if t.result.None? then [line] else [])
  {
    var data := Split(line, FieldSep);
    if |data| != 4 then st
    else
      var t := TryShare(attempts, st.attempted, MaxAttempts);
      var st1 := st.(attempted := st.attempted + Used(t), error := st.error + t.failures,
                     shareRequests := st.shareRequests + Repeat(ShareRequest(data[3], data[2]), Used(t)));
      match t.result
      case Some(s) =>
        st1.(output := st1.output + FieldLine(ReplayNumber, [data[1], data[2]], s.shareUrl) + "\n",
             successSet := true)
      case None => st1.(failed := st1.failed + [line])
  }

  function ReplayFromCorrected(attempts: seq<Option<Shared>>, st: Replay, lines: seq<string>, i: nat): (r: Replay)
    requires i <= |lines|
    decreases |lines| - i
  {
    if i == |lines| then st
    else ReplayFromCorrected(attempts, ReplayLineCorrected(attempts, st, lines[i]), lines, i + 1)
  }

  /** `share_run_retry(retry_url)` with `share_success` reset per line: it
      always finishes, and `retry.txt` becomes the failed lines joined by
      newlines. */
  function ReplayCorrected(attempts: seq<Option<Shared>>, retryText: string): (e: ReplayEnd)
    ensures e.Finished?
  {
    var st := ReplayFromCorrected(attempts, InitialReplay(), Split(retryText, "\n"), 0);
    Finished(st, Join(st.failed, "\n"))
  }

  /** The lines a replay that resets `share_success` per line keeps, from
      attempt `c` on: each 4-field line whose three attempts all fail, in
      ledger order. */
  function FailedLines(attempts: seq<Option<Shared>>, c: nat, lines: seq<string>): (kept: seq<string>)
    ensures |kept| <= |lines|
    ensures forall k :: 0 <= k < |kept| ==> kept[k] in lines && |Split(kept[k], FieldSep)| == 4
    decreases |lines|
  {
    if |lines| == 0 then []
    else if |Split(lines[0], FieldSep)| != 4 then FailedLines(attempts, c, lines[1..])
    else
      var t := TryShare(attempts, c, MaxAttempts);
      (if t.result.None? then [lines[0]] else []) + FailedLines(attempts, c + Used(t), lines[1..])
  }

  /** The corrected replay adds to `error_data` exactly the lines whose
      attempts all fail, in order: a line is kept if and only if it has 4
      fields and its three attempts fail. */
  lemma {:induction false} CorrectedKeepsExactlyFailed(attempts: seq<Option<Shared>>, st: Replay,
                                                       lines: seq<string>, i: nat)
    requires i <= |lines|
    ensures ReplayFromCorrected(attempts, st, lines, i).failed
            == st.failed + FailedLines(attempts, st.attempted, lines[i..])
    decreases |lines| - i
  {
    if i == |lines| {
      assert lines[i..] == [];
    } else {
      var rest := lines[i..];
      assert rest[0] == lines[i] && rest[1..] == lines[i + 1..];
      var st1 := ReplayLineCorrected(attempts, st, lines[i]);
      assert ReplayFromCorrected(attempts, st, lines, i) == ReplayFromCorrected(attempts, st1, lines, i + 1);
      CorrectedKeepsExactlyFailed(attempts, st1, lines, i + 1);
      CorrectedLineStep(attempts, st, rest);
    }
  }

  /** One line of the corrected replay moves its first line from the
      `FailedLines` still to come into `failed` when it is kept. */
  lemma CorrectedLineStep(attempts: seq<Option<Shared>>, st: Replay, rest: seq<string>)
    requires |rest| > 0
    ensures var st1 := ReplayLineCorrected(attempts, st, rest[0]);
      st1.failed + FailedLines(attempts, st1.attempted, rest[1..])
      == st.failed + FailedLines(attempts, st.attempted, rest)
  {
    var st1 := ReplayLineCorrected(attempts, st, rest[0]);
    var later := FailedLines(attempts, st1.attempted, rest[1..]);
    if |Split(rest[0], FieldSep)| == 4 {
      var t := TryShare(attempts, st.attempted, MaxAttempts);
      assert st1.attempted == st.attempted + Used(t);
      if t.result.None? {
        assert FailedLines(attempts, st.attempted, rest) == [rest[0]] + later;
        assert st1.failed == st.failed + [rest[0]];
        assert st.failed + [rest[0]] + later == st.failed + ([rest[0]] + later);
      } else {
        assert FailedLines(attempts, st.attempted, rest) == [] + later;
        assert st1.failed == st.failed;
        assert [] + later == later;
      }
    } else {
      assert st1 == st;
    }
  }

  /** The corrected replay rewrites `retry.txt` with exactly the failed
      lines, joined by newlines. */
  lemma CorrectedLedger(attempts: seq<Option<Shared>>, retryText: string)
    ensures ReplayCorrected(attempts, retryText).ledger
            == Join(FailedLines(attempts, 0, Split(retryText, "\n")), "\n")
  {
    var lines := Split(retryText, "\n");
    var st := ReplayFromCorrected(attempts, InitialReplay(), lines, 0);
    assert ReplayCorrected(attempts, retryText) == Finished(st, Join(st.failed, "\n"));
    CorrectedKeepsExactlyFailed(attempts, InitialReplay(), lines, 0);
    assert lines[0..] == lines;
    assert st.failed == [] + FailedLines(attempts, 0, lines);
    assert [] + FailedLines(attempts, 0, lines) == FailedLines(attempts, 0, lines);
  }

  /** The 4-field lines of a ledger, in order. */
  function FourFieldLines(lines: seq<string>): (r: seq<string>)
    ensures |r| <= |lines|
  {
    if |lines| == 0 then []
    else (if |Split(lines[0], FieldSep)| == 4 then [lines[0]] else []) + FourFieldLines(lines[1..])
  }

  lemma NoAttemptSucceeds(attempts: seq<Option<Shared>>, c: nat)
    requires forall j :: c <= j < |attempts| ==> attempts[j].None?
    ensures TryShare(attempts, c, MaxAttempts).result.None?
  {
  }

  /** When no attempt from `c` on succeeds, every 4-field line is kept. */
  lemma {:induction false} NothingSharedKeepsAll(attempts: seq<Option<Shared>>, c: nat, lines: seq<string>)
    requires forall j :: c <= j < |attempts| ==> attempts[j].None?
    ensures FailedLines(attempts, c, lines) == FourFieldLines(lines)
    decreases |lines|
  {
    if |lines| > 0 {
      var rest := FourFieldLines(lines[1..]);
      if |Split(lines[0], FieldSep)| == 4 {
        var t := TryShare(attempts, c, MaxAttempts);
        NoAttemptSucceeds(attempts, c);
        NothingSharedKeepsAll(attempts, c + Used(t), lines[1..]);
        assert FourFieldLines(lines) == [lines[0]] + rest;
      } else {
        NothingSharedKeepsAll(attempts, c, lines[1..]);
        assert FourFieldLines(lines) == [] + rest;
      }
    }
  }

  /** When every try's first attempt succeeds, nothing is kept. */
  lemma {:induction false} EverythingSharedKeepsNothing(attempts: seq<Option<Shared>>, c: nat, lines: seq<string>)
    requires forall j :: c <= j ==> AttemptAt(attempts, j).Some?
    ensures FailedLines(attempts, c, lines) == []
    decreases |lines|
  {
    if |lines| > 0 {
      var t := TryShare(attempts, c, MaxAttempts);
      assert AttemptAt(attempts, c).Some?;
      EverythingSharedKeepsNothing(attempts, c + Used(t), lines[1..]);
      EverythingSharedKeepsNothing(attempts, c, lines[1..]);
      assert t.result.Some?;
    }
  }

  /** Every line the corrected replay keeps is a line of the old ledger
      that has exactly 4 fields, and they keep their order. */
  lemma {:induction false} CorrectedKeepsOnlyRetriedLines(attempts: seq<Option<Shared>>, st: Replay, lines: seq<string>, i: nat)
    requires i <= |lines|
    ensures var r := ReplayFromCorrected(attempts, st, lines, i);
      |r.failed| >= |st.failed| && r.failed[..|st.failed|] == st.failed
      && forall k :: |st.failed| <= k < |r.failed| ==>
           exists j :: i <= j < |lines| && r.failed[k] == lines[j] && |Split(lines[j], FieldSep)| == 4
    decreases |lines| - i
  {
    if i < |lines| {
      var st1 := ReplayLineCorrected(attempts, st, lines[i]);
      CorrectedKeepsOnlyRetriedLines(attempts, st1, lines, i + 1);
      var r := ReplayFromCorrected(attempts, st1, lines, i + 1);
      assert r == ReplayFromCorrected(attempts, st, lines, i);
      forall k | |st.failed| <= k < |r.failed|
        ensures exists j :: i <= j < |lines| && r.failed[k] == lines[j] && |Split(lines[j], FieldSep)| == 4
      {
        if k < |st1.failed| {
          assert st1.failed == st.failed + [lines[i]];
          assert r.failed[k] == st1.failed[k] == lines[i];
        } else {
          var j :| i + 1 <= j < |lines| && r.failed[k] == lines[j] && |Split(lines[j], FieldSep)| == 4;
        }
      }
    }
  }

  lemma SingleLineText(line: string)
    requires '\n' !in line
    ensures Split(line, "\n") == [line]
  {
    CharContains(line, '\n');
    SplitFirst(line, "\n");
  }

  lemma TwoLineText(line1: string, line2: string)
    requires '\n' !in line1 && '\n' !in line2
    ensures Split(TwoLines(line1, line2), "\n") == [line1, line2]
  {
    assert Join([line1, line2], "\n") == TwoLines(line1, line2);
    SplitJoin([line1, line2], "\n", '\n', 0);
  }

  /** The corrected replay keeps a line exactly when its three attempts
      all fail: a single 4-field line whose attempts fail stays in the
      ledger, and one that succeeds leaves it. */
  lemma CorrectedSingleLine(attempts: seq<Option<Shared>>, line: string)
    requires |Split(line, FieldSep)| == 4 && '\n' !in line
    ensures var e := ReplayCorrected(attempts, line);
      e.ledger == (if TryShare(attempts, 0, MaxAttempts).result.None? then line else "")
  {
    SingleLineText(line);
    var st1 := ReplayLineCorrected(attempts, InitialReplay(), line);
    assert ReplayFromCorrected(attempts, InitialReplay(), [line], 0) == st1;
    assert Join([line], "\n") == line;
  }

  /** The rewritten ledger reads back as the kept lines: splitting it on
      newlines gives them back, so a later replay sees exactly them. */
  lemma CorrectedLedgerReplays(attempts: seq<Option<Shared>>, retryText: string)
    requires ReplayCorrected(attempts, retryText).replay.failed != []
    ensures var e := ReplayCorrected(attempts, retryText);
      Split(e.ledger, "\n") == e.replay.failed
  {
    var lines := Split(retryText, "\n");
    var failed := ReplayCorrected(attempts, retryText).replay.failed;
    CorrectedKeepsOnlyRetriedLines(attempts, InitialReplay(), lines, 0);
    forall k | 0 <= k < |failed| ensures '\n' !in failed[k] {
      var j :| 0 <= j < |lines| && failed[k] == lines[j] && |Split(lines[j], FieldSep)| == 4;
      CharContains(lines[j], '\n');
    }
    SplitJoin(failed, "\n", '\n', 0);
  }

  /** The ledger line `share_run` writes for a first-level folder has 3
      fields, so the replay skips it and changes nothing. */
  lemma DepthOneLedgerLineSkipped(attempts: seq<Option<Shared>>, st: Replay, n: nat, first: string, fid: string)
    requires '|' !in first && '|' !in fid
    ensures ReplayLine(attempts, st, FieldLine(n, [first], fid)) == Next(st)
  {
    FieldLineSplits(n, [first], fid);
  }

  /** The ledger line `share_run` writes for a second-level folder is
      retried with the folder's own `fid` and its name as the title, and a
      success is written with both folder names. */
  lemma DepthTwoLedgerLineRetried(attempts: seq<Option<Shared>>, st: Replay, n: nat,
                                  first: string, second: string, fid: string)
    requires '|' !in first && '|' !in second && '|' !in fid
    ensures var r := ReplayLine(attempts, st, FieldLine(n, [first, second], fid));
      var t := TryShare(attempts, st.attempted, MaxAttempts);
      (r.Next? <==> t.result.Some? || st.successSet)
      && r.replay.shareRequests == st.shareRequests + Repeat(ShareRequest(fid, second), Used(t))
      && (t.result.Some? ==>
            r.replay.output == st.output + FieldLine(ReplayNumber, [first, second], t.result.value.shareUrl) + "\n")
  {
    FieldLineSplits(n, [first, second], fid);
  }

  /** The two-line ledger of the counterexample, as the replay sees it. */
  function TwoLines(line1: string, line2: string): string
  {
    line1 + "\n" + line2
  }

  /** The attempts of the counterexample: the first succeeds, the next
      three fail. */
  function FirstSucceedsThenFails(s: Shared): seq<Option<Shared>>
  {
    [Some(s), None, None, None]
  }

  lemma AsWrittenTwoLines(line1: string, line2: string, s: Shared)
    requires |Split(line1, FieldSep)| == 4 && |Split(line2, FieldSep)| == 4
    requires Split(TwoLines(line1, line2), "\n") == [line1, line2]
    ensures var e := ReplayAsWritten(FirstSucceedsThenFails(s), TwoLines(line1, line2));
      e.Finished? && e.ledger == ""
  {
    var attempts := FirstSucceedsThenFails(s);
    var lines := [line1, line2];
    assert TryShare(attempts, 0, MaxAttempts) == ShareTry(0, Some(s));
    assert TryShare(attempts, 1, MaxAttempts).result.None?;
    var st1 := ReplayLine(attempts, InitialReplay(), line1);
    assert st1.Next? && st1.replay.successSet && st1.replay.attempted == 1 && st1.replay.failed == [];
    var st2 := ReplayLine(attempts, st1.replay, line2);
    assert st2.Next? && st2.replay.failed == [];
    assert ReplayFrom(attempts, st2.replay, lines, 2) == Finished(st2.replay, "");
    assert ReplayFrom(attempts, st1.replay, lines, 1) == Finished(st2.replay, "");
  }

  lemma CorrectedTwoLines(line1: string, line2: string, s: Shared)
    requires |Split(line1, FieldSep)| == 4 && |Split(line2, FieldSep)| == 4
    requires Split(TwoLines(line1, line2), "\n") == [line1, line2]
    ensures ReplayCorrected(FirstSucceedsThenFails(s), TwoLines(line1, line2)).ledger == line2
  {
    var attempts := FirstSucceedsThenFails(s);
    var lines := [line1, line2];
    assert TryShare(attempts, 0, MaxAttempts) == ShareTry(0, Some(s));
    assert TryShare(attempts, 1, MaxAttempts).result.None?;
    var c1 := ReplayLineCorrected(attempts, InitialReplay(), line1);
    assert c1.attempted == 1 && c1.failed == [];
    var c2 := ReplayLineCorrected(attempts, c1, line2);
    assert c2.failed == [line2];
    assert ReplayFromCorrected(attempts, c1, lines, 1) == c2;
    assert Join([line2], "\n") == line2;
  }

  /** The discrepancy on a two-line ledger whose first line is shared at
      once and whose second fails three times: the source as written
      empties the ledger, the corrected replay keeps the second line. */
  lemma StaleSuccessLosesFailedLine(line1: string, line2: string, s: Shared)
    requires |Split(line1, FieldSep)| == 4 && |Split(line2, FieldSep)| == 4
    requires '\n' !in line1 && '\n' !in line2
    ensures var e := ReplayAsWritten(FirstSucceedsThenFails(s), TwoLines(line1, line2));
      e.Finished? && e.ledger == ""
    ensures ReplayCorrected(FirstSucceedsThenFails(s), TwoLines(line1, line2)).ledger == line2
  {
    TwoLineText(line1, line2);
    AsWrittenTwoLines(line1, line2, s);
    CorrectedTwoLines(line1, line2, s);
  }

  /** The discrepancy on a one-line ledger whose line fails three times:
      as written the replay stops with `UnboundLocalError` and the ledger
      is not rewritten; the corrected replay keeps the line. */
  lemma FailureBeforeSuccessIsUnbound(attempts: seq<Option<Shared>>, line: string)
    requires |Split(line, FieldSep)| == 4 && '\n' !in line
    requires TryShare(attempts, 0, MaxAttempts).result.None?
    ensures ReplayAsWritten(attempts, line).Unbound?
    ensures var data := Split(line, FieldSep);
      var e := ReplayAsWritten(attempts, line);
      e.replay.shareRequests == Repeat(ShareRequest(data[3], data[2]), MaxAttempts)
      && e.replay.error == MaxAttempts && e.replay.output == ""
    ensures ReplayCorrected(attempts, line).ledger == line
  {
    SingleLineText(line);
    CorrectedSingleLine(attempts, line);
  }

  /** A ledger line `share_run` writes for a second-level folder has the
      four fields the replay expects and no newline. */
  lemma WrittenLineShape(n: nat, first: string, second: string, fid: string)
    requires '|' !in first && '|' !in second && '|' !in fid
    requires '\n' !in first && '\n' !in second && '\n' !in fid
    ensures |Split(FieldLine(n, [first, second], fid), FieldSep)| == 4
    ensures '\n' !in FieldLine(n, [first, second], fid)
  {
    FieldLineSplits(n, [first, second], fid);
    NoNewlineInFieldLine(n, [first, second], fid);
  }

  /** Both discrepancies arise on ledgers `share_run` itself writes for
      second-level folders (names and `fid`s without `|` or newlines). */
  lemma DiscrepancyOnWrittenLedger(n1: nat, n2: nat, first: string, second1: string, second2: string,
                                   fid1: string, fid2: string, s: Shared)
    requires forall x | x in [first, second1, second2, fid1, fid2] :: '|' !in x && '\n' !in x
    ensures var line1 := FieldLine(n1, [first, second1], fid1);
      var line2 := FieldLine(n2, [first, second2], fid2);
      var e := ReplayAsWritten(FirstSucceedsThenFails(s), TwoLines(line1, line2));
      e.Finished? && e.ledger == ""
      && ReplayCorrected(FirstSucceedsThenFails(s), TwoLines(line1, line2)).ledger == line2
      && ReplayAsWritten([], line1).Unbound?
  {
    var names := [first, second1, second2, fid1, fid2];
    assert names[0] == first && names[1] == second1 && names[2] == second2;
    assert names[3] == fid1 && names[4] == fid2;
    var line1 := FieldLine(n1, [first, second1], fid1);
    var line2 := FieldLine(n2, [first, second2], fid2);
    WrittenLineShape(n1, first, second1, fid1);
    WrittenLineShape(n2, first, second2, fid2);
    StaleSuccessLosesFailedLine(line1, line2, s);
    FailureBeforeSuccessIsUnbound([], line1);
  }

  lemma NoNewlineInFieldLine(n: nat, names: seq<string>, last: string)
    requires forall k :: 0 <= k < |names| ==> '\n' !in names[k]
    requires '\n' !in last
    ensures '\n' !in FieldLine(n, names, last)
  {
    JoinLacksChar([NatToString(n)] + names + [last], FieldSep, '\n');
  }

  lemma {:induction false} JoinLacksChar(parts: seq<string>, sep: string, c: char)
    requires c !in sep && forall k :: 0 <= k < |parts| ==> c !in parts[k]
    ensures c !in Join(parts, sep)
    decreases |parts|
  {
    if |parts| > 1 {
      JoinLacksChar(parts[1..], sep, c);
    }
  }
}
