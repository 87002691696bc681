/** `submit_task` (quark.py:417-448): polls a save task until the server
    reports it finished, reports an error, or the attempts run out. The
    replies are given in poll order; a poll past the end of them stands
    for a network call that raised. */
module Poller {
  import opened Wrappers
  import opened Text

  /** The default number of polls. */
  const DefaultRetry: int := 50

  /** The error code of a full drive and of a missing target folder. */
  const CapacityCode: int := 32003
  const MissingFolderCode: int := 41013

  /** One poll reply: `message`, `code` and `data.status`. */
  datatype TaskReply = TaskReply(message: string, code: int, status: int)

  /** Why the program ended (`sys.exit` after the error is shown). */
  datatype FatalKind = CapacityFull | MissingFolder | OtherError(message: string)

  datatype PollOutcome =
    | Done(reply: TaskReply)   // the reply returned to the caller
    | Exhausted                // every poll said "not yet": `None`
    | Fatal(kind: FatalKind)   // an error reply ended the program
    | Crashed                  // a poll raised

  /** The error branch taken for a reply whose message is not `ok`. */
  function FatalKindOf(r: TaskReply): (k: FatalKind)
    ensures k == CapacityFull <==> r.code == CapacityCode && Contains(r.message, "capacity limit")
    ensures k == MissingFolder <==> r.code == MissingFolderCode
    ensures k.OtherError? ==> k.message == r.message
  {
    if r.code == CapacityCode && Contains(r.message, "capacity limit") then CapacityFull
    else if r.code == MissingFolderCode then MissingFolder
    else OtherError(r.message)
  }

  /** A reply that ends the polling: an error, or status 2 (finished). */
  predicate Terminal(r: TaskReply)
  {
    r.message != "ok" || r.status == 2
  }

  /** The polls numbered `i` up to `n - 1`. */
  function PollFrom(replies: seq<TaskReply>, n: nat, i: nat): PollOutcome
    decreases n - i
  {
    if i >= n then Exhausted
    else if i >= |replies| then Crashed
    else if replies[i].message == "ok" then
      if replies[i].status == 2 then Done(replies[i]) else PollFrom(replies, n, i + 1)
    else Fatal(FatalKindOf(replies[i]))
  }

  /** `range(retry)` is empty for `retry <= 0`. */
  function PollCount(retry: int): nat
  {
    if retry > 0 then retry else 0
  }

  function Poll(replies: seq<TaskReply>, retry: int): PollOutcome
  {
    PollFrom(replies, PollCount(retry), 0)
  }

  /** The number of polls made before the outcome is known. */
  function PollsMadeFrom(replies: seq<TaskReply>, n: nat, i: nat): (c: nat)
    requires i <= n
    ensures i <= c <= n
    decreases n - i
  {
    if i >= n then i
    else if i >= |replies| || Terminal(replies[i]) then i + 1
    else PollsMadeFrom(replies, n, i + 1)
  }

  /** `submit_task(task_id, retry)`. `retryIndexes` lists the
      `retry_index` of each poll sent. */
  method SubmitTask(taskId: string, retry: int, replies: seq<TaskReply>)
    returns (outcome: PollOutcome, retryIndexes: seq<int>)
    ensures outcome == Poll(replies, retry)
    ensures |retryIndexes| == PollsMadeFrom(replies, PollCount(retry), 0)
    ensures forall k :: 0 <= k < |retryIndexes| ==> retryIndexes[k] == k
  {
    var n := PollCount(retry);
    retryIndexes := [];
    for i := 0 to n
      invariant Poll(replies, retry) == PollFrom(replies, n, i)
      invariant PollsMadeFrom(replies, n, 0) == PollsMadeFrom(replies, n, i)
      invariant |retryIndexes| == i && forall k :: 0 <= k < i ==> retryIndexes[k] == k
    {
      retryIndexes := retryIndexes + [i];
      if i >= |replies| {
        return Crashed, retryIndexes;
      }
      var reply := replies[i];
      if reply.message == "ok" {
        if reply.status == 2 {
          return Done(reply), retryIndexes;
        }
      } else {
        return Fatal(FatalKindOf(reply)), retryIndexes;
      }
    }
    return Exhausted, retryIndexes;
  }

  /** The outcome of a terminal reply. */
  function TerminalOutcome(r: TaskReply): PollOutcome
  {
    if r.message == "ok" then Done(r) else Fatal(FatalKindOf(r))
  }

  /** The first terminal reply among the first `n` decides the outcome:
      `Done` with it when it is a finished `ok`, `Fatal` when it is an
      error. */
  lemma {:induction false} FirstTerminalDecides(replies: seq<TaskReply>, n: nat, i: nat, j: nat)
    requires i <= j < n && j < |replies| && Terminal(replies[j])
    requires forall k :: i <= k < j ==> !Terminal(replies[k])
    ensures PollFrom(replies, n, i) == TerminalOutcome(replies[j])
    decreases j - i
  {
    if i < j {
      assert !Terminal(replies[i]);
      FirstTerminalDecides(replies, n, i + 1, j);
    }
  }

  /** With no terminal reply among the first `n`, the polls run out
      (`None`), unless the replies end first and a poll raises. */
  lemma {:induction false} NoTerminalRunsOut(replies: seq<TaskReply>, n: nat, i: nat)
    requires i <= n
    requires forall k :: i <= k < n && k < |replies| ==> !Terminal(replies[k])
    ensures PollFrom(replies, n, i) == (if i >= n || n <= |replies| then Exhausted else Crashed)
    decreases n - i
  {
    if i < n && i < |replies| {
      assert !Terminal(replies[i]);
      NoTerminalRunsOut(replies, n, i + 1);
    }
  }

  /** `submit_task` returns a reply only when it is the first reply that
      is `ok` with status 2, and every reply before it was `ok` with
      another status. */
  lemma {:induction false} DoneIsFirstFinished(replies: seq<TaskReply>, n: nat, i: nat)
    requires i <= n && PollFrom(replies, n, i).Done?
    ensures exists j :: (i <= j < n && j < |replies|
                         && PollFrom(replies, n, i).reply == replies[j]
                         && replies[j].message == "ok" && replies[j].status == 2
                         && forall k :: i <= k < j ==> replies[k].message == "ok" && replies[k].status != 2)
    decreases n - i
  {
    if replies[i].message == "ok" && replies[i].status != 2 {
      DoneIsFirstFinished(replies, n, i + 1);
      var j :| i + 1 <= j < n && j < |replies|
        && PollFrom(replies, n, i + 1).reply == replies[j]
        && replies[j].message == "ok" && replies[j].status == 2
        && forall k :: i + 1 <= k < j ==> replies[k].message == "ok" && replies[k].status != 2;
      assert forall k :: i <= k < j ==> replies[k].message == "ok" && replies[k].status != 2;
    }
  }

  /** At most `retry` polls are made, and raising the bound never changes
      an outcome that was not `Exhausted`. */
  lemma {:induction false} MorePollsSameOutcome(replies: seq<TaskReply>, n: nat, more: nat, i: nat)
    requires i <= n <= more && !PollFrom(replies, n, i).Exhausted?
    ensures PollFrom(replies, more, i) == PollFrom(replies, n, i)
    decreases n - i
  {
    if i < |replies| && !Terminal(replies[i]) {
      MorePollsSameOutcome(replies, n, more, i + 1);
    }
  }
}
