/** The connectivity observer: the response interceptor that every call
    through the shared HTTP transport passes, and the offline flag it keeps. */
module Transport {
  import opened Common

  /** What the interceptor decides for one settled call: the new value of the
      offline flag, and whether the current meeting action is voided. */
  datatype Verdict = Verdict(offline: bool, endAction: bool)

  /** The interceptor pair. A success while offline voids the action slot and
      clears the flag; a failure with no response raises the flag; a failure
      the server answered leaves everything as it was. The failure itself is
      always passed on to the caller, which the event handlers do. */
  function Observe<T>(offline: bool, outcome: Outcome<T>): (v: Verdict)
    ensures outcome.IsRejection() ==> v == Verdict(offline, false)
    ensures outcome.IsNetworkLoss() ==> v.offline && !v.endAction
    ensures outcome.Ok? ==> !v.offline && (v.endAction <==> offline)
  {
    match outcome
    case Ok(_) =>
      if offline then Verdict(false, true) else Verdict(offline, false)
    case Err(status) =>
      if status.None? && !offline then Verdict(true, false) else Verdict(offline, false)
  }

  /** The offline flag after the interceptor has seen `calls`, in order. */
  function OfflineAfter(offline: bool, calls: seq<Outcome<()>>): bool
    decreases |calls|
  {
    if |calls| == 0 then offline
    else OfflineAfter(Observe(offline, calls[0]).offline, calls[1..])
  }

  /** Every call from position `k` on was answered by the server with an error. */
  ghost predicate OnlyRejectionsFrom(calls: seq<Outcome<()>>, k: int) {
    forall j :: 0 <= k <= j < |calls| ==> calls[j].IsRejection()
  }

  /** The last call that either succeeded or got no response got no response;
      if every call was a rejection, the flag was already raised before. */
  ghost predicate LastDecisiveWasNetworkLoss(offline: bool, calls: seq<Outcome<()>>) {
    || (exists i :: 0 <= i < |calls| && calls[i].IsNetworkLoss() && OnlyRejectionsFrom(calls, i + 1))
    || (offline && OnlyRejectionsFrom(calls, 0))
  }

  /** The offline flag means exactly this: among the calls seen, the most
      recent one that was not a server rejection failed without a response. */
  lemma {:induction false} OfflineIffLastDecisiveCallWasNetworkLoss(offline: bool, calls: seq<Outcome<()>>)
    ensures OfflineAfter(offline, calls) <==> LastDecisiveWasNetworkLoss(offline, calls)
    decreases |calls|
  {
    if |calls| > 0 {
      var next := Observe(offline, calls[0]).offline;
      var tail := calls[1..];
      OfflineIffLastDecisiveCallWasNetworkLoss(next, tail);
      forall k | 0 <= k <= |tail|
        ensures OnlyRejectionsFrom(tail, k) <==> OnlyRejectionsFrom(calls, k + 1)
      {
        if OnlyRejectionsFrom(tail, k) {
          forall j | k + 1 <= j < |calls| ensures calls[j].IsRejection() {
            assert calls[j] == tail[j - 1];
          }
        }
        if OnlyRejectionsFrom(calls, k + 1) {
          forall j | k <= j < |tail| ensures tail[j].IsRejection() {
            assert tail[j] == calls[j + 1];
          }
        }
      }
      if LastDecisiveWasNetworkLoss(next, tail) {
        if i :| 0 <= i < |tail| && tail[i].IsNetworkLoss() && OnlyRejectionsFrom(tail, i + 1) {
          assert calls[i + 1].IsNetworkLoss() && OnlyRejectionsFrom(calls, i + 2);
        } else {
          assert next && OnlyRejectionsFrom(calls, 1);
          if !calls[0].IsNetworkLoss() {
            assert calls[0].IsRejection() && offline;
          }
        }
      }
      if LastDecisiveWasNetworkLoss(offline, calls) {
        if i :| 0 <= i < |calls| && calls[i].IsNetworkLoss() && OnlyRejectionsFrom(calls, i + 1) {
          if i == 0 {
            assert next && OnlyRejectionsFrom(tail, 0);
          } else {
            assert tail[i - 1].IsNetworkLoss() && OnlyRejectionsFrom(tail, i);
          }
        } else {
          assert calls[0].IsRejection() && next == offline;
          assert OnlyRejectionsFrom(tail, 0);
        }
      }
    }
  }

  /** Server rejections alone never move the flag, in either direction. */
  lemma {:induction false} RejectionsNeverMoveTheFlag(offline: bool, calls: seq<Outcome<()>>)
    requires OnlyRejectionsFrom(calls, 0)
    ensures OfflineAfter(offline, calls) == offline
    decreases |calls|
  {
    if |calls| > 0 {
      assert calls[0].IsRejection();
      assert OnlyRejectionsFrom(calls[1..], 0) by {
        forall j | 0 <= j < |calls[1..]| ensures calls[1..][j].IsRejection() {
          assert calls[1..][j] == calls[j + 1];
        }
      }
      RejectionsNeverMoveTheFlag(offline, calls[1..]);
    }
  }
}
