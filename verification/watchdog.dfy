/** The API-version watchdog: every five minutes the client asks the server
    for its version and reloads the page when it changed since the last
    answer. Versions are strings; the empty string stands for a missing or
    empty (falsy) version, and is also the watchdog's initial baseline. */
module Watchdog {
  import opened Common

  /** The result of one check: the baseline kept for the next check, and
      whether the page is reloaded now. */
  datatype Check = Check(baseline: string, reload: bool)

  /** One check. `reply` is `None` when the endpoint's body is empty and
      `Some(v)` with the body's version field otherwise. A reload needs a
      known previous version that differs from a non-empty new one; any
      non-empty body becomes the new baseline, even one without a version. */
  function CheckVersion(baseline: string, reply: Option<string>): (r: Check)
    ensures r.reload <==> reply.Some? && reply.value != "" && baseline != "" && reply.value != baseline
    ensures reply.Some? ==> r.baseline == reply.value
    ensures reply.None? ==> r == Check(baseline, false)
  {
    var reload := reply.Some? && reply.value != "" && baseline != "" && baseline != reply.value;
    Check(if reply.Some? then reply.value else baseline, reload)
  }

  /** The baseline after a run of checks that all got an answer. */
  function BaselineAfter(baseline: string, replies: seq<Option<string>>): string
    decreases |replies|
  {
    if |replies| == 0 then baseline
    else BaselineAfter(CheckVersion(baseline, replies[0]).baseline, replies[1..])
  }

  /** No body was received from position `k` (inclusive) to `n` (exclusive). */
  ghost predicate NoBodyBetween(replies: seq<Option<string>>, k: int, n: int) {
    forall j :: 0 <= k <= j < n <= |replies| ==> replies[j].None?
  }

  /** `v` is the version of the most recent body received, or the initial
      baseline when no body was received. */
  ghost predicate LastReported(baseline: string, replies: seq<Option<string>>, v: string) {
    || (exists i :: 0 <= i < |replies| && replies[i] == Some(v) && NoBodyBetween(replies, i + 1, |replies|))
    || (v == baseline && NoBodyBetween(replies, 0, |replies|))
  }

  /** The watchdog's baseline is the version of the most recent body. */
  lemma {:induction false} BaselineIsLastReported(baseline: string, replies: seq<Option<string>>)
    ensures LastReported(baseline, replies, BaselineAfter(baseline, replies))
    decreases |replies|
  {
    if |replies| > 0 {
      var next := CheckVersion(baseline, replies[0]).baseline;
      var tail := replies[1..];
      var v := BaselineAfter(baseline, replies);
      BaselineIsLastReported(next, tail);
      if i :| 0 <= i < |tail| && tail[i] == Some(v) && NoBodyBetween(tail, i + 1, |tail|) {
        assert replies[i + 1] == Some(v);
        assert NoBodyBetween(replies, i + 2, |replies|) by {
          forall j | i + 2 <= j < |replies| ensures replies[j].None? {
            assert replies[j] == tail[j - 1];
          }
        }
      } else {
        assert v == next && NoBodyBetween(tail, 0, |tail|);
        assert NoBodyBetween(replies, 1, |replies|) by {
          forall j | 1 <= j < |replies| ensures replies[j].None? {
            assert replies[j] == tail[j - 1];
          }
        }
        if replies[0].Some? {
          assert replies[0] == Some(v);
        } else {
          assert v == baseline;
        }
      }
    }
  }

  /** Whether the `i`-th check of a watchdog that starts without a baseline
      reloads the page. */
  function ReloadsAt(replies: seq<Option<string>>, i: nat): bool
    requires i < |replies|
  {
    CheckVersion(BaselineAfter("", replies[..i]), replies[i]).reload
  }

  /** Two positions that both hold the most recent body are the same one. */
  lemma LastReportedPositionIsUnique(replies: seq<Option<string>>, i: int, j: int)
    requires 0 <= i < |replies| && 0 <= j < |replies|
    requires replies[i].Some? && NoBodyBetween(replies, i + 1, |replies|)
    requires replies[j].Some? && NoBodyBetween(replies, j + 1, |replies|)
    ensures i == j
  {
  }

  /** The `i`-th check reloads exactly when it reports a non-empty version
      and the most recent earlier body reported a different, non-empty one.
      In particular the first body ever received never reloads. */
  lemma ReloadIffReportedVersionChanged(replies: seq<Option<string>>, i: nat)
    requires i < |replies|
    ensures ReloadsAt(replies, i) <==>
      && replies[i].Some? && replies[i].value != ""
      && exists j :: 0 <= j < i && replies[j].Some? && replies[j].value != ""
                     && replies[j].value != replies[i].value && NoBodyBetween(replies, j + 1, i)
  {
    var prefix := replies[..i];
    var v := BaselineAfter("", prefix);
    BaselineIsLastReported("", prefix);
    if ReloadsAt(replies, i) {
      assert v != "";
      var j :| 0 <= j < |prefix| && prefix[j] == Some(v) && NoBodyBetween(prefix, j + 1, |prefix|);
      assert replies[j] == Some(v);
      assert NoBodyBetween(replies, j + 1, i) by {
        forall k | j + 1 <= k < i ensures replies[k].None? {
          assert replies[k] == prefix[k];
        }
      }
    }
    if replies[i].Some? && replies[i].value != "" {
      if j :| 0 <= j < i && replies[j].Some? && replies[j].value != ""
              && replies[j].value != replies[i].value && NoBodyBetween(replies, j + 1, i) {
        assert prefix[j] == replies[j];
        assert NoBodyBetween(prefix, j + 1, |prefix|) by {
          forall k | j + 1 <= k < |prefix| ensures prefix[k].None? {
            assert prefix[k] == replies[k];
          }
        }
        if k :| 0 <= k < |prefix| && prefix[k] == Some(v) && NoBodyBetween(prefix, k + 1, |prefix|) {
          LastReportedPositionIsUnique(prefix, j, k);
        }
      }
    }
  }

  /** Until some body has been received, no check reloads. */
  lemma FirstBodyNeverReloads(replies: seq<Option<string>>, i: nat)
    requires i < |replies|
    requires NoBodyBetween(replies, 0, i)
    ensures !ReloadsAt(replies, i)
  {
    ReloadIffReportedVersionChanged(replies, i);
  }
}
