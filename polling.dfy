/**
 * `wait_for_processing` (ingest.py): ask for a file's processing status every
 * POLL_INTERVAL seconds until it is settled or POLL_TIMEOUT seconds have passed.
 *
 * The clock is abstract: time counts in whole seconds from the moment the
 * deadline is set; each status request takes the seconds its reply carries,
 * and each sleep takes exactly POLL_INTERVAL.
 */
module Polling {
  import opened Values
  import opened Http

  const PollInterval: nat := 2
  const PollTimeout: nat := 120

  /** One status request as the server answers it: the reply and how long the request took. */
  datatype StatusReply = StatusReply(latency: nat, reply: Reply)

  /** What one status reply tells the loop to do. */
  datatype Step = Ready | Failed | Pending | Raise(error: Raised)

  /**
   * 404 (a server without the status endpoint) counts as ready; other error
   * codes raise; otherwise the body's "status" decides: "completed" is ready,
   * "failed" is failed, anything else (or no status) is pending.
   */
  function Classify(reply: Reply): (r: Step)
    ensures reply.Err? ==> r == Raise(reply.error)
    ensures reply.Ok? && reply.value.code == 404 ==> r == Ready
    ensures reply.Ok? && reply.value.code != 404 ==>
              var body := CheckedJson(reply);
              && (body.Err? ==> r == Raise(body.error))
              && (body.Ok? && !body.value.Obj? ==> r == Raise(WrongType))
              && (body.Ok? && body.value.Obj? ==>
                    var status := Lookup(body.value.fields, "status");
                    && (r == Ready <==> status == Some(Str("completed")))
                    && (r == Failed <==> status == Some(Str("failed")))
                    && (r == Pending <==> status != Some(Str("completed")) && status != Some(Str("failed"))))
  {
    match reply
    case Err(e) => Raise(e)
    case Ok(resp) =>
      if resp.code == 404 then Ready
      else match CheckedJson(reply)
        case Err(e) => Raise(e)
        case Ok(body) =>
          match DictGet(body, "status", Str(""))
          case Err(e) => Raise(e)
          case Ok(status) =>
            if status == Str("completed") then Ready
            else if status == Str("failed") then Failed
            else Pending
  }

  /** Seconds between setting the deadline and the clock check before request `k`. */
  function ElapsedBefore(replies: nat -> StatusReply, k: nat): nat
  {
    if k == 0 then 0 else ElapsedBefore(replies, k - 1) + replies(k - 1).latency + PollInterval
  }

  /** The loop's result and the number of status requests it sent. */
  datatype Polled = Polled(processed: Result<bool>, checks: nat)

  /** The loop from request `i` on. */
  function PollFrom(replies: nat -> StatusReply, i: nat): Polled
    decreases PollTimeout - ElapsedBefore(replies, i)
  {
    if ElapsedBefore(replies, i) >= PollTimeout then Polled(Ok(false), i)
    else match Classify(replies(i).reply)
      case Ready => Polled(Ok(true), i + 1)
      case Failed => Polled(Ok(false), i + 1)
      case Raise(e) => Polled(Err(e), i + 1)
      case Pending => PollFrom(replies, i + 1)
  }

  method WaitForProcessing(replies: nat -> StatusReply) returns (processed: Result<bool>, checks: nat)
    ensures Polled(processed, checks) == PollFrom(replies, 0)
  {
    var elapsed := 0;
    checks := 0;
    while elapsed < PollTimeout
      invariant elapsed == ElapsedBefore(replies, checks)
      invariant PollFrom(replies, checks) == PollFrom(replies, 0)
      decreases PollTimeout - elapsed
    {
      var answer := replies(checks);
      checks := checks + 1;
      var reply := answer.reply;
      if reply.Ok? && reply.value.code == 404 {
        return Ok(true), checks;
      }
      var body := CheckedJson(reply);
      if body.Err? {
        return Err(body.error), checks;
      }
      var status := DictGet(body.value, "status", Str(""));
      if status.Err? {
        return Err(status.error), checks;
      }
      if status.value == Str("completed") {
        return Ok(true), checks;
      }
      if status.value == Str("failed") {
        return Ok(false), checks;
      }
      elapsed := elapsed + answer.latency + PollInterval;
    }
    processed := Ok(false);
  }

  lemma {:induction false} ElapsedGrows(replies: nat -> StatusReply, k: nat)
    ensures ElapsedBefore(replies, k) >= PollInterval * k
  {
    if k > 0 {
      ElapsedGrows(replies, k - 1);
    }
  }

  /** The loop from request `i` on reads replies only before the deadline, and goes on only past pending ones. */
  lemma {:induction false} PollFromContinues(replies: nat -> StatusReply, i: nat)
    ensures var r := PollFrom(replies, i);
            && i <= r.checks
            && (forall j :: i <= j < r.checks ==> ElapsedBefore(replies, j) < PollTimeout)
            && (forall j :: i <= j < r.checks - 1 ==> Classify(replies(j).reply) == Pending)
    decreases PollTimeout - ElapsedBefore(replies, i)
  {
    if ElapsedBefore(replies, i) < PollTimeout && Classify(replies(i).reply) == Pending {
      PollFromContinues(replies, i + 1);
    }
  }

  /** The loop from request `i` on: what it returns is decided by the last reply it read, or by the deadline. */
  lemma {:induction false} PollFromSettles(replies: nat -> StatusReply, i: nat)
    ensures var r := PollFrom(replies, i);
            && (r.checks <= i ==> ElapsedBefore(replies, i) >= PollTimeout && r.processed == Ok(false))
            && (r.checks > i ==>
                  var last := Classify(replies(r.checks - 1).reply);
                  && (r.processed == Ok(true) <==> last == Ready)
                  && (r.processed.Err? <==> last.Raise?)
                  && (last == Failed ==> r.processed == Ok(false))
                  && (last == Pending ==> ElapsedBefore(replies, r.checks) >= PollTimeout && r.processed == Ok(false)))
    decreases PollTimeout - ElapsedBefore(replies, i)
  {
    var r := PollFrom(replies, i);
    if ElapsedBefore(replies, i) < PollTimeout {
      var step := Classify(replies(i).reply);
      if step == Pending {
        PollFromSettles(replies, i + 1);
        PollFromContinues(replies, i + 1);
        assert r == PollFrom(replies, i + 1);
      } else {
        assert r.checks == i + 1;
        assert r.processed == match step
          case Ready => Ok(true)
          case Failed => Ok(false)
          case Raise(e) => Err(e);
      }
    }
  }

  /**
   * `wait_for_processing` sends between one and POLL_TIMEOUT / POLL_INTERVAL
   * status requests, every one before the deadline, and keeps polling only on
   * pending replies. It returns True exactly when the last reply was a 404 or
   * "completed", False on "failed" or when the deadline passed after a pending
   * reply, and raises exactly when the last reply raised.
   */
  lemma WaitSettles(replies: nat -> StatusReply)
    ensures var r := PollFrom(replies, 0);
            && 1 <= r.checks <= PollTimeout / PollInterval
            && var last := Classify(replies(r.checks - 1).reply);
            && (forall j :: 0 <= j < r.checks ==> ElapsedBefore(replies, j) < PollTimeout)
            && (forall j :: 0 <= j < r.checks - 1 ==> Classify(replies(j).reply) == Pending)
            && (r.processed == Ok(true) <==> last == Ready)
            && (r.processed == Ok(false) <==>
                  last == Failed || (last == Pending && ElapsedBefore(replies, r.checks) >= PollTimeout))
            && (r.processed.Err? <==> last.Raise?)
  {
    PollFromSettles(replies, 0);
    PollFromContinues(replies, 0);
    var r := PollFrom(replies, 0);
    ElapsedGrows(replies, r.checks - 1);
  }
}
