/**
 * The chatbot's wait for a submitted job: one status call, then up to
 * thirty more while the last reply still reads as "running". The loop has
 * no separate timeout outcome: when the bound is reached, the last reply
 * is returned as it is, running or not.
 */
module Polling {
  import opened Wrappers
  import opened ToolReply

  /** Iterations of the poll loop; each may make one further status call. */
  const MaxPolls: nat := 30

  /**
   * How the loop ended: `count` status calls were made, the last of which
   * either returned `last` or raised / could not be read (`reason`).
   */
  datatype PollEnd =
    | Settled(count: nat, last: Reply)
    | PollFailed(count: nat, reason: string)

  /**
   * The loop from its `i`-th iteration on, where `status(k)` is the answer
   * to the `k`-th status call (the first call has index 0).
   */
  function PollFrom(i: nat, status: nat -> ToolOutcome): (r: PollEnd)
    requires i <= MaxPolls
    ensures i + 1 <= r.count <= MaxPolls + 1
    ensures forall k :: i <= k < r.count - 1 ==> IsRunning(status(k))
    ensures r.count <= MaxPolls ==> !IsRunning(status(r.count - 1))
    ensures r.Settled? ==> status(r.count - 1) == Returned(r.last)
    ensures r.Settled? && r.count <= MaxPolls ==> StatusFields(r.last).Success?
    ensures r.PollFailed? ==> status(r.count - 1).ToolRaised? || (r.count <= MaxPolls && StatusFields(status(r.count - 1).reply).Failure?)
    decreases MaxPolls - i
  {
    match status(i)
    case ToolRaised(e) => PollFailed(i + 1, e)
    case Returned(reply) =>
      if i == MaxPolls then Settled(i + 1, reply)
      else
        match StatusFields(reply)
        case Failure(e) => PollFailed(i + 1, e)
        case Success(f) =>
          if Get(f, "state") == Some("running") then PollFrom(i + 1, status) else Settled(i + 1, reply)
  }

  /** The whole wait, starting with the first status call. */
  function Poll(status: nat -> ToolOutcome): (r: PollEnd)
    ensures 1 <= r.count <= MaxPolls + 1
    ensures forall k :: 0 <= k < r.count - 1 ==> IsRunning(status(k))
    ensures r.count <= MaxPolls ==> !IsRunning(status(r.count - 1))
  {
    PollFrom(0, status)
  }

  /**
   * The number of status calls is fixed by the replies alone: it is one
   * more than the index of the first reply that is not "running", capped
   * at thirty-one calls.
   */
  lemma {:induction false} PollCountIsFirstSettled(status: nat -> ToolOutcome, n: nat)
    requires n <= MaxPolls
    requires forall k :: 0 <= k < n ==> IsRunning(status(k))
    requires n == MaxPolls || !IsRunning(status(n))
    ensures Poll(status).count == n + 1
  {
    var last: nat := Poll(status).count - 1;
    assert last < n ==> IsRunning(status(last));
    assert n < last ==> IsRunning(status(n));
  }

  /** A job that is still running at every reply keeps the loop going to its bound and no further. */
  lemma AlwaysRunningHitsBound(status: nat -> ToolOutcome)
    requires forall k :: 0 <= k <= MaxPolls ==> IsRunning(status(k))
    ensures Poll(status).Settled? && Poll(status).count == MaxPolls + 1
    ensures status(MaxPolls) == Returned(Poll(status).last)
    ensures IsRunning(Returned(Poll(status).last))
  {
    var r := Poll(status);
    var last: nat := r.count - 1;
    assert last <= MaxPolls;
    assert IsRunning(status(last));
    assert r.count == MaxPolls + 1;
    assert !status(last).ToolRaised?;
  }

  /**
   * Thirty replies reading "running" keep the loop going to its bound, and
   * the thirty-first reply is taken as the last status without being read,
   * whatever its shape.
   */
  lemma LastReplyUnread(status: nat -> ToolOutcome)
    requires forall k :: 0 <= k < MaxPolls ==> IsRunning(status(k))
    requires status(MaxPolls).Returned?
    ensures Poll(status) == Settled(MaxPolls + 1, status(MaxPolls).reply)
  {
    PollCountIsFirstSettled(status, MaxPolls);
    var r := Poll(status);
    var last: nat := r.count - 1;
    assert last == MaxPolls;
    assert !status(last).ToolRaised?;
  }

  /** A first reply that is not "running" ends the loop at once, with no second call. */
  lemma FirstReplySettled(status: nat -> ToolOutcome)
    requires status(0).Returned? && !IsRunning(status(0))
    requires StatusFields(status(0).reply).Success?
    ensures Poll(status) == Settled(1, status(0).reply)
  {
  }

  /**
   * A list reply whose first item's text does not decode reads as `{}`, whose
   * state is not "running": it ends the loop like any settled reply.
   */
  lemma UnparseableStatusStops(status: nat -> ToolOutcome, item: Reply)
    requires item.ObjectReply? && item.text.Some? && item.text.value.Malformed?
    requires status(0) == Returned(ListReply([item]))
    ensures !IsRunning(status(0))
    ensures Poll(status) == Settled(1, ListReply([item]))
  {
  }
}
