/** Resize batching: the `pendingFullRender` and `destroyed` flags together
    with the animation-frame callbacks queued but not yet run. Every queued
    callback is the same closure (clear the flag, then resize and render),
    so the queue is a count. */
module Batching {

  datatype Batch = Batch(pending: bool, destroyed: bool, queued: nat)

  /** The flag is set exactly while one callback is outstanding. */
  predicate Consistent(b: Batch) {
    b.queued == if b.pending then 1 else 0
  }

  /** requestFullRender: ignored when destroyed or already pending;
      otherwise sets the flag and schedules one callback. */
  function AfterRequest(b: Batch): (r: Batch)
    ensures r.destroyed == b.destroyed && r.queued <= b.queued + 1
    ensures Consistent(b) ==> Consistent(r)
  {
    if b.destroyed then b
    else if b.pending then b
    else b.(pending := true, queued := b.queued + 1)
  }

  /** The animation-frame callback runs: it clears the flag without looking
      at `destroyed`. (Its render is the caller's part.) */
  function AfterFrame(b: Batch): (r: Batch)
    requires b.queued > 0
    ensures !r.pending && r.destroyed == b.destroyed && r.queued + 1 == b.queued
  {
    b.(pending := false, queued := b.queued - 1)
  }

  /** `k` resize notifications in a row. */
  function AfterRequests(b: Batch, k: nat): Batch {
    if k == 0 then b else AfterRequest(AfterRequests(b, k - 1))
  }

  /** A request schedules a callback exactly when the component is live and
      no render is pending, and otherwise changes nothing; either way the
      flag and the queue stay consistent. */
  lemma RequestSchedulesAtMostOne(b: Batch)
    requires Consistent(b)
    ensures Consistent(AfterRequest(b))
    ensures AfterRequest(b).destroyed == b.destroyed
    ensures AfterRequest(b).queued == b.queued + (if b.destroyed || b.pending then 0 else 1)
    ensures b.destroyed || b.pending ==> AfterRequest(b) == b
  {
  }

  /** The frame callback leaves the component idle: nothing pending and
      nothing queued, whether or not it was destroyed meanwhile. */
  lemma FrameLeavesIdle(b: Batch)
    requires Consistent(b) && b.queued > 0
    ensures Consistent(AfterFrame(b))
    ensures !AfterFrame(b).pending && AfterFrame(b).queued == 0
    ensures AfterFrame(b).destroyed == b.destroyed
  {
  }

  /** Any burst of one or more requests on a live component leaves exactly
      one callback queued, so the whole burst produces one render; the burst
      schedules a new callback only if none was pending before it. */
  lemma {:induction false} BurstSchedulesOnce(b: Batch, k: nat)
    requires Consistent(b) && !b.destroyed && k >= 1
    ensures AfterRequests(b, k) == Batch(true, false, 1)
  {
    if k > 1 {
      BurstSchedulesOnce(b, k - 1);
    }
  }

  /** Once destroyed, any number of requests changes nothing. (The guard
      only: the component itself never sets `destroyed`.) */
  lemma {:induction false} DestroyedIgnoresRequests(b: Batch, k: nat)
    requires b.destroyed
    ensures AfterRequests(b, k) == b
  {
    if k > 0 {
      DestroyedIgnoresRequests(b, k - 1);
    }
  }
}
