/** The watchdog of the update loop: an alarm only when every sample for long enough saw a backlog. */
module Stall {
  import opened Base

  // One look at the update queue.
  datatype Sample = Sample(queued: int, at: real)

  /** The backlog was there at every sample from `i` on, and not before. */
  ghost predicate BackloggedSince(samples: seq<Sample>, i: int) {
    0 <= i < |samples| && (forall j :: i <= j < |samples| ==> samples[j].queued > 0) && (i > 0 ==>
      samples[i - 1].queued <= 0)
  }

  lemma StillBacklogged(samples: seq<Sample>, i: int, j: int)
    requires BackloggedSince(samples, i) && i <= j < |samples|
    ensures samples[j].queued > 0
  {}

  /** A backlog that still stands has one first sample. */
  lemma BacklogIsUnique(samples: seq<Sample>, i: int, j: int)
    requires BackloggedSince(samples, i) && BackloggedSince(samples, j)
    ensures i == j
  {
    if i < j {
      StillBacklogged(samples, i, j - 1);
    } else if j < i {
      StillBacklogged(samples, j, i - 1);
    }
  }

  class UpdateStallDetector {
    const threshold: real
    var backlogSince: Option<real>
    ghost var samples: seq<Sample>

    ghost predicate Valid()
      reads this
    {
      match backlogSince
      case None => samples == [] || samples[|samples| - 1].queued <= 0
      case Some(t) => exists i :: BackloggedSince(samples, i) && samples[i].at == t
    }

    constructor (threshold: real)
      ensures Valid() && samples == [] && this.threshold == threshold
    {
      this.threshold, backlogSince, samples := threshold, None, [];
    }

    /** How long the queue has been stuck, once that reaches the threshold. */
    method Observe(queued: int, now: real) returns (stalled: Option<real>)
      requires Valid()
      modifies this
      ensures Valid() && samples == old(samples) + [Sample(queued, now)]
      ensures stalled.Some? <==>
        exists i :: BackloggedSince(samples, i) && i < |samples| - 1 && now - samples[i].at >= threshold
      ensures forall i :: BackloggedSince(samples, i) && stalled.Some? ==> stalled.value == now - samples[i].at
    {
      ghost var before := samples;
      samples := samples + [Sample(queued, now)];
      if queued <= 0 {
        backlogSince := None;
        return None;
      }
      if backlogSince.None? {
        backlogSince := Some(now);
        assert BackloggedSince(samples, |before|);
        forall i | BackloggedSince(samples, i) ensures i == |before| {
          BacklogIsUnique(samples, i, |before|);
        }
        return None;
      }
      ghost var start :| BackloggedSince(before, start) && before[start].at == backlogSince.value;
      assert BackloggedSince(samples, start);
      forall i | BackloggedSince(samples, i) ensures i == start {
        BacklogIsUnique(samples, i, start);
      }
      var duration := now - backlogSince.value;
      stalled := if duration >= threshold then Some(duration) else None;
    }
  }
}
