/** The queue of the operator's own control messages, each due for deletion at some time. */
module Operator {
  import opened Base
  import opened Ordering

  datatype Artifact = Artifact(deleteAt: Time, retryCount: nat)

  // Telegram message numbers.
  type Id = nat

  type Queue = map<Id, Artifact>

  const BATCH_LIMIT: nat := 100
  const RETRY_BASE: nat := 30
  const RETRY_MAX: nat := 3600

  /** How Telegram answers a batch deletion. */
  datatype Answer = Deleted | Raised

  // ---------------------------------------------------------------- the retry delay

  function Pow2(n: nat): (r: nat)
    ensures r >= 1
  {
    if n == 0 then 1 else 2 * Pow2(n - 1)
  }

  function RetryDelay(retryCount: nat): nat {
    var exponent := if retryCount - 1 <= 7 then Max(retryCount - 1, 0) else 7;
    Min(RETRY_MAX, RETRY_BASE * Pow2(exponent))
  }

  lemma {:induction false} Pow2Grows(m: nat, n: nat)
    requires m <= n
    ensures Pow2(m) <= Pow2(n)
  {
    if m < n { Pow2Grows(m, n - 1); }
  }

  /** The delay never shrinks with the retry count, starts at half a minute and stops at an hour. */
  lemma DelayGrowsWithinBounds(m: nat, n: nat)
    requires 1 <= m <= n
    ensures 30 <= RetryDelay(m) <= RetryDelay(n) <= 3600
    ensures RetryDelay(1) == 30 && (n >= 8 ==> RetryDelay(n) == 3600)
  {
    Pow2Grows(if m - 1 <= 7 then m - 1 else 7, if n - 1 <= 7 then n - 1 else 7);
    assert Pow2(7) == 128 by {
      assert Pow2(1) == 2 && Pow2(3) == 8 && Pow2(5) == 32;
    }
  }

  // ---------------------------------------------------------------- what the statements do

  function Due(queue: Queue, now: Time): set<Id> {
    set id | id in queue && queue[id].deleteAt <= now
  }

  predicate Acceptable(ids: seq<Id>, deleteAt: Time) {
    deleteAt >= 0 && forall i :: 0 <= i < |ids| ==> ids[i] > 0
  }

  /** An artifact already queued keeps the earlier of the two deadlines. */
  function Scheduled(queue: Queue, ids: seq<Id>, deleteAt: Time): Queue {
    map id | id in queue.Keys + (set x | x in ids) ::
      if id !in queue then Artifact(deleteAt, 0)
      else if id in ids then queue[id].(deleteAt := Min(queue[id].deleteAt, deleteAt)) else queue[id]
  }

  lemma ScheduledOneMore(queue: Queue, ids: seq<Id>, id: Id, deleteAt: Time)
    ensures var before := Scheduled(queue, ids, deleteAt);
      Scheduled(queue, ids + [id], deleteAt) ==
        before[id := if id in before then before[id].(deleteAt := Min(before[id].deleteAt, deleteAt))
                     else Artifact(deleteAt, 0)]
  {}

  function Retried(queue: Queue, ids: set<Id>, retryAt: Time): Queue {
    map id | id in queue :: if id in ids then Artifact(retryAt, queue[id].retryCount + 1) else queue[id]
  }

  /** ORDER BY delete_at, message_id. */
  function DueRank(queue: Queue, now: Time): Rank {
    map id | id in Due(queue, now) :: queue[id].deleteAt
  }

  // A row of the query for due artifacts.
  datatype DueArtifact = DueArtifact(id: Id, retryCount: nat)

  function IdsOf(due: seq<DueArtifact>): (ids: seq<Id>)
    ensures |ids| == |due| && forall i :: 0 <= i < |due| ==> ids[i] == due[i].id
  {
    seq(|due|, i requires 0 <= i < |due| => due[i].id)
  }

  /** LIMIT. */
  function Front(list: seq<Id>, limit: nat): seq<Id> {
    if |list| <= limit then list else list[..limit]
  }

  /** The earliest due artifacts, at most `limit` of them. */
  ghost predicate Batch(queue: Queue, now: Time, limit: nat, ids: set<Id>) {
    exists list :: BatchFrom(queue, now, limit, ids, list)
  }

  ghost predicate BatchFrom(queue: Queue, now: Time, limit: nat, ids: set<Id>, list: seq<Id>) {
    Lists(DueRank(queue, now), list) && ids == Members(Front(list, limit))
  }

  lemma BatchSize(queue: Queue, now: Time, limit: nat, list: seq<Id>)
    requires Lists(DueRank(queue, now), list)
    ensures Members(Front(list, limit)) <= Due(queue, now)
    ensures |Members(Front(list, limit))| == |Front(list, limit)| && |list| == |Due(queue, now)|
  {
    SortedSize(DueRank(queue, now), list);
    SortedSize(DueRank(queue, now), Front(list, limit));
    assert Members(list) == Due(queue, now);
  }

  lemma BatchOf(queue: Queue, now: Time, limit: nat, ids: set<Id>)
    requires Batch(queue, now, limit, ids)
    ensures ids <= Due(queue, now)
    ensures |ids| == if |Due(queue, now)| <= limit then |Due(queue, now)| else limit
  {
    var list :| BatchFrom(queue, now, limit, ids, list);
    BatchSize(queue, now, limit, list);
  }

  predicate Sooner(queue: Queue, a: Id, b: Id) {
    a in queue && b in queue &&
    (queue[a].deleteAt < queue[b].deleteAt || (queue[a].deleteAt == queue[b].deleteAt && a < b))
  }

  lemma FrontIsSoonest(queue: Queue, now: Time, limit: nat, list: seq<Id>)
    requires Lists(DueRank(queue, now), list)
    ensures var front := Front(list, limit);
      (forall i, j :: 0 <= i < j < |front| ==> Sooner(queue, front[i], front[j])) &&
      (forall i :: 0 <= i < |front| ==> front[i] in queue && queue[front[i]].deleteAt <= now) &&
      (forall id :: id in queue && queue[id].deleteAt <= now && id !in front ==>
         |front| == limit && forall i :: 0 <= i < |front| ==> Sooner(queue, front[i], id))
  {
    var rank, front := DueRank(queue, now), Front(list, limit);
    forall i, j | 0 <= i < j < |list| ensures Sooner(queue, list[i], list[j]) {
      assert list[i] in list && list[j] in list;
      assert Precedes(rank, list[i], list[j]);
    }
    forall i | 0 <= i < |front| ensures front[i] in queue && queue[front[i]].deleteAt <= now {
      assert front[i] == list[i] && list[i] in list;
    }
    forall id | id in queue && queue[id].deleteAt <= now && id !in front
      ensures |front| == limit && forall i :: 0 <= i < |front| ==> Sooner(queue, front[i], id)
    {
      assert id in rank && id in list;
      var j :| 0 <= j < |list| && list[j] == id;
      assert forall i :: 0 <= i < |front| ==> front[i] == list[i];
    }
  }

  // ---------------------------------------------------------------- runs

  datatype Step =
    | Schedule(ids: seq<Id>, deleteAt: Time)
    | Round(batch: set<Id>, answer: Answer, now: Time)

  predicate MaxRetry(queue: Queue, ids: set<Id>, count: nat)
  {
    ids <= queue.Keys && (forall id :: id in ids ==> queue[id].retryCount <= count) &&
    exists id :: id in ids && queue[id].retryCount == count
  }

  /** The whole batch waits as long as its most retried artifact has to. */
  ghost predicate PutOff(queue: Queue, batch: set<Id>, now: Time, count: nat, queue': Queue) {
    MaxRetry(queue, batch, count) && queue' == Retried(queue, batch, now + RetryDelay(count + 1))
  }

  /** One step of the queue. */
  ghost predicate Next(queue: Queue, step: Step, queue': Queue) {
    match step
    case Schedule(ids, deleteAt) =>
      queue' == if Acceptable(ids, deleteAt) then Scheduled(queue, ids, deleteAt) else queue
    case Round(batch, answer, now) =>
      batch != {} && Batch(queue, now, BATCH_LIMIT, batch) &&
      if answer.Deleted? then queue' == queue - batch
      else exists count: nat :: PutOff(queue, batch, now, count, queue')
  }

  ghost predicate Run(queues: seq<Queue>, steps: seq<Step>) {
    |queues| == |steps| + 1 && forall i :: 0 <= i < |steps| ==> Next(queues[i], steps[i], queues[i + 1])
  }

  /** An artifact leaves the queue only through a successful deletion that contained it. */
  lemma {:induction false} LeavesOnlyDeleted(queues: seq<Queue>, steps: seq<Step>, i: nat, j: nat,
      id: Id) returns (m: nat)
    requires Run(queues, steps) && i <= j <= |steps|
    requires id in queues[i] && id !in queues[j]
    ensures i <= m < j && steps[m].Round? && steps[m].answer.Deleted? && id in steps[m].batch
    decreases j - i
  {
    assert Next(queues[j - 1], steps[j - 1], queues[j]);
    if id in queues[j - 1] {
      m := j - 1;
    } else {
      m := LeavesOnlyDeleted(queues, steps, i, j - 1, id);
    }
  }

  /** Queueing an artifact again never moves its deadline back. */
  lemma SchedulingNeverPostpones(queue: Queue, ids: seq<Id>, deleteAt: Time, id: Id)
    requires id in queue
    ensures id in Scheduled(queue, ids, deleteAt) && Scheduled(queue, ids, deleteAt)[id].deleteAt <= queue[id].deleteAt
    ensures id in ids ==> Scheduled(queue, ids, deleteAt)[id].deleteAt <= deleteAt
    ensures Scheduled(queue, ids, deleteAt)[id].retryCount == queue[id].retryCount
    ensures id !in ids || queue[id].deleteAt <= deleteAt ==> Scheduled(queue, ids, deleteAt)[id] == queue[id]
  {}

  predicate Raises(step: Step, id: Id) {
    step.Round? && step.answer.Raised? && id in step.batch
  }

  /** The rounds of a run that Telegram answered with an exception and that contained the artifact. */
  function RaisedRounds(steps: seq<Step>, i: nat, j: nat, id: Id): nat
    requires i <= j <= |steps|
    decreases j - i
  {
    if i == j then 0
    else
      RaisedRounds(steps, i, j - 1, id) + (if Raises(steps[j - 1], id) then 1 else 0)
  }

  /** As long as an artifact stays queued its retry count goes up by one in each of these, and never else. */
  lemma {:induction false} RetriesAreRaisedRounds(queues: seq<Queue>, steps: seq<Step>, i: nat, j: nat, id: Id)
    requires Run(queues, steps) && i <= j <= |steps|
    requires forall m :: i <= m <= j ==> id in queues[m]
    ensures queues[j][id].retryCount == queues[i][id].retryCount + RaisedRounds(steps, i, j, id)
    decreases j - i
  {
    if i < j {
      RetriesAreRaisedRounds(queues, steps, i, j - 1, id);
      StepRetries(queues[j - 1], steps[j - 1], queues[j], id);
    }
  }

  lemma StepRetries(queue: Queue, step: Step, queue': Queue, id: Id)
    requires Next(queue, step, queue') && id in queue && id in queue'
    ensures queue'[id].retryCount == queue[id].retryCount + (if Raises(step, id) then 1 else 0)
  {
    if step.Schedule? {
      if Acceptable(step.ids, step.deleteAt) { SchedulingNeverPostpones(queue, step.ids, step.deleteAt, id); }
    } else if step.answer.Raised? {
      var count: nat :| PutOff(queue, step.batch, step.now, count, queue');
    }
  }

  /** After such a round the batch is due again half a minute later, twice as long for every retry behind the most
      retried artifact of the batch, but never more than an hour; the others are left alone. */
  lemma RaisedRoundWaits(queue: Queue, batch: set<Id>, now: Time, queue': Queue) returns (most: nat)
    requires Next(queue, Round(batch, Raised, now), queue')
    ensures (exists id :: id in batch && id in queue && queue[id].retryCount == most) &&
            forall id :: id in batch ==> id in queue && queue[id].retryCount <= most
    ensures queue'.Keys == queue.Keys && queue' - batch == queue - batch
    ensures forall id :: id in batch ==>
      queue'[id] == Artifact(now + Min(3600, 30 * Pow2(Min(most, 7))), queue[id].retryCount + 1)
  {
    var count: nat :| PutOff(queue, batch, now, count, queue');
    most := count;
  }

  lemma RetriedIsNotDue(queue: Queue, batch: set<Id>, now: Time, count: nat)
    requires batch <= Due(queue, now)
    ensures Due(Retried(queue, batch, now + RetryDelay(count + 1)), now) == Due(queue, now) - batch
  {
    DelayGrowsWithinBounds(count + 1, count + 1);
  }

  /** Every round takes its whole batch off the due list, whatever Telegram answers: a hundred, or all there are. */
  lemma RoundLowersDue(queue: Queue, batch: set<Id>, answer: Answer, now: Time, queue': Queue)
    requires Next(queue, Round(batch, answer, now), queue')
    ensures Due(queue', now) == Due(queue, now) - batch && |Due(queue', now)| == |Due(queue, now)| - |batch|
    ensures 0 < |batch| == if |Due(queue, now)| <= BATCH_LIMIT then |Due(queue, now)| else BATCH_LIMIT
  {
    BatchOf(queue, now, BATCH_LIMIT, batch);
    if answer.Raised? {
      var count: nat :| PutOff(queue, batch, now, count, queue');
      RetriedIsNotDue(queue, batch, now, count);
    } else {
      assert Due(queue - batch, now) == Due(queue, now) - batch;
    }
  }

  // ---------------------------------------------------------------- the loop

  class ArtifactQueue {
    var rows: Queue

    constructor ()
      ensures rows == map[]
    {
      rows := map[];
    }

    /** False when the arguments are refused. */
    method ScheduleOperatorArtifacts(ids: seq<Id>, deleteAt: Time) returns (ok: bool)
      modifies this
      ensures ok == (ids == [] || Acceptable(ids, deleteAt))
      ensures rows == if ok then Scheduled(old(rows), ids, deleteAt) else old(rows)
    {
      if ids == [] {
        assert rows == Scheduled(rows, ids, deleteAt);
        return true;
      }
      ok := Acceptable(ids, deleteAt);
      if ok {
        for n := 0 to |ids|
          invariant rows == Scheduled(old(rows), ids[..n], deleteAt)
        {
          var id := ids[n];
          ScheduledOneMore(old(rows), ids[..n], id, deleteAt);
          rows := rows[id := if id in rows then rows[id].(deleteAt := Min(rows[id].deleteAt, deleteAt))
                             else Artifact(deleteAt, 0)];
          assert ids[..n + 1] == ids[..n] + [id];
        }
        assert ids[..|ids|] == ids;
      }
    }

    /** The earliest due messages with their retry counts, in the order of their deadlines. */
    method DueOperatorArtifacts(now: Time, limit: nat) returns (due: seq<DueArtifact>)
      ensures forall list :: Lists(DueRank(rows, now), list) ==> IdsOf(due) == Front(list, limit)
      ensures forall i :: 0 <= i < |due| ==> due[i].id in rows && due[i].retryCount == rows[due[i].id].retryCount
      ensures Batch(rows, now, limit, Members(IdsOf(due)))
      // Ordered by deadline, then number; all of it due, and nothing due is left out unless the limit is reached.
      ensures forall i, j :: 0 <= i < j < |due| ==> Sooner(rows, due[i].id, due[j].id)
      ensures forall i :: 0 <= i < |due| ==> rows[due[i].id].deleteAt <= now
      ensures forall id :: id in rows && rows[id].deleteAt <= now && id !in IdsOf(due) ==>
        |due| == limit && forall i :: 0 <= i < |due| ==> Sooner(rows, due[i].id, id)
    {
      var list := Sort(DueRank(rows, now));
      assert BatchFrom(rows, now, limit, Members(Front(list, limit)), list);
      forall other | Lists(DueRank(rows, now), other) ensures other == list {
        SortedIsUnique(DueRank(rows, now), other, list);
      }
      var ids := Front(list, limit);
      due := [];
      for n := 0 to |ids|
        invariant IdsOf(due) == ids[..n]
        invariant forall i :: 0 <= i < n ==> due[i].id in rows && due[i].retryCount == rows[due[i].id].retryCount
      {
        assert ids[n] == list[n] && list[n] in list;
        due := due + [DueArtifact(ids[n], rows[ids[n]].retryCount)];
      }
      FrontIsSoonest(rows, now, limit, list);
      assert IdsOf(due) == Front(list, limit);
      assert forall i :: 0 <= i < |due| ==> due[i].id == Front(list, limit)[i];
    }

    method CompleteOperatorArtifacts(ids: seq<Id>)
      modifies this
      ensures rows == old(rows) - Members(ids)
    {
      rows := rows - Members(ids);
    }

    method RetryOperatorArtifacts(ids: seq<Id>, retryAt: Time)
      modifies this
      ensures rows == Retried(old(rows), Members(ids), retryAt)
    {
      rows := Retried(rows, Members(ids), retryAt);
    }

    /** The highest retry count of a batch. */
    method HighestRetry(due: seq<DueArtifact>) returns (count: nat)
      requires due != []
      requires forall i :: 0 <= i < |due| ==> due[i].id in rows && due[i].retryCount == rows[due[i].id].retryCount
      ensures MaxRetry(rows, Members(IdsOf(due)), count)
    {
      count := due[0].retryCount;
      ghost var best := 0;
      for n := 1 to |due|
        invariant 0 <= best < n && due[best].retryCount == count
        invariant forall i :: 0 <= i < n ==> due[i].retryCount <= count
      {
        if due[n].retryCount > count {
          count, best := due[n].retryCount, n;
        }
      }
      assert IdsOf(due)[best] == due[best].id;
      forall id | id in IdsOf(due) ensures id in rows && rows[id].retryCount <= count {
        var i :| 0 <= i < |due| && IdsOf(due)[i] == id;
      }
    }

    /** A batch that could not be deleted waits as long as its most retried artifact has to. */
    method PutOffBatch(due: seq<DueArtifact>, now: Time)
      requires due != []
      requires forall i :: 0 <= i < |due| ==> due[i].id in rows && due[i].retryCount == rows[due[i].id].retryCount
      modifies this
      ensures exists count: nat :: PutOff(old(rows), Members(IdsOf(due)), now, count, rows)
    {
      var count := HighestRetry(due);
      RetryOperatorArtifacts(IdsOf(due), now + RetryDelay(count + 1));
      assert PutOff(old(rows), Members(IdsOf(due)), now, count, rows);
    }

    /** One round: asks Telegram for the earliest due messages; false when none is due. */
    method DeleteDueArtifacts(now: Time, answer: Answer) returns (worked: bool, ghost batch: set<Id>)
      modifies this
      ensures worked <==> Due(old(rows), now) != {}
      ensures !worked ==> rows == old(rows)
      ensures worked ==> Next(old(rows), Round(batch, answer, now), rows)
    {
      var due := DueOperatorArtifacts(now, BATCH_LIMIT);
      batch := Members(IdsOf(due));
      BatchOf(rows, now, BATCH_LIMIT, batch);
      worked := due != [];
      if worked {
        assert IdsOf(due)[0] in batch;
        match answer {
          case Deleted => CompleteOperatorArtifacts(IdsOf(due));
          case Raised => PutOffBatch(due, now);
        }
      } else {
        assert batch == {};
      }
    }

    /** The cleanup loop at a standing clock: it ends with nothing due, after one round for each full or
        started batch, whatever Telegram answers in each. */
    method Drain(now: Time, answers: nat -> Answer) returns (rounds: nat)
      modifies this
      ensures Due(rows, now) == {}
      ensures rounds == (|Due(old(rows), now)| + BATCH_LIMIT - 1) / BATCH_LIMIT
    {
      rounds := 0;
      var working := true;
      while working
        invariant working ==> |Due(old(rows), now)| == |Due(rows, now)| + rounds * BATCH_LIMIT || Due(rows, now) == {}
        invariant Due(rows, now) == {} ==> rounds == (|Due(old(rows), now)| + BATCH_LIMIT - 1) / BATCH_LIMIT
        invariant !working ==> Due(rows, now) == {}
        decreases |Due(rows, now)|, working
      {
        ghost var before := rows;
        ghost var batch: set<Id>;
        working, batch := DeleteDueArtifacts(now, answers(rounds));
        if working {
          RoundLowersDue(before, batch, answers(rounds), now, rows);
          rounds := rounds + 1;
        }
      }
    }
  }
}
