/** One task through a worker: the two database calls and the abort call around which it uses the queue. */
module Reconcilers {
  import opened Base
  import opened AbortQueue
  import opened DedupeQueues
  import opened Words
  import Backoff

  /** What MarkAbortAttempt answers. */
  datatype Marked = NoSuchRow | Broken | Attempt(n: nat)

  datatype Timer = Timer(task: Task, delay: int)

  datatype Outcome = Removed | Retried(delay: int) | Panicked

  /** The steps that follow one abort call in its worker: a finished task clears its request and leaves. */
  function AfterAbort(c: Config, s: State, id: nat, aborted: bool, cleared: bool): State
    requires AtAbort(s, id)
  {
    var told := Apply(c, s, if aborted then AbortSucceeds(id) else AbortFails(id));
    if At(told, id, Clearing) then Apply(c, Apply(c, told, ClearRequest(id, cleared)), AbortQueue.Remove(id)) else told
  }

  /** Either the token leaves with its key, or it waits and keeps it; the channel holds what it held, and the request
      is cleared only with the key. */
  lemma AbortMoves(c: Config, s: State, id: nat, aborted: bool, cleared: bool)
    requires AtAbort(s, id) && ChannelInv(s)
    ensures
      var t := AfterAbort(c, s, id, aborted, cleared);
      && t.ch == s.ch
      && (forall i :: 0 <= i < |s.ch| ==> s.ch[i] in s.tokens && s.ch[i] in t.tokens && t.tokens[s.ch[i]] == s.tokens[s.ch[i]])
      && if aborted || s.tokens[id].stage.attempt >= c.maxAttempts
         then t.keys == s.keys - {s.tokens[id].key} && id !in t.tokens
              && t.requested == if cleared then s.requested - {s.tokens[id].key} else s.requested
         else t.keys == s.keys && At(t, id, Waiting) && t.requested == s.requested
  {
    assert forall i :: 0 <= i < |s.ch| ==> At(s, s.ch[i], Queued);
  }

  class Reconciler {
    const queue: DedupeQueue
    const cfg: Backoff.Config
    var timers: seq<Timer>

    constructor (cfg: Backoff.Config, queue: DedupeQueue)
      requires cfg.Valid()
      ensures this.cfg == cfg && this.queue == queue && timers == []
    {
      this.cfg, this.queue, timers := cfg, queue, [];
    }

    ghost function Machine(): Config
      requires cfg.Valid()
    {
      Config(cfg.maxAttempts, queue.size)
    }

    /** The timer's callback is DedupeQueue.TimerFires and a Push. */
    method ScheduleRequeue(task: Task, delay: int)
      modifies this`timers
      ensures timers == old(timers) + [Timer(task, delay)]
    {
      timers := timers + [Timer(task, delay)];
    }

    /** The first half of processTask: a row that is gone drops the abort task, a failing database puts it off. */
    method Mark(task: Task, marked: Marked, ghost s: State, ghost id: nat)
        returns (attempt: Option<nat>, ghost after: State)
      requires cfg.Valid() && queue.Shows(s) && At(s, id, Processing) && s.tokens[id].key == task.key
      requires ChannelInv(s)
      requires match marked
               case NoSuchRow => task.key !in s.attempts
               case Broken => true
               case Attempt(n) => task.key in s.attempts && n == s.attempts[task.key] + 1
      modifies this`timers, queue
      ensures queue.Shows(after)
      ensures
        match marked
        case NoSuchRow => after == Apply(Machine(), s, MarkNoRow(id)) && attempt == None && timers == old(timers)
        case Broken =>
          after == Apply(Machine(), s, MarkFails(id)) && attempt == None
          && timers == old(timers) + [Timer(task, cfg.initialDelay)]
        case Attempt(n) =>
          after == Apply(Machine(), s, Step.Mark(id)) && attempt == Some(n) && timers == old(timers)
          && AtAbort(after, id) && after.tokens[id] == Token(task.key, Aborting(n))
    {
      match marked
      case NoSuchRow =>
        queue.Remove(task.key);
        attempt, after := None, Apply(Machine(), s, MarkNoRow(id));
      case Broken =>
        ScheduleRequeue(task, cfg.initialDelay);
        attempt, after := None, Apply(Machine(), s, MarkFails(id));
      case Attempt(n) =>
        attempt, after := Some(n), Apply(Machine(), s, Step.Mark(id));
    }

    /** The second half, after the abort call: success and the last failure drop the abort task, any other failure
        waits for the delay that was drawn. */
    method Finish(task: Task, attempt: nat, aborted: bool, cleared: bool, random: nat, ghost s: State, ghost id: nat)
        returns (outcome: Outcome, ghost after: State)
      requires cfg.Valid() && queue.Shows(s) && ChannelInv(s)
      requires AtAbort(s, id) && s.tokens[id] == Token(task.key, Aborting(attempt)) && attempt > 0
      modifies this`timers, queue
      ensures outcome.Panicked? <==> !aborted && attempt < cfg.maxAttempts && Backoff.Panics(cfg, attempt)
      ensures outcome.Removed? <==> aborted || attempt >= cfg.maxAttempts
      ensures !outcome.Panicked? ==>
        queue.Shows(after) && after == AfterAbort(Machine(), s, id, aborted, cleared)
      ensures timers == if outcome.Retried? then old(timers) + [Timer(task, outcome.delay)] else old(timers)
      ensures outcome.Retried? ==> 0 <= outcome.delay <= cfg.maxDelay && outcome.delay <= Backoff.Ceiling(cfg, attempt)
      ensures outcome.Retried? && random <= Backoff.Ceiling(cfg, attempt) ==> outcome.delay == random
      ensures outcome.Retried? && Backoff.Fits(cfg, attempt) ==>
        var product := cfg.initialDelay * Mask(attempt - 1);
        outcome.delay <= product && (random <= product && random <= cfg.maxDelay ==> outcome.delay == random)
    {
      after := AfterAbort(Machine(), s, id, aborted, cleared);
      AbortMoves(Machine(), s, id, aborted, cleared);
      hide Apply, AfterAbort, Backoff.Panics, ChannelInv;
      if aborted {
        queue.Remove(task.key);
        return Removed, after;
      }
      if attempt >= cfg.maxAttempts {
        queue.Remove(task.key);
        return Removed, after;
      }
      var delay := Backoff.NextDelay(cfg, attempt, random);
      match delay
      case None => outcome := Panicked;
      case Some(d) =>
        ScheduleRequeue(task, d);
        outcome := Retried(d);
    }
  }
}
