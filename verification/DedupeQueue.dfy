/** The in-memory queue as the source keeps it, each critical section tied to a step of the reconciler. */
module DedupeQueues {
  import opened AbortQueue

  datatype Task = Task(key: string, reason: string)

  class DedupeQueue {
    var keys: set<string>
    var ch: seq<Task>
    const size: nat

    constructor (size: nat)
      ensures this.size == size && Shows(Init())
    {
      keys, ch := {}, [];
      this.size := size;
    }

    /** The queue holds the key set and the channel of state s. */
    predicate Shows(s: State)
      reads this
    {
      && keys == s.keys
      && |ch| == |s.ch|
      && forall i :: 0 <= i < |ch| ==> s.ch[i] in s.tokens && s.tokens[s.ch[i]].key == ch[i].key
    }

    /** push, entered by a new task or by a timer. A key already present drops the abort task. Otherwise it goes out
        once the channel has room, or is withdrawn when the context is done; with neither, the call has not
        returned. */
    method Push(cfg: Config, task: Task, done: bool, ghost s: State, ghost id: nat, ghost entry: Step)
        returns (pushed: bool, ghost after: State)
      requires Shows(s) && cfg.queueSize == size
      requires entry == Step.Push(id, task.key) || (entry == Repush(id) && At(s, id, Repushing) && s.tokens[id].key == task.key)
      requires Enabled(cfg, s, entry) && id !in s.ch
      requires task.key in keys || |ch| < size || done
      modifies this
      ensures task.key in old(keys) ==> !pushed && after == Apply(cfg, s, entry)
      ensures task.key !in old(keys) ==>
                var reserved, next := Apply(cfg, s, entry), if pushed then Send(id) else Cancel(id);
                && Enabled(cfg, reserved, next) && after == Apply(cfg, reserved, next)
                && (pushed || done)
      ensures Shows(after)
    {
      after := Apply(cfg, s, entry);
      if task.key in keys {
        return false, after;
      }
      keys := keys + {task.key};
      if |ch| < size {
        ch := ch + [task];
        pushed, after := true, Apply(cfg, after, Send(id));
      } else {
        keys := keys - {task.key};
        pushed, after := false, Apply(cfg, after, Cancel(id));
      }
    }

    /** The first half of a timer's callback; its second half is a Push entered by Repush. */
    method TimerFires(cfg: Config, task: Task, ghost s: State, ghost id: nat) returns (ghost after: State)
      requires Shows(s) && At(s, id, Waiting) && s.tokens[id].key == task.key
      modifies this
      ensures after == Apply(cfg, s, Fire(id)) && Shows(after)
    {
      Remove(task.key);
      after := Apply(cfg, s, Fire(id));
    }

    method Remove(key: string)
      modifies this
      ensures keys == old(keys) - {key} && ch == old(ch)
    {
      keys := keys - {key};
    }

    /** A worker's receive. */
    method Receive(cfg: Config, ghost s: State) returns (task: Task, ghost after: State)
      requires Shows(s) && |ch| > 0
      modifies this
      ensures task == old(ch)[0] && ch == old(ch)[1..] && keys == old(keys)
      ensures Enabled(cfg, s, Pop) && after == Apply(cfg, s, Pop) && Shows(after)
      ensures after.tokens[s.ch[0]] == Token(task.key, Processing)
    {
      task, ch := ch[0], ch[1..];
      after := Apply(cfg, s, Pop);
    }
  }
}
