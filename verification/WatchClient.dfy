/** The client's own maps and channels, updated in place; each method is a step of the pipeline. */
module WatchClients {
  import opened Base
  import opened WatchPipeline

  /** A subscriber's buffered channel. */
  class Channel {
    const scope: Scope
    var items: seq<Message>
    var open: bool

    constructor (scope: Scope)
      ensures this.scope == scope && items == [] && open
    {
      this.scope := scope;
      items := [];
      open := true;
    }

    /** A non-blocking send. */
    method TrySend(capacity: nat, m: Message)
      requires open
      modifies `items
      ensures items == Grown(capacity, old(items), m)
    {
      if |items| < capacity {
        items := items + [m];
      }
    }
  }

  function Grown(capacity: nat, items: seq<Message>, m: Message): seq<Message> {
    if |items| < capacity then items + [m] else items
  }

  lemma GrownIsOffered(c: Config, a: Scope, items: seq<Message>, b: Scope, m: Message)
    ensures Offer(c, Stream(a, true, items, [], false), b, m).queue
         == if SubscriberKey(a) == SubscriberKey(b) then Grown(c.bufferSize, items, m) else items
  {
  }

  method SendAll(channels: set<Channel>, capacity: nat, m: Message)
    requires forall ch | ch in channels :: ch.open
    modifies channels`items
    ensures forall ch | ch in channels :: ch.items == Grown(capacity, old(ch.items), m)
  {
    var todo := channels;
    while todo != {}
      invariant todo <= channels
      invariant forall ch | ch in channels ::
        ch.items == if ch in todo then old(ch.items) else Grown(capacity, old(ch.items), m)
      decreases |todo|
    {
      var ch :| ch in todo;
      todo := todo - {ch};
      ch.TrySend(capacity, m);
    }
  }

  class ActionsClient {
    const config: Config
    var subscribers: map<string, set<Channel>>
    var dispatchedActions: set<Name>
    const workerChs: array<seq<Event>>

    /** The channels between their Subscribe and their Unsubscribe. */
    ghost var registered: set<Channel>

    /** The registered channels are open, and listed under their own keys. */
    ghost predicate Valid()
      reads this, registered
    {
      && config.numWorkers > 0 && workerChs.Length == config.numWorkers
      && (forall k | k in subscribers :: subscribers[k] != {})
      && (forall ch | ch in registered :: ch.open && SubscriberKey(ch.scope) in subscribers && Listed(ch))
      && forall k | k in subscribers :: forall ch | ch in subscribers[k] :: ch in registered && SubscriberKey(ch.scope) == k
    }

    predicate Listed(ch: Channel)
      reads this
      requires SubscriberKey(ch.scope) in subscribers
    {
      ch in subscribers[SubscriberKey(ch.scope)]
    }

    constructor (config: Config)
      requires config.numWorkers > 0
      ensures Valid() && fresh(workerChs) && this.config == config && registered == {} && dispatchedActions == {}
      ensures workerChs[..] == Init(config).channels
    {
      this.config := config;
      subscribers := map[];
      registered := {};
      dispatchedActions := {};
      workerChs := new seq<Event>[config.numWorkers](_ => []);
    }

    method Subscribe(scope: Scope) returns (ch: Channel)
      requires Valid()
      modifies `subscribers, `registered
      ensures Valid() && fresh(ch) && ch.items == [] && ch.scope == scope
      ensures registered == old(registered) + {ch}
    {
      var key := SubscriberKey(scope);
      ch := new Channel(scope);
      if key !in subscribers {
        subscribers := subscribers[key := {}];
      }
      subscribers := subscribers[key := subscribers[key] + {ch}];
      registered := registered + {ch};
    }

    /** Closing a channel twice would panic, so a channel is unsubscribed once. */
    method Unsubscribe(ch: Channel)
      requires Valid() && ch in registered
      modifies `subscribers, `registered, ch`open
      ensures Valid() && !ch.open && registered == old(registered) - {ch}
    {
      var key := SubscriberKey(ch.scope);
      if key in subscribers {
        var channels := subscribers[key] - {ch};
        ch.open := false;
        if channels == {} {
          subscribers := subscribers - {key};
        } else {
          subscribers := subscribers[key := channels];
        }
        registered := registered - {ch};
      }
    }

    /** Only open channels under the key are sent to, without blocking: a full one loses the message. */
    method NotifySubscribers(scope: Scope, m: Message)
      requires Valid()
      modifies registered`items
      ensures Valid()
      ensures forall ch :: ch in registered ==>
        ch.items == Offer(config, Stream(ch.scope, true, old(ch.items), [], false), scope, m).queue
    {
      forall ch | ch in registered
        ensures Offer(config, Stream(ch.scope, true, ch.items, [], false), scope, m).queue
             == if SubscriberKey(ch.scope) == SubscriberKey(scope) then Grown(config.bufferSize, ch.items, m) else ch.items
      {
        GrownIsOffered(config, ch.scope, ch.items, scope, m);
      }
      hide Offer, SubscriberKey, Grown;
      var key := SubscriberKey(scope);
      if key !in subscribers {
        return;
      }
      SendAll(subscribers[key], config.bufferSize, m);
    }

    /** The informer handler: skip, coalesce, or mark and send. `s` is the pipeline as the handler finds it. */
    method HandleInformerEvent(e: Event, labelled: bool, ghost s: State)
      requires Valid() && |s.handlers| > 0 && s.handlers[0] == e && s.sending.None?
      requires HasVersion(s, e.name, e.version) && labelled == Version(s, e.name, e.version).labelled
      requires s.marks == dispatchedActions && s.channels == workerChs[..]
      requires |workerChs[Shard(config, e.name)]| < config.bufferSize
      modifies this`dispatchedActions, workerChs
      ensures Valid() && dispatchedActions == Dispatched(s).marks
      ensures
        var t := Dispatched(s);
        workerChs[..] == if t.sending.Some? then ApplyInformer(config, t, Send).channels else t.channels
    {
      if labelled {
        return;
      }
      var shard := config.hash(e.name) % config.numWorkers;
      if e.kind.Deleted? {
        workerChs[shard] := workerChs[shard] + [e];
        return;
      }
      if e.name in dispatchedActions {
        return;
      }
      dispatchedActions := dispatchedActions + {e.name};
      workerChs[shard] := workerChs[shard] + [e];
    }

    /** The head of a worker's loop up to the cache read. `s` is the pipeline as the worker finds it. */
    method TakeEvent(k: nat, ghost s: State) returns (e: Event)
      requires Valid() && k < workerChs.Length && workerChs[k] != []
      requires s.marks == dispatchedActions && s.channels == workerChs[..] && AtStage(s, k) && s.workers[k].Idle?
      modifies this`dispatchedActions, workerChs
      ensures
        var t := UnmarkedBy(ApplyWorker(config, s, k, WorkerStep.Pop), k);
        && Valid() && e == old(workerChs[k][0])
        && dispatchedActions == t.marks && workerChs[..] == t.channels
    {
      e := workerChs[k][0];
      workerChs[k] := workerChs[k][1..];
      dispatchedActions := dispatchedActions - {e.name};
    }
  }
}
