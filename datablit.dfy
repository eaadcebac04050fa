/**
 * The SDK's event queue (Datablit.kt): building events, enqueueing them,
 * draining the queue into a batch, and putting the batch back or dropping it
 * once the delivery outcome is known.
 *
 * The queue file `analytics_queue.json` is the `disk` field; the HTTP round
 * trip is replaced by an `Outcome` value handed to `ApplyOutcome`, and a tick
 * of the flush timer is a call to `Flush`. The pure step functions below
 * specify the methods of the class `Datablit`.
 */
module Analytics {
  import opened Wrappers
  import opened Events
  import opened Configuration
  import opened Preferences
  import Lifecycle

  /** `addInQueue` clears the queue when it already holds more than this many events. */
  const MaxQueueSize := 100
  const AnonymousIdKey := "anonymous_id"
  const UserIdKey := "user_id"
  const EmptyApiKeyMessage := "API key cannot be empty"
  /** The messages of `java.util.Timer.schedule(task, delay, period)` for a bad delay or period. */
  const NegativeDelayMessage := "Negative delay."
  const NonPositivePeriodMessage := "Non-positive period."

  /**
   * The queue file: missing, holding a document that decodes to null (an empty
   * file), or holding a list of events.
   */
  datatype StoredFile = Absent | NullJson | Saved(events: seq<Event>)

  /** The events `restoreQueue` appends: the file's list, or none when there is no list. */
  function Restore(f: StoredFile): (q: seq<Event>)
    ensures f.Saved? ==> q == f.events
    ensures !f.Saved? ==> q == []
  {
    if f.Saved? then f.events else []
  }

  /** The in-memory queue and the queue file. */
  datatype QueueState = QueueState(queue: seq<Event>, disk: StoredFile)

  /** The file holds exactly the in-memory queue, so a restart would restore it. */
  predicate Mirrored(s: QueueState) {
    s.disk == Saved(s.queue)
  }

  /** A state after one step, and the batch that step handed to a delivery thread ([] for none). */
  datatype Flushed = Flushed(state: QueueState, batch: seq<Event>)

  // ---------------------------------------------------------------------------
  // Delivery outcomes

  /** What the delivery thread learns: an HTTP status code, or an exception before one arrived. */
  datatype Outcome = Status(code: int) | TransportError

  /** What happens to a delivered batch. */
  datatype Delivery = Delivered | Retry | Drop

  /**
   * The status classification: 2xx is delivered; 401, 429, any status of 500
   * or more and a transport exception put the batch back; every other status
   * (1xx, 3xx, the remaining 4xx, and -1 for a response that is not HTTP) drops it.
   */
  function Classify(o: Outcome): (d: Delivery)
    ensures d == Delivered <==> o.Status? && 200 <= o.code <= 299
    ensures d == Retry <==> o.TransportError? || o.code == 401 || o.code == 429 || o.code >= 500
    ensures d == Drop <==> o.Status? && !(200 <= o.code <= 299) && o.code != 401 && o.code != 429 && o.code < 500
  {
    match o
    case TransportError => Retry
    case Status(code) =>
      if 200 <= code <= 299 then Delivered
      else if code == 401 || code == 429 || code >= 500 then Retry
      else Drop
  }

  // ---------------------------------------------------------------------------
  // The queue as a state machine

  /**
   * The synchronous half of `flush`: an empty queue is left alone; otherwise
   * the whole queue, in order, becomes the batch, and memory and file are emptied.
   */
  function DrainStep(s: QueueState): (r: Flushed)
    ensures r.batch == s.queue
    ensures s.queue == [] ==> r.state == s
    ensures s.queue != [] ==> r.state.queue == [] && Mirrored(r.state)
  {
    if s.queue == [] then Flushed(s, [])
    else Flushed(QueueState([], Saved([])), s.queue)
  }

  /**
   * `addInQueue`. Holding more than `MaxQueueSize` events, the queue is cleared,
   * the incoming event is dropped and the file is not rewritten. Otherwise the
   * event is appended and the file saved; when the size reaches `flushAt` the
   * queue is drained into a batch.
   */
  function EnqueueStep(s: QueueState, e: Event, flushAt: int): (r: Flushed)
    ensures |s.queue| > MaxQueueSize ==> r.state.queue == [] && r.state.disk == s.disk && r.batch == []
    ensures |s.queue| <= MaxQueueSize ==> r.batch + r.state.queue == s.queue + [e] && Mirrored(r.state)
    ensures |s.queue| <= MaxQueueSize ==> (r.batch != [] <==> |s.queue| + 1 >= flushAt)
    ensures |s.queue| <= MaxQueueSize && |s.queue| + 1 >= flushAt
            ==> r.batch == s.queue + [e] && r.state == QueueState([], Saved([]))
    ensures |s.queue| <= MaxQueueSize && |s.queue| + 1 < flushAt
            ==> r.batch == [] && r.state == QueueState(s.queue + [e], Saved(s.queue + [e]))
    ensures flushAt > 0 ==> |r.state.queue| < flushAt
  {
    if |s.queue| > MaxQueueSize then Flushed(QueueState([], s.disk), [])
    else
      var added := QueueState(s.queue + [e], Saved(s.queue + [e]));
      if |added.queue| >= flushAt then DrainStep(added) else Flushed(added, [])
  }

  /**
   * The asynchronous half of `flush`, applied to the queue as it is when the
   * outcome arrives: a retryable outcome appends the batch after whatever is
   * queued by then and saves the file; any other outcome changes nothing.
   * A delivery thread is only started for a non-empty batch.
   */
  function OutcomeStep(s: QueueState, batch: seq<Event>, o: Outcome): (r: QueueState)
    requires batch != []
    ensures Classify(o) == Retry ==> r.queue == s.queue + batch && Mirrored(r)
    ensures Classify(o) != Retry ==> r == s
  {
    if Classify(o) == Retry then QueueState(s.queue + batch, Saved(s.queue + batch)) else s
  }

  /** The final state of a run of enqueues and the non-empty batches it drained, in order. */
  datatype Run = Run(state: QueueState, batches: seq<seq<Event>>)

  function EnqueueAll(s: QueueState, es: seq<Event>, flushAt: int): Run
    decreases |es|
  {
    if es == [] then Run(s, [])
    else
      var step := EnqueueStep(s, es[0], flushAt);
      var rest := EnqueueAll(step.state, es[1..], flushAt);
      Run(rest.state, (if step.batch == [] then [] else [step.batch]) + rest.batches)
  }

  function Concat(bs: seq<seq<Event>>): seq<Event>
    decreases |bs|
  {
    if bs == [] then [] else bs[0] + Concat(bs[1..])
  }

  // ---------------------------------------------------------------------------
  // Properties of the queue

  /**
   * Below the flush threshold and the overflow bound, a run of enqueues keeps
   * every event in call order, starts no delivery, and leaves the file equal to
   * the queue.
   */
  lemma {:induction false} BelowThresholdKeepsAll(s: QueueState, es: seq<Event>, flushAt: int)
    requires |s.queue| + |es| < flushAt
    requires |s.queue| + |es| <= MaxQueueSize + 1
    ensures EnqueueAll(s, es, flushAt).state.queue == s.queue + es
    ensures EnqueueAll(s, es, flushAt).batches == []
    ensures es != [] ==> Mirrored(EnqueueAll(s, es, flushAt).state)
    decreases |es|
  {
    if es != [] {
      var step := EnqueueStep(s, es[0], flushAt);
      assert step.batch == [] && step.state.queue == s.queue + [es[0]];
      var rest := EnqueueAll(step.state, es[1..], flushAt);
      BelowThresholdKeepsAll(step.state, es[1..], flushAt);
      assert EnqueueAll(s, es, flushAt) == Run(rest.state, [] + rest.batches);
      assert [es[0]] + es[1..] == es;
    }
  }

  /**
   * As long as the queue never overflows, no event is lost: the batches handed
   * out, followed by what is still queued, are the earlier queue followed by
   * the new events, in order.
   */
  lemma {:induction false} NothingLostWithoutOverflow(s: QueueState, es: seq<Event>, flushAt: int)
    requires |s.queue| + |es| <= MaxQueueSize + 1
    ensures var r := EnqueueAll(s, es, flushAt); Concat(r.batches) + r.state.queue == s.queue + es
    decreases |es|
  {
    if es != [] {
      var step := EnqueueStep(s, es[0], flushAt);
      NothingLostWithoutOverflow(step.state, es[1..], flushAt);
      StepConserves(s, es, flushAt);
    }
  }

  /**
   * With `flushAt` at most one more than `MaxQueueSize` and the queue below it,
   * enqueues alone never reach the overflow branch: the queue stays below
   * `flushAt` and every event is handed out or still queued, in order.
   */
  lemma {:induction false} SmallFlushAtNeverOverflows(s: QueueState, es: seq<Event>, flushAt: int)
    requires 0 < flushAt <= MaxQueueSize + 1
    requires |s.queue| < flushAt
    ensures var r := EnqueueAll(s, es, flushAt);
            |r.state.queue| < flushAt && Concat(r.batches) + r.state.queue == s.queue + es
    decreases |es|
  {
    if es != [] {
      var step := EnqueueStep(s, es[0], flushAt);
      SmallFlushAtNeverOverflows(step.state, es[1..], flushAt);
      StepConserves(s, es, flushAt);
    }
  }

  /** One enqueue that does not overflow, followed by a run that keeps every event, keeps every event. */
  lemma StepConserves(s: QueueState, es: seq<Event>, flushAt: int)
    requires es != [] && |s.queue| <= MaxQueueSize
    requires var rest := EnqueueAll(EnqueueStep(s, es[0], flushAt).state, es[1..], flushAt);
             Concat(rest.batches) + rest.state.queue == EnqueueStep(s, es[0], flushAt).state.queue + es[1..]
    ensures var r := EnqueueAll(s, es, flushAt); Concat(r.batches) + r.state.queue == s.queue + es
  {
    var step := EnqueueStep(s, es[0], flushAt);
    var rest := EnqueueAll(step.state, es[1..], flushAt);
    var r := EnqueueAll(s, es, flushAt);
    assert r == Run(rest.state, (if step.batch == [] then [] else [step.batch]) + rest.batches);
    ConcatBatch(step.batch, rest.batches);
    assert Concat(r.batches) == step.batch + Concat(rest.batches);
    assert step.batch + step.state.queue == s.queue + [es[0]];
    assert [es[0]] + es[1..] == es;
    Regroup(step.batch, Concat(rest.batches), rest.state.queue, step.state.queue, s.queue, es[0], es[1..]);
  }

  /** Sequence bookkeeping for `StepConserves`, kept apart from the step functions. */
  lemma Regroup(batch: seq<Event>, handed: seq<Event>, left: seq<Event>, queued: seq<Event>,
                before: seq<Event>, x: Event, tail: seq<Event>)
    requires handed + left == queued + tail
    requires batch + queued == before + [x]
    ensures (batch + handed) + left == before + ([x] + tail)
  {
    calc {
      (batch + handed) + left;
      batch + (handed + left);
      batch + (queued + tail);
      (batch + queued) + tail;
      (before + [x]) + tail;
      before + ([x] + tail);
    }
  }

  lemma ConcatBatch(b: seq<Event>, bs: seq<seq<Event>>)
    ensures Concat((if b == [] then [] else [b]) + bs) == b + Concat(bs)
  {
    if b == [] {
      assert [] + bs == bs;
    } else {
      assert ([b] + bs)[0] == b;
      assert ([b] + bs)[1..] == bs;
    }
  }

  /**
   * A failed batch is appended behind the events enqueued since the drain:
   * after a drain, some enqueues below the threshold and a retryable outcome,
   * the queue is the new events followed by the drained ones.
   */
  lemma RetryLandsBehindNewerEvents(s: QueueState, es: seq<Event>, flushAt: int, o: Outcome)
    requires s.queue != []
    requires |es| < flushAt && |es| <= MaxQueueSize + 1
    requires Classify(o) == Retry
    ensures var d := DrainStep(s);
            var r := OutcomeStep(EnqueueAll(d.state, es, flushAt).state, d.batch, o);
            r.queue == es + s.queue && Mirrored(r)
  {
    var d := DrainStep(s);
    if s.queue == [] {
      BelowThresholdKeepsAll(s, es, flushAt);
    } else {
      BelowThresholdKeepsAll(d.state, es, flushAt);
    }
  }

  /**
   * Drain followed directly by the outcome: a retryable outcome restores the
   * queue exactly; a delivered or dropped batch leaves the queue empty.
   */
  lemma DrainThenOutcome(s: QueueState, o: Outcome)
    requires s.queue != []
    ensures var d := DrainStep(s); var r := OutcomeStep(d.state, d.batch, o);
            (Classify(o) == Retry ==> r.queue == s.queue && Mirrored(r))
            && (Classify(o) != Retry ==> r.queue == [] && Mirrored(r))
  {
  }

  /** Every step but the overflow keeps the file equal to the queue. */
  lemma MirrorKept(s: QueueState, e: Event, flushAt: int, batch: seq<Event>, o: Outcome)
    requires Mirrored(s)
    ensures Mirrored(DrainStep(s).state)
    ensures |s.queue| <= MaxQueueSize ==> Mirrored(EnqueueStep(s, e, flushAt).state)
    ensures batch != [] ==> Mirrored(OutcomeStep(s, batch, o))
  {
  }

  /**
   * The overflow clears memory but not the file: a restart at that point
   * restores every event the overflow dropped.
   */
  lemma OverflowResurrectedOnRestart(s: QueueState, e: Event, flushAt: int)
    requires |s.queue| > MaxQueueSize && Mirrored(s)
    ensures var r := EnqueueStep(s, e, flushAt);
            r.state.queue == [] && r.batch == [] && Restore(r.state.disk) == s.queue
  {
  }

  /**
   * Enqueues keep the queue at most one above `MaxQueueSize`, and with a large
   * `flushAt` that size is reached.
   */
  lemma QueueCapacity(s: QueueState, e: Event, flushAt: int)
    requires |s.queue| <= MaxQueueSize + 1
    ensures |EnqueueStep(s, e, flushAt).state.queue| <= MaxQueueSize + 1
    ensures |s.queue| == MaxQueueSize && flushAt > MaxQueueSize + 1
            ==> |EnqueueStep(s, e, flushAt).state.queue| == MaxQueueSize + 1
  {
  }

  /** With `flushAt = 1` a single enqueue on an empty queue sends exactly one batch, holding that event. */
  lemma FlushAtOneSendsEachEvent(s: QueueState, e: Event)
    requires s.queue == []
    ensures EnqueueAll(s, [e], 1).batches == [[e]]
    ensures EnqueueAll(s, [e], 1).state.queue == []
  {
    var step := EnqueueStep(s, e, 1);
    assert step.batch == [e] && step.state.queue == [];
    assert [e][1..] == [];
    assert EnqueueAll(step.state, [], 1) == Run(step.state, []);
  }

  /** Enqueueing well-typed events into a queue of well-typed events keeps every queued or batched event well-typed. */
  lemma EnqueueKeepsWellTyped(s: QueueState, e: Event, flushAt: int)
    requires forall x :: x in s.queue ==> WellTyped(x)
    requires WellTyped(e)
    ensures var r := EnqueueStep(s, e, flushAt);
            (forall x :: x in r.state.queue ==> WellTyped(x)) && (forall x :: x in r.batch ==> WellTyped(x))
  {
    var r := EnqueueStep(s, e, flushAt);
    if |s.queue| <= MaxQueueSize {
      forall x | x in r.state.queue || x in r.batch ensures x in s.queue + [e] {
        assert x in r.batch + r.state.queue;
      }
    }
  }

  // ---------------------------------------------------------------------------
  // Identity and event building

  /** What `getAnonymousId` returns and the store it leaves. */
  datatype Resolved = Resolved(id: string, store: map<string, string>)

  /**
   * The stored anonymous id when there is one, the store untouched; otherwise
   * the freshly generated `uuid`, which is stored.
   */
  function ResolveAnonymousId(store: map<string, string>, uuid: string): (r: Resolved)
    ensures AnonymousIdKey in store ==> r.id == store[AnonymousIdKey] && r.store == store
    ensures AnonymousIdKey !in store ==> r.id == uuid && r.store == store[AnonymousIdKey := uuid]
    ensures AnonymousIdKey in r.store && r.store[AnonymousIdKey] == r.id
  {
    if AnonymousIdKey in store then Resolved(store[AnonymousIdKey], store)
    else Resolved(uuid, store[AnonymousIdKey := uuid])
  }

  /** A second lookup returns the first one's id and store, whatever id it would have generated. */
  lemma AnonymousIdStable(store: map<string, string>, uuid: string, uuid2: string)
    ensures var first := ResolveAnonymousId(store, uuid);
            ResolveAnonymousId(first.store, uuid2) == first
  {
  }

  /** `getDefaultEvent`: the placeholder event, with identity, context and timestamp filled in. */
  function DefaultEvent(anonymousId: string, userId: Option<string>, messageId: string, context: Props,
                        timestamp: string): (e: Event)
    ensures e.eventType == Invalid && !WellTyped(e)
    ensures e.anonymousId == anonymousId && e.userId == userId && e.messageId == messageId
    ensures e.context == context && e.originalTimestamp == timestamp
    ensures e.event.None? && e.properties.None? && e.traits.None?
  {
    NewEvent(anonymousId, userId, messageId, Invalid, timestamp, context := context)
  }

  /** The event `identify` enqueues: type identify, the new user id, the traits, no name and no properties. */
  function IdentifyEvent(anonymousId: string, userId: string, messageId: string, context: Props,
                         timestamp: string, traits: Props): (e: Event)
    ensures WellTyped(e) && e.eventType == Identify
    ensures SameOrigin(e, DefaultEvent(anonymousId, Some(userId), messageId, context, timestamp))
    ensures e.userId == Some(userId) && e.traits == Some(traits)
    ensures e.event.None? && e.properties.None?
  {
    DefaultEvent(anonymousId, Some(userId), messageId, context, timestamp).(eventType := Identify, traits := Some(traits))
  }

  /** The event `track` enqueues: type track, the name and properties, the current user id, no traits. */
  function TrackEvent(anonymousId: string, userId: Option<string>, messageId: string, context: Props,
                      timestamp: string, name: string, properties: Props): (e: Event)
    ensures WellTyped(e) && e.eventType == Track
    ensures SameOrigin(e, DefaultEvent(anonymousId, userId, messageId, context, timestamp))
    ensures e.event == Some(name) && e.properties == Some(properties) && e.traits.None?
  {
    DefaultEvent(anonymousId, userId, messageId, context, timestamp)
      .(eventType := Track, event := Some(name), properties := Some(properties))
  }

  // ---------------------------------------------------------------------------
  // The SDK instance

  /**
   * Why `init` throws, if it does. The empty API key is rejected first; then
   * `startFlushTimer` schedules the timer with `flushInterval` as both delay
   * and period, which the timer refuses when it is negative (a negative delay)
   * or zero (a non-positive period). A configuration from the constructor
   * never reaches the timer check, but one changed by a builder block can.
   */
  function StartupError(apiKey: string, config: Config): (r: Option<string>)
    ensures r.None? <==> apiKey != "" && config.flushInterval > 0
    ensures apiKey == "" ==> r == Some(EmptyApiKeyMessage)
    ensures apiKey != "" && config.flushInterval < 0 ==> r == Some(NegativeDelayMessage)
    ensures apiKey != "" && config.flushInterval == 0 ==> r == Some(NonPositivePeriodMessage)
    ensures Valid(config) ==> (r.None? <==> apiKey != "")
  {
    if apiKey == "" then Some(EmptyApiKeyMessage)
    else if config.flushInterval < 0 then Some(NegativeDelayMessage)
    else if config.flushInterval <= 0 then Some(NonPositivePeriodMessage)
    else None
  }

  /** What construction yields: the instance (or the exception message) and the lifecycle observer it registers. */
  datatype Created = Created(instance: Result<Datablit, string>, observer: Option<Lifecycle.LifecycleObserver>)

  class Datablit {
    const apiKey: string
    const config: Config
    const prefs: Prefs
    const anonymousId: string
    const eventContext: Props
    var userId: Option<string>
    var queue: seq<Event>
    var disk: StoredFile

    /** The queue and its file, the state the step functions describe. */
    function State(): QueueState
      reads this
    {
      QueueState(queue, disk)
    }

    /**
     * The part of construction that runs once `init`'s checks pass: the
     * identity read from the preferences, and the queue restored from the file.
     */
    constructor (apiKey: string, config: Config, prefs: Prefs, userId: Option<string>, anonymousId: string,
                 file: StoredFile, eventContext: Props)
      requires StartupError(apiKey, config).None?
      ensures this.apiKey == apiKey && this.config == config && this.prefs == prefs
      ensures this.userId == userId && this.anonymousId == anonymousId && this.eventContext == eventContext
      ensures queue == Restore(file) && disk == file
    {
      this.apiKey := apiKey;
      this.config := config;
      this.prefs := prefs;
      this.userId := userId;
      this.anonymousId := anonymousId;
      this.eventContext := eventContext;
      queue := [];
      disk := file;
      new;
      RestoreQueue(file);
    }

    /**
     * `Datablit(apiKey, context, config)`. The fields are initialised before
     * `init` runs, so the anonymous id is resolved and stored even when an
     * empty API key or a flush interval the timer refuses then makes
     * construction fail. On success the queue is the file's contents, and a
     * lifecycle observer is registered when the configuration asks for
     * lifecycle events.
     */
    static method Create(apiKey: string, config: Config, prefs: Prefs, file: StoredFile, eventContext: Props,
                         uuid: string, packageInfo: Option<Lifecycle.PackageInfo>) returns (c: Created)
      modifies prefs
      ensures prefs.store == ResolveAnonymousId(old(prefs.store), uuid).store
      ensures c.instance.Failure? <==> StartupError(apiKey, config).Some?
      ensures c.instance.Failure? ==> c.instance.error == StartupError(apiKey, config).value
      ensures c.instance.Success? ==>
                var d := c.instance.value;
                fresh(d) && d.apiKey == apiKey && d.config == config && d.prefs == prefs
                && d.eventContext == eventContext
                && d.userId == Lookup(old(prefs.store), UserIdKey)
                && d.anonymousId == ResolveAnonymousId(old(prefs.store), uuid).id
                && d.queue == Restore(file) && d.disk == file
      ensures c.observer.Some? <==> c.instance.Success? && config.trackApplicationLifecycleEvents
      ensures c.observer.Some? ==> fresh(c.observer.value) && c.observer.value.prefs == prefs
                                   && c.observer.value.packageInfo == packageInfo
                                   && !c.observer.value.firstLaunch
    {
      var userId := prefs.GetString(UserIdKey);
      var anonymousId := GetAnonymousId(prefs, uuid);
      var error := StartupError(apiKey, config);
      if error.Some? {
        return Created(Failure(error.value), None);
      }
      var d := new Datablit(apiKey, config, prefs, userId, anonymousId, file, eventContext);
      var observer: Option<Lifecycle.LifecycleObserver> := None;
      if config.trackApplicationLifecycleEvents {
        var o := new Lifecycle.LifecycleObserver(prefs, packageInfo);
        observer := Some(o);
      }
      c := Created(Success(d), observer);
    }

    /** `getAnonymousId`: the stored id, or `uuid` after storing it. */
    static method GetAnonymousId(prefs: Prefs, uuid: string) returns (id: string)
      modifies prefs
      ensures Resolved(id, prefs.store) == ResolveAnonymousId(old(prefs.store), uuid)
    {
      var stored := prefs.GetString(AnonymousIdKey);
      if stored.Some? {
        id := stored.value;
      } else {
        id := uuid;
        prefs.PutString(AnonymousIdKey, id);
      }
    }

    method SaveUserId(id: string)
      modifies prefs
      ensures prefs.store == old(prefs.store)[UserIdKey := id]
    {
      prefs.PutString(UserIdKey, id);
    }

    /** `restoreQueue`: appends the file's events, if it holds any. */
    method RestoreQueue(file: StoredFile)
      modifies this`queue
      ensures queue == old(queue) + Restore(file)
    {
      if file.Saved? {
        queue := queue + file.events;
      }
    }

    /** `saveQueue`: the file becomes the current queue. */
    method SaveQueue()
      modifies this`disk
      ensures disk == Saved(queue)
    {
      disk := Saved(queue);
    }

    /**
     * `identify`: the user id is set and persisted before the event is built;
     * the identify event is then enqueued. Returns the batch a resulting flush
     * handed to delivery.
     */
    method Identify(id: string, messageId: string, timestamp: string, traits: Props := map[])
      returns (batch: seq<Event>)
      modifies this, prefs
      ensures userId == Some(id)
      ensures prefs.store == old(prefs.store)[UserIdKey := id]
      ensures Flushed(State(), batch)
              == EnqueueStep(old(State()), IdentifyEvent(anonymousId, id, messageId, eventContext, timestamp, traits),
                             config.flushAt)
    {
      userId := Some(id);
      SaveUserId(id);
      var event := DefaultEvent(anonymousId, userId, messageId, eventContext, timestamp)
                     .(eventType := EventType.Identify, traits := Some(traits));
      batch := AddInQueue(event);
    }

    /** `track`: enqueues a track event carrying the current user id. */
    method Track(name: string, messageId: string, timestamp: string, properties: Props := map[])
      returns (batch: seq<Event>)
      modifies this
      ensures userId == old(userId)
      ensures Flushed(State(), batch)
              == EnqueueStep(old(State()), TrackEvent(anonymousId, userId, messageId, eventContext, timestamp,
                                                      name, properties), config.flushAt)
    {
      var event := DefaultEvent(anonymousId, userId, messageId, eventContext, timestamp)
                     .(eventType := EventType.Track, event := Some(name), properties := Some(properties));
      batch := AddInQueue(event);
    }

    /** `addInQueue`: overflow check, append and save, then a flush once `flushAt` is reached. */
    method AddInQueue(e: Event) returns (batch: seq<Event>)
      modifies this
      ensures userId == old(userId)
      ensures Flushed(State(), batch) == EnqueueStep(old(State()), e, config.flushAt)
    {
      if |queue| > MaxQueueSize {
        queue := [];
        return [];
      }
      queue := queue + [e];
      SaveQueue();
      batch := [];
      if |queue| >= config.flushAt {
        batch := Flush();
      }
    }

    /** The synchronous part of `flush`: drains the queue into the batch handed to delivery. */
    method Flush() returns (batch: seq<Event>)
      modifies this
      ensures userId == old(userId)
      ensures Flushed(State(), batch) == DrainStep(old(State()))
    {
      if queue == [] {
        return [];
      }
      batch := queue;
      queue := [];
      SaveQueue();
    }

    /** The delivery thread's handling of the outcome for `batch`. */
    method ApplyOutcome(batch: seq<Event>, outcome: Outcome)
      requires batch != []
      modifies this
      ensures userId == old(userId)
      ensures State() == OutcomeStep(old(State()), batch, outcome)
    {
      if Classify(outcome) == Retry {
        queue := queue + batch;
        SaveQueue();
      }
    }
  }
}
