# Datablit Android SDK: the event queue, in Dafny

This project models the core of the Datablit analytics SDK for Android. It
covers how the SDK builds `identify` and `track` events and adds them to its
in-memory queue, and how it mirrors that queue to the file
`analytics_queue.json`. It models draining the queue into a batch once
`flushAt` events are waiting or a flush is requested. It then puts a failed
batch back or drops it, according to the delivery outcome.

Around the queue sit three smaller pieces. The lifecycle observer emits
"Application Installed/Updated/Opened/Backgrounded". The configuration
validates its settings. Event records are what the queue carries.

Files and modules:

- `wrappers.dfy` (`Wrappers`): `Option` for Kotlin's nullable values, `Result` for a constructor that throws.
- `events.dfy` (`Events`): `EventType`, the `Event` record, and the `WellTyped` shape every delivered event has.
- `config.dfy` (`Configuration`): `DatablitConfig`, with its defaults and the checks in `init`.
- `preferences.dfy` (`Preferences`): the shared preference store "DatablitPrefs", as a class over a string map.
- `lifecycle.dfy` (`Lifecycle`): the class `LifecycleObserver`, plus pure functions for the calls each callback makes.
- `datablit.dfy` (`Analytics`): the class `Datablit` and the pure step functions that specify its methods.

## How the model is built

The queue is specified as a state machine over `QueueState(queue, disk)`:

- `disk` is the queue file.
- `DrainStep` is the synchronous part of `flush`.
- `EnqueueStep` is `addInQueue`, including the flush it may start.
- `OutcomeStep` is what the delivery thread does once the HTTP outcome is known.

Each method of `Datablit` states that its new queue, file and returned batch are exactly those step functions applied to its old state. The lemmas are about the step functions.

The outcome of a delivery is an input: `Status(code)` or `TransportError`. A tick of the flush timer is a call to `Flush`. Message ids, timestamps and generated UUIDs are parameters.

Where the code differs from the intended design, the model follows the code:

- A retried batch is appended after the events enqueued since the drain (`queue.addAll(batch)`). It is not put back at the front (`RetryLandsBehindNewerEvents`).
- The overflow check `queue.size > 100` runs before the add. The queue can therefore hold 101 events (`QueueCapacity`).
- On overflow, the in-memory queue is cleared and the incoming event is dropped. The file is not rewritten, so a restart at that point restores the dropped events (`OverflowResurrectedOnRestart`).
- "Application Updated" does not store the new version. Every later create on the same package reports the update again (`UpdatedRepeats`).
- The anonymous id is resolved and stored during field initialisation. This happens before `init` rejects an empty API key or a flush interval the timer refuses (`Datablit.Create`).
- `init` re-checks nothing from the configuration except through the timer. A builder block can set `flushInterval` to 0 or less, and construction then fails when the timer is scheduled (`StartupError`).

## Model

| member | source | states |
|---|---|---|
| `Events.NewEvent` | datablit/src/main/java/com/datablit/Event.kt:13-23 | the record holds exactly the values it was built from; identity, message id, type and timestamp are required arguments |
| `Events.NewEventDefaults` | datablit/src/main/java/com/datablit/Event.kt:18-22 | omitted arguments give an empty context and null event name, properties and traits |
| `Configuration.Make` | datablit/src/main/java/com/datablit/DatablitConfig.kt:6-18 | construction succeeds iff flushAt > 0 and flushInterval > 0; a bad flushAt is reported first, then a bad flushInterval; on success every field is the given argument |
| `Configuration.Default` | datablit/src/main/java/com/datablit/DatablitConfig.kt:7-13 | the defaults (20, 30000, three false flags, the two datablit.com URLs) pass validation |
| `Configuration.Apply` | datablit/src/main/java/com/datablit/Datablit.kt:199-206 | the builder's configuration is the block applied to the validated defaults, with no further check |
| `Configuration.ApplySkipsValidation` | datablit/src/main/java/com/datablit/DatablitConfig.kt:6-18 | a builder block that sets flushAt to 0 yields an invalid configuration without failing, while the constructor rejects the same value |
| `Lifecycle.CurrentVersion` | datablit/src/main/java/com/datablit/LifecycleObserver.kt:31 | the running version name, or the text "null" when the package info or its version name is missing |
| `Lifecycle.CurrentBuild` | datablit/src/main/java/com/datablit/LifecycleObserver.kt:32-37 | the running build number, or the text "null" when the package info is missing |
| `Lifecycle.CreateCalls` | datablit/src/main/java/com/datablit/LifecycleObserver.kt:39-57 | Installed with version and build when nothing is stored; Updated with the previous pair when the stored version differs (a missing one included); no call exactly when the stored version equals the running one |
| `Lifecycle.StoreAfterCreate` | datablit/src/main/java/com/datablit/LifecycleObserver.kt:39-57 | only a fresh install writes the running version and build; otherwise the store is unchanged |
| `Lifecycle.OpenedCall` | datablit/src/main/java/com/datablit/LifecycleObserver.kt:60-66 | "Application Opened" with the single property from_background equal to the negated launch flag |
| `Lifecycle.OpenedFromBackground` | datablit/src/main/java/com/datablit/LifecycleObserver.kt:17-66 | from a new observer, a start reports from_background = false exactly when a create happened since the previous start |
| `Lifecycle.UpdatedRepeats` | datablit/src/main/java/com/datablit/LifecycleObserver.kt:48-57 | after an update the stored pair is unchanged, so the next create reports the same update again |
| `Lifecycle.InstallThenSilent` | datablit/src/main/java/com/datablit/LifecycleObserver.kt:40-47 | after a fresh install the next create on the same package makes no call |
| `Lifecycle.LifecycleObserver.constructor` | datablit/src/main/java/com/datablit/LifecycleObserver.kt:16-17 | the launch flag starts false |
| `Lifecycle.LifecycleObserver.GetVersionAndBuild` | datablit/src/main/java/com/datablit/LifecycleObserver.kt:85-90 | the stored version and build, each null when absent |
| `Lifecycle.LifecycleObserver.SaveVersionAndBuild` | datablit/src/main/java/com/datablit/LifecycleObserver.kt:92-95 | writes both keys and nothing else |
| `Lifecycle.LifecycleObserver.Create` | datablit/src/main/java/com/datablit/LifecycleObserver.kt:28-58 | sets the launch flag as FlagAfter does for a create, makes the calls of CreateCalls on the stored pair and leaves the store as StoreAfterCreate says |
| `Lifecycle.LifecycleObserver.Start` | datablit/src/main/java/com/datablit/LifecycleObserver.kt:60-66 | one Opened call reporting the old flag negated; the flag is cleared, as FlagAfter does for a start |
| `Lifecycle.LifecycleObserver.Stop` | datablit/src/main/java/com/datablit/LifecycleObserver.kt:76-79 | exactly one "Application Backgrounded" with no properties |
| `Lifecycle.LifecycleObserver.Resume` | datablit/src/main/java/com/datablit/LifecycleObserver.kt:68-70 | no call |
| `Lifecycle.LifecycleObserver.Pause` | datablit/src/main/java/com/datablit/LifecycleObserver.kt:72-74 | no call |
| `Lifecycle.LifecycleObserver.Destroy` | datablit/src/main/java/com/datablit/LifecycleObserver.kt:81-83 | no call |
| `Analytics.Restore` | datablit/src/main/java/com/datablit/Datablit.kt:180-185 | the file's event list when it holds one, otherwise nothing |
| `Analytics.Classify` | datablit/src/main/java/com/datablit/Datablit.kt:116-129 | 2xx is delivered; 401, 429, 500 and above and a transport exception retry; every other status drops, each as an if-and-only-if |
| `Analytics.DrainStep` | datablit/src/main/java/com/datablit/Datablit.kt:95-102 | the batch is the queue in order; an empty queue is left alone, otherwise memory and file both become empty |
| `Analytics.EnqueueStep` | datablit/src/main/java/com/datablit/Datablit.kt:160-172 | above 100 events: queue emptied, event and batch dropped, file untouched; otherwise, when the size reaches flushAt, the batch is the old queue plus the event and memory and file are empty, and below it no batch leaves and memory and file hold the old queue plus the event; batch followed by queue is always the old queue plus the event; with flushAt > 0 fewer than flushAt events remain |
| `Analytics.OutcomeStep` | datablit/src/main/java/com/datablit/Datablit.kt:116-129 | for the non-empty batch a delivery thread carries, a retryable outcome makes the queue the current queue followed by the batch, and the file mirrors it; any other outcome changes nothing |
| `Analytics.BelowThresholdKeepsAll` | datablit/src/main/java/com/datablit/Datablit.kt:160-172 | fewer than flushAt enqueues without overflow keep every event in call order, start no delivery, and leave the file equal to the queue |
| `Analytics.NothingLostWithoutOverflow` | datablit/src/main/java/com/datablit/Datablit.kt:160-172 | while no overflow can occur, the batches handed out followed by the remaining queue are the old queue followed by the new events |
| `Analytics.SmallFlushAtNeverOverflows` | datablit/src/main/java/com/datablit/Datablit.kt:161-171 | with 0 < flushAt <= 101 and the queue below it, the queue stays below flushAt and no event is lost or reordered |
| `Analytics.RetryLandsBehindNewerEvents` | datablit/src/main/java/com/datablit/Datablit.kt:124-129 | after draining a non-empty queue, further enqueues and a retryable outcome, the queue is the newer events followed by the failed batch |
| `Analytics.DrainThenOutcome` | datablit/src/main/java/com/datablit/Datablit.kt:95-129 | on a non-empty queue, drain then retry restores the queue exactly; drain then delivery or drop leaves memory and file empty |
| `Analytics.MirrorKept` | datablit/src/main/java/com/datablit/Datablit.kt:96-171 | drain, a non-overflowing enqueue and an outcome keep the file equal to the queue |
| `Analytics.OverflowResurrectedOnRestart` | datablit/src/main/java/com/datablit/Datablit.kt:160-164 | an overflow empties memory but a restart restores every dropped event from the file |
| `Analytics.QueueCapacity` | datablit/src/main/java/com/datablit/Datablit.kt:160-171 | enqueues keep the queue at 101 events or fewer, and 101 is reached when flushAt exceeds it |
| `Analytics.FlushAtOneSendsEachEvent` | datablit/src/main/java/com/datablit/Datablit.kt:165-171 | with flushAt 1, one enqueue on an empty queue sends exactly one batch holding that event |
| `Analytics.EnqueueKeepsWellTyped` | datablit/src/main/java/com/datablit/Datablit.kt:160-171 | enqueueing a well-typed event keeps every queued and batched event well-typed, so the invalid placeholder never enters the queue |
| `Analytics.ResolveAnonymousId` | datablit/src/main/java/com/datablit/Datablit.kt:134-139 | the stored id with the store untouched, or the generated id, which is then stored |
| `Analytics.AnonymousIdStable` | datablit/src/main/java/com/datablit/Datablit.kt:134-139 | a second lookup returns the first lookup's id and store, whatever id it would have generated |
| `Analytics.DefaultEvent` | datablit/src/main/java/com/datablit/Datablit.kt:149-158 | the placeholder carries type invalid, is not well-typed, and has null name, properties and traits |
| `Analytics.IdentifyEvent` | datablit/src/main/java/com/datablit/Datablit.kt:71-76 | type identify, the new user id and the traits, null name and properties; the rest is kept from the placeholder |
| `Analytics.TrackEvent` | datablit/src/main/java/com/datablit/Datablit.kt:83-90 | type track, the name and properties, the current user id, null traits; the rest is kept from the placeholder |
| `Analytics.StartupError` | datablit/src/main/java/com/datablit/Datablit.kt:53-58 | construction fails iff the API key is empty or flushInterval is not positive; the key is checked first, then the timer refuses a negative delay or a zero period; a validated configuration fails only on the key |
| `Analytics.Datablit.constructor` | datablit/src/main/java/com/datablit/Datablit.kt:44-57 | once StartupError reports nothing, the queue starts as the file's events (empty without a list) and the file is left as it was |
| `Analytics.Datablit.Create` | datablit/src/main/java/com/datablit/Datablit.kt:35-64 | fails iff StartupError reports a message, with that message, after the anonymous id is stored; otherwise the instance is restored from the file and the preferences, and an observer is made iff lifecycle tracking is on |
| `Analytics.Datablit.GetAnonymousId` | datablit/src/main/java/com/datablit/Datablit.kt:134-139 | returns and stores what ResolveAnonymousId gives |
| `Analytics.Datablit.SaveUserId` | datablit/src/main/java/com/datablit/Datablit.kt:145-147 | writes the user id key |
| `Analytics.Datablit.RestoreQueue` | datablit/src/main/java/com/datablit/Datablit.kt:180-185 | appends the file's events to the queue |
| `Analytics.Datablit.SaveQueue` | datablit/src/main/java/com/datablit/Datablit.kt:174-178 | the file becomes the current queue |
| `Analytics.Datablit.Identify` | datablit/src/main/java/com/datablit/Datablit.kt:71-76 | sets and persists the user id, then enqueues IdentifyEvent as EnqueueStep says |
| `Analytics.Datablit.Track` | datablit/src/main/java/com/datablit/Datablit.kt:83-90 | enqueues TrackEvent with the current user id as EnqueueStep says; the user id is unchanged |
| `Analytics.Datablit.AddInQueue` | datablit/src/main/java/com/datablit/Datablit.kt:160-172 | queue, file and returned batch are those of EnqueueStep |
| `Analytics.Datablit.Flush` | datablit/src/main/java/com/datablit/Datablit.kt:95-102 | queue, file and returned batch are those of DrainStep |
| `Analytics.Datablit.ApplyOutcome` | datablit/src/main/java/com/datablit/Datablit.kt:116-129 | for a non-empty batch, queue and file are those of OutcomeStep |

## Left out

- The HTTP request (URL, headers, the JSON body with `sentAt`) and the Gson encoding of events and of the queue file are left out: they are foreign library calls. The response is the `Outcome` input, and the file is a `StoredFile` value.
- A queue file that does not parse is left out. Gson would throw out of the constructor; the model's file is missing, null, or a list.
- Threads, the `Timer` and `synchronized` are left out because they are concurrency. The delivery thread's work is `ApplyOutcome`, run as a separate sequential step. A timer tick is a call to `Flush`. The unsynchronized size check at the start of `addInQueue` and concurrent flushes are not modelled.
- The running flush timer is left out: `startFlushTimer` contributes only its rejection of a negative delay or a non-positive period. The timer's failure for an interval so large that the first run time overflows is not modelled.
- `UUID.randomUUID()` and `Instant.now()` are parameters: `uuid`, `messageId` and `timestamp`.
- `Log.i`/`Log.e` and the `enableDebugLogs` switch are left out: they only produce debug output.
- `requireNotNull(context)` is left out, because the model has no Android context. The event context map is a parameter; EventContext.kt is not part of this model.
- The `rule` and `experiment` helpers are left out: they are independent one-shot requests. Rule.kt and Experiment.kt are not part of this model.
- Registering the observer with `ProcessLifecycleOwner` is left out; `Datablit.Create` returns the observer instead.
- Lifecycle.LifecycleObserver.Create: each callback returns the `track` calls it makes, which the host passes to `Datablit.Track`. The callback does not call into the SDK itself.
- Lifecycle.CurrentBuild: the branch on the platform SDK level (`longVersionCode` or `versionCode`) and the decimal rendering of the number are left out. The package info carries the build number as text.
- `SharedPreferences` as a library is left out; the store is a string map.
- The 32-bit and 64-bit widths of `flushAt` and `flushInterval` are left out. They are only compared with 0 and with the queue size, so no arithmetic can wrap.
- Later assignments to the public `config` object are left out: the model keeps the configuration fixed for the life of the instance.
- Property values of any type are left out: maps of `Any` hold text, booleans or an opaque value.
