/**
 * The record and the enum the event queue carries (Event.kt).
 * An `Event` is an immutable value; Kotlin's `copy(...)` is Dafny's
 * datatype update `e.(field := value)`, which changes only the named fields.
 */
module Events {
  import opened Wrappers

  /** The event kinds. `Invalid` is the placeholder a freshly built event carries. */
  datatype EventType = Invalid | Identify | Track

  /**
   * A value in a context, properties or traits map. The SDK takes any value the
   * JSON encoder accepts; the model keeps the two kinds the library produces
   * itself (text and booleans) and one opaque case for everything else.
   */
  datatype Value = Text(text: string) | Flag(flag: bool) | Opaque(id: nat)

  type Props = map<string, Value>

  datatype Event = Event(
    anonymousId: string,
    userId: Option<string>,
    messageId: string,
    eventType: EventType,
    context: Props,
    originalTimestamp: string,
    event: Option<string>,
    properties: Option<Props>,
    traits: Option<Props>)

  /**
   * The data-class constructor with its default arguments: the four identity
   * fields and the timestamp are required, `userId` may be null, `context`
   * defaults to the empty map and `event`, `properties`, `traits` to null.
   */
  function NewEvent(anonymousId: string, userId: Option<string>, messageId: string, eventType: EventType,
                    originalTimestamp: string, context: Props := map[], event: Option<string> := None,
                    properties: Option<Props> := None, traits: Option<Props> := None): (e: Event)
    ensures e.anonymousId == anonymousId && e.userId == userId && e.messageId == messageId
    ensures e.eventType == eventType && e.originalTimestamp == originalTimestamp
    ensures e.context == context && e.event == event && e.properties == properties && e.traits == traits
  {
    Event(anonymousId, userId, messageId, eventType, context, originalTimestamp, event, properties, traits)
  }

  /** Omitting every optional argument gives an empty context and null name, properties and traits. */
  lemma NewEventDefaults(anonymousId: string, userId: Option<string>, messageId: string, eventType: EventType,
                         originalTimestamp: string)
    ensures var e := NewEvent(anonymousId, userId, messageId, eventType, originalTimestamp);
            e.context == map[] && e.event.None? && e.properties.None? && e.traits.None?
  {
  }

  /**
   * The shape every delivered event is meant to have: a real type (never the
   * placeholder), traits exactly on identify events, a name and properties
   * exactly on track events.
   */
  predicate WellTyped(e: Event) {
    match e.eventType
    case Invalid => false
    case Identify => e.traits.Some? && e.event.None? && e.properties.None?
    case Track => e.event.Some? && e.properties.Some? && e.traits.None?
  }

  /** Two events agree on everything `copy(type = ..., ...)` keeps. */
  predicate SameOrigin(a: Event, b: Event) {
    a.anonymousId == b.anonymousId && a.userId == b.userId && a.messageId == b.messageId
    && a.context == b.context && a.originalTimestamp == b.originalTimestamp
  }
}
