/**
 * The plugin host's side of ingress: Fluentd's router, to which the input
 * plugins emit one event per decoded request, and the blocks the input
 * plugins hand to the HTTP handler, each of which emits one event tagged with
 * the record type of its route.
 */
module Pipeline {
  import opened Support

  /** in_opentelemetry.rb writes string keys ("type"), in_otlp.rb symbol keys (:type). */
  datatype KeyStyle = StringKeys | SymbolKeys

  /** The record `{ "type" => recordType, "message" => message }`. */
  datatype EventRecord = EventRecord(keys: KeyStyle, recordType: string, message: string)

  /** One `router.emit(tag, time, record)`; the event time is not modelled. */
  datatype Event = Event(tag: string, record: EventRecord)

  class Router {
    /** Every event emitted so far, in order. */
    var events: seq<Event>

    constructor()
      ensures events == []
    {
      events := [];
    }

    method Emit(e: Event)
      modifies this
      ensures events == old(events) + [e]
    {
      events := events + [e];
    }
  }

  /**
   * The block `{ |record| router.emit(@tag, now, { type => T, message => record }) }`:
   * it captures the router, the tag, the key style and the record type T.
   */
  class EmitBlock {
    const router: Router
    const tag: string
    const keys: KeyStyle
    const recordType: string

    constructor(router: Router, tag: string, keys: KeyStyle, recordType: string)
      ensures this.router == router && this.tag == tag
      ensures this.keys == keys && this.recordType == recordType
    {
      this.router := router;
      this.tag := tag;
      this.keys := keys;
      this.recordType := recordType;
    }

    /** The event one call of the block emits: the record is passed on unmodified. */
    function EventFor(record: string): (e: Event)
      ensures e.tag == tag && e.record.recordType == recordType && e.record.message == record
    {
      Event(tag, EventRecord(keys, recordType, record))
    }

    /** The events a block fired zero or one times emitted. */
    function EventsFor(yielded: Option<string>): (es: seq<Event>)
      ensures |es| <= 1
      ensures yielded.Some? <==> |es| == 1
      ensures yielded.Some? ==> es[0].record.message == yielded.value
    {
      match yielded
      case None => []
      case Some(record) => [EventFor(record)]
    }

    method Call(record: string)
      modifies router
      ensures router.events == old(router.events) + [EventFor(record)]
    {
      router.Emit(EventFor(record));
    }
  }
}
