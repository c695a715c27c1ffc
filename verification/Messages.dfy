/** The events that travel from the publisher through Kafka to the consumer. */
module Messages {

  datatype EventType = Created | StatusUpdated | Confirmed | Failed | Unknown

  datatype Event = Event(eventType: EventType, transactionId: string, signature: string)

  /** What lies in the `transactions` topic: an event and its `retry-count` header (absent counts as 0). */
  datatype Message = Message(event: Event, retryCount: nat)

  /** How many copies of e are in xs. */
  ghost function Count(xs: seq<Event>, e: Event): nat {
    multiset(xs)[e]
  }

  lemma CountConcat(xs: seq<Event>, ys: seq<Event>, e: Event)
    ensures Count(xs + ys, e) == Count(xs, e) + Count(ys, e)
  {
  }

  lemma CountMember(xs: seq<Event>, e: Event)
    ensures e in xs <==> Count(xs, e) > 0
  {
  }
}
