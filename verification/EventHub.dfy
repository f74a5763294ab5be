/**
 The hub that numbers events, keeps the most recent ones and hands every event to the subscribers
 that keep up. The functions say what each critical section does to the hub; the class does it.
 */
module EventHub {
  import opened Options
  import opened Sequences

  const CHANNEL_CAPACITY: nat := 32
  const DEFAULT_BUFFER_SIZE: nat := 1000

  datatype EventId = NoId | Id(boot: nat, number: nat)
  datatype Event = Event(id: EventId, payload: nat)

  /** A channel stays readable after it left `subscribers`: it is closed, what it buffers can be drained. */
  datatype HubState = HubState(boot: nat, sequence: nat, capacity: nat, events: seq<Event>, subscribers: set<nat>,
                               channels: map<nat, seq<Event>>, next: nat)

  function NewHub(boot: nat, capacity: int): (h: HubState) {
    HubState(boot, 0, if capacity <= 0 then DEFAULT_BUFFER_SIZE else capacity, [], {}, map[], 0)
  }

  predicate HasRoom(h: HubState, ch: nat) {
    ch in h.channels && |h.channels[ch]| < CHANNEL_CAPACITY
  }

  function NextEvent(h: HubState, payload: nat): Event {
    Event(Id(h.boot, h.sequence + 1), payload)
  }

  /** What a channel buffers once the event was offered to it. */
  function QueueAfter(h: HubState, ch: nat, e: Event): seq<Event>
    requires ch in h.channels
  {
    if ch in h.subscribers && HasRoom(h, ch) then h.channels[ch] + [e] else h.channels[ch]
  }

  /** Subscribers with room get the event; the others are dropped. */
  function Publish(h: HubState, payload: nat): (r: HubState) {
    var e := NextEvent(h, payload);
    h.(sequence := h.sequence + 1,
       events := Last(h.events + [e], h.capacity),
       subscribers := (set ch | ch in h.subscribers && HasRoom(h, ch)),
       channels := (map ch | ch in h.channels :: QueueAfter(h, ch, e)))
  }

  /** The place after the event with this ID, among the buffered ones. */
  function PlaceAfter(events: seq<Event>, id: EventId): (r: Option<nat>)
    ensures r.Some? ==> 0 < r.value <= |events| && events[r.value - 1].id == id
    ensures r.None? ==> forall i :: 0 <= i < |events| ==> events[i].id != id
  {
    if events == [] then None
    else if events[|events| - 1].id == id then Some(|events|)
    else PlaceAfter(events[..|events| - 1], id)
  }

  /** What is replayed to a client that last saw `id`, unless that is unknown. */
  function ReplayAfter(events: seq<Event>, id: EventId): Option<seq<Event>> {
    if id == NoId then Some([])
    else match PlaceAfter(events, id)
      case None => None
      case Some(i) => Some(events[i..])
  }

  function Subscribe(h: HubState): HubState {
    h.(subscribers := h.subscribers + {h.next}, channels := h.channels[h.next := []], next := h.next + 1)
  }

  function Cancel(h: HubState, ch: nat): HubState {
    h.(subscribers := h.subscribers - {ch})
  }

  function Receive(h: HubState, ch: nat): HubState
    requires ch in h.channels && h.channels[ch] != []
  {
    h.(channels := h.channels[ch := h.channels[ch][1..]])
  }

  class Hub {
    const boot: nat
    const capacity: nat
    var sequence: nat
    var events: seq<Event>
    var subscribers: set<nat>
    var channels: map<nat, seq<Event>>
    var next: nat

    function View(): HubState
      reads this
    {
      HubState(boot, sequence, capacity, events, subscribers, channels, next)
    }

    constructor (boot: nat, capacity: int)
      ensures View() == NewHub(boot, capacity)
    {
      this.boot := boot;
      this.capacity := if capacity <= 0 then DEFAULT_BUFFER_SIZE else capacity;
      sequence, events, subscribers, channels, next := 0, [], {}, map[], 0;
    }

    method PublishEvent(payload: nat) returns (event: Event)
      requires subscribers <= channels.Keys
      modifies this
      ensures View() == Publish(old(View()), payload) && event == NextEvent(old(View()), payload)
    {
      sequence := sequence + 1;
      event := Event(Id(boot, sequence), payload);
      events := events + [event];
      if |events| > capacity {
        events := events[|events| - capacity..];
      }
      assert events == Last(old(events) + [event], capacity);
      Offer(event);
    }

    /** Offers the event to every subscriber, in any order; one without room is dropped and closed. */
    method Offer(event: Event)
      requires subscribers <= channels.Keys
      modifies this`subscribers, this`channels
      ensures subscribers == set ch | ch in old(subscribers) && HasRoom(old(View()), ch)
      ensures channels == map ch | ch in old(channels) :: QueueAfter(old(View()), ch, event)
    {
      ghost var before := View();
      var left := subscribers;
      while left != {}
        invariant left <= before.subscribers && channels.Keys == before.channels.Keys
        invariant forall ch :: ch in subscribers <==> ch in before.subscribers && (ch in left || HasRoom(before, ch))
        invariant forall ch :: ch in left ==> channels[ch] == before.channels[ch]
        invariant forall ch :: ch in channels && ch !in left ==> channels[ch] == QueueAfter(before, ch, event)
      {
        var ch :| ch in left;
        left := left - {ch};
        if |channels[ch]| < CHANNEL_CAPACITY {
          channels := channels[ch := channels[ch] + [event]];
        } else {
          subscribers := subscribers - {ch};
        }
      }
    }

    /** Searches the buffer from its end. */
    method ReplayFrom(lastEventId: EventId) returns (replay: seq<Event>, found: bool)
      ensures found <==> ReplayAfter(events, lastEventId).Some?
      ensures replay == if found then ReplayAfter(events, lastEventId).value else []
    {
      if lastEventId == NoId {
        return [], true;
      }
      var index := |events|;
      assert events[..index] == events;
      while index > 0
        invariant 0 <= index <= |events|
        invariant PlaceAfter(events[..index], lastEventId) == PlaceAfter(events, lastEventId)
      {
        assert events[..index][..index - 1] == events[..index - 1];
        if events[index - 1].id == lastEventId {
          return events[index..], true;
        }
        index := index - 1;
      }
      return [], false;
    }

    method SubscribeAfter(lastEventId: EventId) returns (channel: nat, replay: seq<Event>, needsResync: bool)
      modifies this
      ensures View() == Subscribe(old(View())) && channel == old(next)
      ensures var known := ReplayAfter(old(events), lastEventId);
        needsResync == known.None? && replay == if known.Some? then known.value else []
    {
      channel := next;
      next := next + 1;
      channels := channels[channel := []];
      subscribers := subscribers + {channel};
      var found;
      replay, found := ReplayFrom(lastEventId);
      needsResync := lastEventId != NoId && !found;
    }

    method CancelSubscription(channel: nat)
      modifies this`subscribers
      ensures View() == Cancel(old(View()), channel)
    {
      if channel in subscribers {
        subscribers := subscribers - {channel};
      }
    }
  }
}
