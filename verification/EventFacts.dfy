/**
 What the event stream does for one client at one moment, told by the published history: where a connection
 starts, who gets an event, how events are numbered and how many are kept.
 */
module EventFacts {
  import opened Options
  import opened EventHub
  import opened EventStream

  // ---- numbers and the buffer ----

  /** The number of events kept: what was asked for, or a thousand. */
  function Kept(capacity: int): nat {
    if capacity <= 0 then 1000 else capacity
  }

  lemma {:induction false} CapacityStays(s: State, steps: seq<Step>, s': State)
    requires IsRun(s, steps, s') && s.hub.capacity > 0
    ensures s'.hub.capacity == s.hub.capacity
    decreases |steps|
  {
    if steps != [] {
      StepKeepsCapacity(s, steps[0]);
      CapacityStays(Next(s, steps[0]), steps[1..], s');
    }
  }

  lemma StepKeepsCapacity(s: State, step: Step)
    requires Enabled(s, step) && s.hub.capacity > 0
    ensures Next(s, step).hub.capacity == s.hub.capacity
  {
  }

  /** The events that are kept: all of this boot, or the last ones. */
  ghost predicate KeepsLast(s: State, capacity: nat) {
    && s.bootStart <= |s.history|
    && s.hub.events == s.history[if |s.history| - s.bootStart <= capacity then s.bootStart else |s.history| - capacity..]
  }

  lemma BufferKeepsLast(s: State)
    requires HubInv(s)
    ensures KeepsLast(s, s.hub.capacity)
  {
    assert |s.history[s.bootStart..]| == |s.history| - s.bootStart;
  }

  /**
   Over every run the events of a boot carry its ID and the numbers from one on, without a gap, and no earlier
   event carries that ID. The buffer holds the last of them: all, or as many as the capacity.
   */
  lemma NumbersAndBuffer(boot: nat, capacity: int, steps: seq<Step>, s: State)
    requires IsRun(Init(boot, capacity), steps, s)
    ensures KeepsLast(s, Kept(capacity))
    ensures forall i :: s.bootStart <= i < |s.history| ==> s.history[i].id == Id(s.hub.boot, i - s.bootStart + 1)
    ensures forall i :: 0 <= i < s.bootStart ==> s.history[i].id.Id? && s.history[i].id.boot != s.hub.boot
  {
    RunKeepsInv(Init(boot, capacity), steps, s);
    CapacityStays(Init(boot, capacity), steps, s);
    BufferKeepsLast(s);
  }

  // ---- where a connection starts ----

  /** A client that has no event yet gets no replay and no notice; its channel is new, empty and subscribed. */
  lemma NewClientStartsNow(boot: nat, capacity: int, steps: seq<Step>, s: State, c: nat)
    requires IsRun(Init(boot, capacity), steps, s) && Enabled(s, Connect(c)) && LastEvent(s.clients[c].received) == None
    ensures var s' := Next(s, Connect(c));
      && Serving(s', c) && var link := s'.clients[c].link.value;
      && link.pending == [] && link.wire == []
      && link.channel !in s.hub.channels && link.channel in s'.hub.subscribers && s'.hub.channels[link.channel] == []
  {
    RunKeepsInv(Init(boot, capacity), steps, s);
  }

  /** A client whose last event is still kept gets all events after it, in order, and no notice. */
  lemma ReplayIsTheRest(boot: nat, capacity: int, steps: seq<Step>, s: State, c: nat, p: nat)
    requires IsRun(Init(boot, capacity), steps, s) && Enabled(s, Connect(c))
    requires p < |s.history| && LastEvent(s.clients[c].received) == Some(s.history[p])
    requires s.bootStart <= p && |s.history| - p <= Kept(capacity)
    ensures var pending := Next(s, Connect(c)).clients[c].link.value.pending;
      |pending| == |s.history| - p - 1 && forall i :: 0 <= i < |pending| ==> pending[i] == Delivered(s.history[p + 1 + i])
  {
    RunKeepsInv(Init(boot, capacity), steps, s);
    NumbersAndBuffer(boot, capacity, steps, s);
    FoundIsItself(s, p);
  }

  // ---- who gets an event ----

  /** Of the subscribers, those with fewer than 32 events waiting get the event and stay; the others are dropped. */
  lemma PublishReachesRoom(boot: nat, capacity: int, steps: seq<Step>, s: State, payload: nat, ch: nat)
    requires IsRun(Init(boot, capacity), steps, s) && ch in s.hub.channels
    ensures s.bootStart <= |s.history|
    ensures var s', waiting := Next(s, PublishEvent(payload)), s.hub.channels[ch];
      && s'.history == s.history + [Event(Id(s.hub.boot, |s.history| - s.bootStart + 1), payload)]
      && s'.clients == s.clients
      && ch in s'.hub.channels
      && (ch in s'.hub.subscribers <==> ch in s.hub.subscribers && |waiting| < 32)
      && s'.hub.channels[ch] == if ch in s.hub.subscribers && |waiting| < 32 then waiting + [s'.history[|s.history|]] else waiting
  {
    RunKeepsInv(Init(boot, capacity), steps, s);
  }

  /** A handler that ends gives up its own subscription and no other; what was queued stays queued. */
  lemma EndGivesUpOne(s: State, c: nat)
    requires Enabled(s, HandlerEnds(c))
    ensures var s', ch := Next(s, HandlerEnds(c)), s.clients[c].link.value.channel;
      && s'.hub.subscribers == s.hub.subscribers - {ch} && s'.hub.channels == s.hub.channels && s'.history == s.history
      && s'.clients.Keys == s.clients.Keys && (forall d :: d in s.clients && d != c ==> s'.clients[d] == s.clients[d])
      && !Serving(s', c) && s'.clients[c].received == s.clients[c].received
  {
  }

  /** A message that is written leaves its channel or what is pending, and goes to the end of the wire. */
  lemma WritingMovesOne(s: State, c: nat)
    requires Serving(s, c)
    ensures var link := s.clients[c].link.value;
      && (Enabled(s, WritePending(c)) ==>
            var link' := Next(s, WritePending(c)).clients[c].link.value;
            link'.wire == link.wire + [link.pending[0]] && link'.pending == link.pending[1..]
            && Next(s, WritePending(c)).hub == s.hub)
      && (Enabled(s, WriteEvent(c)) ==>
            var s' := Next(s, WriteEvent(c));
            && s'.clients[c].link.value.wire == link.wire + [Delivered(s.hub.channels[link.channel][0])]
            && s'.hub.channels[link.channel] == s.hub.channels[link.channel][1..]
            && s'.hub.subscribers == s.hub.subscribers)
  {
  }
}
