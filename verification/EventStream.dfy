/**
 What clients of the event stream receive, over all runs: events are published at any moment, slow
 subscribers are dropped, connections break and are resumed with the last ID received, handlers end
 late, and the server may restart under a new boot ID.
 */
module EventStream {
  import opened Options
  import opened EventHub
  import opened Sequences

  datatype Item = Delivered(event: Event) | ResyncRequired | Heartbeat

  /** One response in progress: what the handler still has to replay, and what is on its way. */
  datatype Link = Link(channel: nat, pending: seq<Item>, wire: seq<Item>, serving: bool)

  datatype Client = Client(received: seq<Item>, link: Option<Link>)

  /** `history` holds every event ever published; those from `bootStart` on belong to the current boot. */
  datatype State = State(hub: HubState, history: seq<Event>, bootStart: nat, clients: map<nat, Client>)

  function Init(boot: nat, capacity: int): State {
    State(NewHub(boot, capacity), [], 0, map[])
  }

  datatype Step =
    | PublishEvent(payload: nat)
    | Reboot(boot: nat)
    | Join(c: nat)
    | Connect(c: nat)
    | WritePending(c: nat)
    | WriteEvent(c: nat)
    | WriteHeartbeat(c: nat)
    | HandlerEnds(c: nat)
    | Arrive(c: nat)
    | Disconnect(c: nat)
    | OrphanReads(channel: nat)
    | OrphanEnds(channel: nat)

  function Items(events: seq<Event>): (r: seq<Item>)
    ensures |r| == |events|
  {
    seq(|events|, i requires 0 <= i < |events| => Delivered(events[i]))
  }

  /** The last event among the items, which is what a client resumes from. */
  function LastEvent(items: seq<Item>): Option<Event> {
    if items == [] then None
    else if items[|items| - 1].Delivered? then Some(items[|items| - 1].event)
    else LastEvent(items[..|items| - 1])
  }

  function LastEventId(items: seq<Item>): EventId {
    match LastEvent(items)
    case None => NoId
    case Some(e) => e.id
  }

  function Queue(hub: HubState, channel: nat): seq<Event> {
    if channel in hub.channels then hub.channels[channel] else []
  }

  predicate Linked(s: State, c: nat) {
    c in s.clients && s.clients[c].link.Some?
  }

  predicate Serving(s: State, c: nat) {
    Linked(s, c) && s.clients[c].link.value.serving
  }

  predicate Orphan(s: State, channel: nat) {
    channel in s.hub.channels && forall c :: c in s.clients && Serving(s, c) ==> s.clients[c].link.value.channel != channel
  }

  ghost predicate Enabled(s: State, step: Step) {
    match step
    case PublishEvent(_) => true
    case Reboot(boot) => boot != s.hub.boot && forall e :: e in s.history ==> e.id.Id? ==> e.id.boot != boot
    case Join(c) => c !in s.clients
    case Connect(c) => c in s.clients && s.clients[c].link.None?
    case WritePending(c) => Serving(s, c) && s.clients[c].link.value.pending != []
    case WriteEvent(c) => Serving(s, c) && s.clients[c].link.value.pending == [] && Queue(s.hub, s.clients[c].link.value.channel) != []
    case WriteHeartbeat(c) => Serving(s, c) && s.clients[c].link.value.pending == []
    case HandlerEnds(c) => Serving(s, c)
    case Arrive(c) => Linked(s, c) && s.clients[c].link.value.wire != []
    case Disconnect(c) => Linked(s, c)
    case OrphanReads(ch) => Orphan(s, ch) && Queue(s.hub, ch) != []
    case OrphanEnds(ch) => Orphan(s, ch)
  }

  function WithLink(s: State, c: nat, link: Link): State
    requires c in s.clients
  {
    s.(clients := s.clients[c := s.clients[c].(link := Some(link))])
  }

  function DoPublish(s: State, payload: nat): State {
    s.(hub := Publish(s.hub, payload), history := s.history + [NextEvent(s.hub, payload)])
  }

  function Unserved(client: Client): Client {
    match client.link
    case None => client
    case Some(link) => client.(link := Some(link.(serving := false)))
  }

  /** A new process under a new boot ID: the buffer and every handler are gone. */
  function DoReboot(s: State, boot: nat): State {
    State(NewHub(boot, s.hub.capacity).(next := s.hub.next), s.history, |s.history|,
          map c | c in s.clients :: Unserved(s.clients[c]))
  }

  /** Subscribes with the last ID received; what the handler has to say first becomes pending. */
  function DoConnect(s: State, c: nat): State
    requires c in s.clients
  {
    var known := ReplayAfter(s.hub.events, LastEventId(s.clients[c].received));
    var pending := if known.None? then [ResyncRequired] else Items(known.value);
    WithLink(s.(hub := Subscribe(s.hub)), c, Link(s.hub.next, pending, [], true))
  }

  function DoWritePending(s: State, c: nat): State
    requires Serving(s, c) && s.clients[c].link.value.pending != []
  {
    var link := s.clients[c].link.value;
    WithLink(s, c, link.(pending := link.pending[1..], wire := link.wire + [link.pending[0]]))
  }

  function DoWriteEvent(s: State, c: nat): State
    requires Serving(s, c) && Queue(s.hub, s.clients[c].link.value.channel) != []
  {
    var link := s.clients[c].link.value;
    var event := s.hub.channels[link.channel][0];
    WithLink(s.(hub := Receive(s.hub, link.channel)), c, link.(wire := link.wire + [Delivered(event)]))
  }

  function DoWriteHeartbeat(s: State, c: nat): State
    requires Serving(s, c)
  {
    var link := s.clients[c].link.value;
    WithLink(s, c, link.(wire := link.wire + [Heartbeat]))
  }

  function DoHandlerEnds(s: State, c: nat): State
    requires Serving(s, c)
  {
    var link := s.clients[c].link.value;
    WithLink(s.(hub := Cancel(s.hub, link.channel)), c, link.(serving := false))
  }

  function DoArrive(s: State, c: nat): State
    requires Linked(s, c) && s.clients[c].link.value.wire != []
  {
    var link := s.clients[c].link.value;
    s.(clients := s.clients[c := Client(s.clients[c].received + [link.wire[0]], Some(link.(wire := link.wire[1..])))])
  }

  ghost function Next(s: State, step: Step): State
    requires Enabled(s, step)
  {
    match step
    case PublishEvent(payload) => DoPublish(s, payload)
    case Reboot(boot) => DoReboot(s, boot)
    case Join(c) => s.(clients := s.clients[c := Client([], None)])
    case Connect(c) => DoConnect(s, c)
    case WritePending(c) => DoWritePending(s, c)
    case WriteEvent(c) => DoWriteEvent(s, c)
    case WriteHeartbeat(c) => DoWriteHeartbeat(s, c)
    case HandlerEnds(c) => DoHandlerEnds(s, c)
    case Arrive(c) => DoArrive(s, c)
    case Disconnect(c) => s.(clients := s.clients[c := s.clients[c].(link := None)])
    case OrphanReads(ch) => s.(hub := Receive(s.hub, ch))
    case OrphanEnds(ch) => s.(hub := Cancel(s.hub, ch))
  }

  ghost predicate IsRun(s: State, steps: seq<Step>, s': State)
    decreases |steps|
  {
    if steps == [] then s == s'
    else Enabled(s, steps[0]) && IsRun(Next(s, steps[0]), steps[1..], s')
  }

  // ---- continuity ----

  /** Event `b` comes right after event `a` in the history. */
  ghost predicate Follows(h: seq<Event>, a: Event, b: Event) {
    exists p, q :: 0 <= p < |h| && 0 <= q < |h| && h[p] == a && h[q] == b && q == p + 1
  }

  ghost predicate Precedes(h: seq<Event>, a: Event, b: Event) {
    exists p, q :: 0 <= p < |h| && 0 <= q < |h| && h[p] == a && h[q] == b && p < q
  }

  /** A resync notice came after the last event. */
  function Resynced(items: seq<Item>): bool {
    if items == [] then false
    else match items[|items| - 1]
      case ResyncRequired => true
      case Delivered(_) => false
      case Heartbeat => Resynced(items[..|items| - 1])
  }

  /** The event `e` may come next after `items`: no event is skipped, except right after a resync notice. */
  ghost predicate MayFollow(h: seq<Event>, items: seq<Item>, e: Event) {
    match LastEvent(items)
    case None => e in h
    case Some(last) => Follows(h, last, e) || (Resynced(items) && Precedes(h, last, e))
  }

  /** The items hold a run of the history without gap or repetition, except right after a resync notice. */
  ghost predicate Continuous(h: seq<Event>, items: seq<Item>) {
    items != [] ==>
      var n := |items| - 1;
      Continuous(h, items[..n]) && (items[n].Delivered? ==> MayFollow(h, items[..n], items[n].event))
  }

  /** Whatever is published next may follow the items. */
  ghost predicate Current(h: seq<Event>, items: seq<Item>) {
    match LastEvent(items)
    case None => true
    case Some(last) => last in h && (Resynced(items) || last == h[|h| - 1])
  }

  lemma {:induction false} LastEventIsInHistory(h: seq<Event>, items: seq<Item>)
    requires Continuous(h, items) && LastEvent(items).Some?
    ensures LastEvent(items).value in h
  {
    var n := |items| - 1;
    if !items[n].Delivered? {
      LastEventIsInHistory(h, items[..n]);
    }
  }

  lemma MayFollowLater(h: seq<Event>, items: seq<Item>, e: Event, more: Event)
    requires MayFollow(h, items, e)
    ensures MayFollow(h + [more], items, e)
  {
    var h' := h + [more];
    assert forall p :: 0 <= p < |h| ==> h'[p] == h[p];
    if LastEvent(items).Some? {
      var last := LastEvent(items).value;
      if Follows(h, last, e) {
        var p, q :| 0 <= p < |h| && 0 <= q < |h| && h[p] == last && h[q] == e && q == p + 1;
        assert h'[p] == last && h'[q] == e;
      } else {
        var p, q :| 0 <= p < |h| && 0 <= q < |h| && h[p] == last && h[q] == e && p < q;
        assert h'[p] == last && h'[q] == e;
      }
    }
  }

  lemma {:induction false} ContinuousLater(h: seq<Event>, items: seq<Item>, more: Event)
    requires Continuous(h, items)
    ensures Continuous(h + [more], items)
  {
    if items != [] {
      var n := |items| - 1;
      ContinuousLater(h, items[..n], more);
      if items[n].Delivered? {
        MayFollowLater(h, items[..n], items[n].event, more);
      }
    }
  }

  lemma {:induction false} ContinuousPrefix(h: seq<Event>, items: seq<Item>, more: seq<Item>)
    requires Continuous(h, items + more)
    ensures Continuous(h, items)
  {
    if more == [] {
      assert items + more == items;
    } else {
      var n := |more| - 1;
      assert (items + more)[..|items + more| - 1] == items + more[..n];
      ContinuousPrefix(h, items, more[..n]);
    }
  }

  /** The next published event continues a current stream. */
  lemma PublishedContinues(h: seq<Event>, items: seq<Item>, e: Event)
    requires Continuous(h, items) && Current(h, items)
    ensures Continuous(h + [e], items + [Delivered(e)]) && Current(h + [e], items + [Delivered(e)])
  {
    var h', all := h + [e], items + [Delivered(e)];
    ContinuousLater(h, items, e);
    assert all[..|all| - 1] == items;
    assert h'[|h|] == e;
    if LastEvent(items).Some? {
      var last := LastEvent(items).value;
      var p :| 0 <= p < |h| && h[p] == last;
      assert h'[p] == last;
      if !Resynced(items) {
        assert h'[|h| - 1] == last;
        assert Follows(h', last, e);
      } else {
        assert Precedes(h', last, e);
      }
    }
  }

  /** Replaying everything after the last event received continues the stream up to the present. */
  lemma {:induction false} ReplayContinues(h: seq<Event>, items: seq<Item>, p: nat, k: nat)
    requires p < k <= |h| && Continuous(h, items) && LastEvent(items) == Some(h[p])
    ensures Continuous(h, items + Items(h[p + 1..k])) && LastEvent(items + Items(h[p + 1..k])) == Some(h[k - 1])
  {
    var all := items + Items(h[p + 1..k]);
    if k == p + 1 {
      assert all == items;
    } else {
      ReplayContinues(h, items, p, k - 1);
      var before := items + Items(h[p + 1..k - 1]);
      assert all[..|all| - 1] == before && all[|all| - 1] == Delivered(h[k - 1]);
      assert h[k - 2] == LastEvent(before).value && Follows(h, h[k - 2], h[k - 1]);
    }
  }

  lemma {:induction false} HeartbeatIsSilent(h: seq<Event>, before: seq<Item>, after: seq<Item>)
    requires Continuous(h, before + after)
    ensures Continuous(h, before + [Heartbeat] + after)
    ensures LastEvent(before + [Heartbeat] + after) == LastEvent(before + after)
    ensures Resynced(before + [Heartbeat] + after) == Resynced(before + after)
    decreases |after|
  {
    var old', new' := before + after, before + [Heartbeat] + after;
    assert new'[..|new'| - 1] == if after == [] then before else before + [Heartbeat] + after[..|after| - 1];
    if after == [] {
      assert old' == before;
    } else {
      assert old'[..|old'| - 1] == before + after[..|after| - 1];
      HeartbeatIsSilent(h, before, after[..|after| - 1]);
    }
  }

  // ---- the invariant ----

  /** Every event of this boot carries its number under the boot ID; no earlier event carries that boot ID. */
  ghost predicate Numbered(s: State) {
    && s.bootStart <= |s.history| && s.hub.sequence == |s.history| - s.bootStart
    && (forall i :: s.bootStart <= i < |s.history| ==> s.history[i].id == Id(s.hub.boot, i - s.bootStart + 1))
    && (forall i :: 0 <= i < s.bootStart ==> s.history[i].id.Id? && s.history[i].id.boot != s.hub.boot)
  }

  ghost predicate HubInv(s: State) {
    && s.hub.capacity > 0 && Numbered(s)
    && s.hub.events == Last(s.history[s.bootStart..], s.hub.capacity)
    && s.hub.subscribers <= s.hub.channels.Keys
    && forall ch :: ch in s.hub.channels ==> ch < s.hub.next
  }

  /** What the client will still receive on this connection, as far as it is settled. */
  function Stream(hub: HubState, link: Link): seq<Item> {
    link.wire + (if link.serving then link.pending + Items(Queue(hub, link.channel)) else [])
  }

  ghost predicate LinkInv(h: seq<Event>, hub: HubState, received: seq<Item>, link: Link) {
    && Continuous(h, received + Stream(hub, link))
    && (link.serving ==> link.channel in hub.channels)
    && (link.serving && link.channel in hub.subscribers ==> Current(h, received + Stream(hub, link)))
  }

  ghost predicate ClientInv(h: seq<Event>, hub: HubState, client: Client) {
    && Continuous(h, client.received)
    && (client.link.Some? ==> LinkInv(h, hub, client.received, client.link.value))
  }

  ghost predicate OwnChannels(s: State) {
    forall c, d :: Serving(s, c) && Serving(s, d) && c != d ==>
                     s.clients[c].link.value.channel != s.clients[d].link.value.channel
  }

  ghost predicate Inv(s: State) {
    && HubInv(s) && OwnChannels(s)
    && forall c :: c in s.clients ==> ClientInv(s.history, s.hub, s.clients[c])
  }

  /** A client whose channel is untouched is not affected by what happens elsewhere. */
  lemma UntouchedClient(h: seq<Event>, hub: HubState, hub': HubState, client: Client)
    requires ClientInv(h, hub, client)
    requires client.link.Some? && client.link.value.serving ==>
               var ch := client.link.value.channel;
               ch in hub'.channels && Queue(hub', ch) == Queue(hub, ch) && (ch in hub'.subscribers ==> ch in hub.subscribers)
    ensures ClientInv(h, hub', client)
  {
  }

  lemma PublishReaches(h: seq<Event>, hub: HubState, payload: nat, client: Client)
    requires ClientInv(h, hub, client)
    ensures ClientInv(h + [NextEvent(hub, payload)], Publish(hub, payload), client)
  {
    var e, hub' := NextEvent(hub, payload), Publish(hub, payload);
    ContinuousLater(h, client.received, e);
    if client.link.Some? {
      var link := client.link.value;
      var items := client.received + Stream(hub, link);
      if link.serving && link.channel in hub.subscribers && HasRoom(hub, link.channel) {
        PublishedContinues(h, items, e);
        assert Items(hub'.channels[link.channel]) == Items(hub.channels[link.channel]) + [Delivered(e)];
        assert client.received + Stream(hub', link) == items + [Delivered(e)];
      } else {
        ContinuousLater(h, items, e);
        assert Stream(hub', link) == Stream(hub, link);
      }
    }
  }

  lemma PublishKeeps(s: State, payload: nat)
    requires Inv(s)
    ensures Inv(DoPublish(s, payload))
  {
    var s' := DoPublish(s, payload);
    var boot := s.history[s.bootStart..];
    assert s'.history[s.bootStart..] == boot + [NextEvent(s.hub, payload)];
    LastOfLast(boot, [NextEvent(s.hub, payload)], s.hub.capacity);
    forall c | c in s'.clients ensures ClientInv(s'.history, s'.hub, s'.clients[c]) {
      PublishReaches(s.history, s.hub, payload, s.clients[c]);
    }
  }

  lemma UnservedKeeps(h: seq<Event>, hub: HubState, hub': HubState, client: Client)
    requires ClientInv(h, hub, client)
    ensures ClientInv(h, hub', Unserved(client))
  {
    if client.link.Some? {
      var link := client.link.value;
      var unserved := link.(serving := false);
      var left := if link.serving then link.pending + Items(Queue(hub, link.channel)) else [];
      assert client.received + Stream(hub, link) == (client.received + link.wire) + left;
      ContinuousPrefix(h, client.received + link.wire, left);
      assert Stream(hub', unserved) == link.wire;
    }
  }

  lemma RebootKeeps(s: State, boot: nat)
    requires Inv(s) && Enabled(s, Reboot(boot))
    ensures Inv(DoReboot(s, boot))
  {
    var s' := DoReboot(s, boot);
    forall c | c in s'.clients ensures ClientInv(s'.history, s'.hub, s'.clients[c]) {
      UnservedKeeps(s.history, s.hub, s'.hub, s.clients[c]);
    }
    forall i | 0 <= i < s'.bootStart ensures s'.history[i].id.Id? && s'.history[i].id.boot != boot {
      assert s.history[i] in s.history;
    }
  }

  lemma BufferedEvent(s: State, i: nat)
    requires HubInv(s) && i < |s.hub.events|
    ensures var at := |s.history| - |s.hub.events| + i;
      s.bootStart <= at < |s.history| && s.hub.events[i] == s.history[at]
  {
  }

  /** Within a boot every event has its ID alone. */
  lemma IdIsUnique(s: State, p: nat, q: nat)
    requires Numbered(s) && p < |s.history| && s.bootStart <= q < |s.history| && s.history[p].id == s.history[q].id
    ensures p == q
  {
  }

  /** The place found in the buffer is that of the event itself, and it is found while it is buffered. */
  lemma FoundIsItself(s: State, p: nat)
    requires HubInv(s) && p < |s.history|
    ensures var known := ReplayAfter(s.hub.events, s.history[p].id);
      && (known.Some? <==> |s.history| - |s.hub.events| <= p)
      && (known.Some? ==> known.value == s.history[p + 1..])
  {
    var start := |s.history| - |s.hub.events|;
    var place := PlaceAfter(s.hub.events, s.history[p].id);
    if place.Some? {
      BufferedEvent(s, place.value - 1);
      IdIsUnique(s, p, start + place.value - 1);
      var replay := s.hub.events[place.value..];
      forall i | 0 <= i < |replay| ensures replay[i] == s.history[p + 1..][i] {
        BufferedEvent(s, place.value + i);
      }
    } else if start <= p {
      BufferedEvent(s, p - start);
      assert false;
    }
  }

  lemma BufferedExactlyFrom(s: State, p: nat)
    requires HubInv(s) && p < |s.history|
    ensures s.history[p] in s.hub.events <==> |s.history| - |s.hub.events| <= p
  {
    var start := |s.history| - |s.hub.events|;
    if start <= p {
      BufferedEvent(s, p - start);
    } else if i :| 0 <= i < |s.hub.events| && s.hub.events[i] == s.history[p] {
      BufferedEvent(s, i);
      IdIsUnique(s, p, start + i);
      assert false;
    }
  }

  lemma NoticeMakesCurrent(h: seq<Event>, items: seq<Item>)
    requires Continuous(h, items)
    ensures Continuous(h, items + [ResyncRequired]) && Current(h, items + [ResyncRequired])
  {
    assert (items + [ResyncRequired])[..|items|] == items;
    if LastEvent(items).Some? {
      LastEventIsInHistory(h, items);
    }
  }

  lemma ReplayMakesCurrent(h: seq<Event>, items: seq<Item>, p: nat)
    requires p < |h| && Continuous(h, items) && LastEvent(items) == Some(h[p])
    ensures Continuous(h, items + Items(h[p + 1..])) && Current(h, items + Items(h[p + 1..]))
  {
    ReplayContinues(h, items, p, |h|);
    assert h[p + 1..] == h[p + 1..|h|];
  }

  /** What the handler has to say first makes the stream current again. */
  lemma ConnectResumes(s: State, received: seq<Item>)
    requires HubInv(s) && Continuous(s.history, received)
    ensures var known := ReplayAfter(s.hub.events, LastEventId(received));
      var pending := if known.None? then [ResyncRequired] else Items(known.value);
      Continuous(s.history, received + pending) && Current(s.history, received + pending)
  {
    var known := ReplayAfter(s.hub.events, LastEventId(received));
    if LastEvent(received).None? {
      assert received + Items([]) == received;
    } else if known.None? {
      NoticeMakesCurrent(s.history, received);
    } else {
      LastEventIsInHistory(s.history, received);
      var p :| 0 <= p < |s.history| && s.history[p] == LastEvent(received).value;
      FoundIsItself(s, p);
      ReplayMakesCurrent(s.history, received, p);
    }
  }

  lemma ConnectServesClient(s: State, c: nat)
    requires HubInv(s) && c in s.clients && Continuous(s.history, s.clients[c].received)
    ensures ClientInv(s.history, Subscribe(s.hub), DoConnect(s, c).clients[c])
  {
    var link := DoConnect(s, c).clients[c].link.value;
    ConnectResumes(s, s.clients[c].received);
    assert Stream(Subscribe(s.hub), link) == link.pending;
  }

  lemma ConnectOwnsChannel(s: State, c: nat)
    requires Inv(s) && Enabled(s, Connect(c))
    ensures OwnChannels(DoConnect(s, c))
  {
    var s' := DoConnect(s, c);
    forall d | Serving(s', d) && d != c ensures Serving(s, d) && s'.clients[d].link.value.channel < s.hub.next {
      assert ClientInv(s.history, s.hub, s.clients[d]);
    }
  }

  lemma ConnectKeeps(s: State, c: nat)
    requires Inv(s) && Enabled(s, Connect(c))
    ensures Inv(DoConnect(s, c))
  {
    var s' := DoConnect(s, c);
    ConnectOwnsChannel(s, c);
    assert ClientInv(s.history, s.hub, s.clients[c]);
    ConnectServesClient(s, c);
    forall d | d in s'.clients && d != c ensures ClientInv(s'.history, s'.hub, s'.clients[d]) {
      UntouchedClient(s.history, s.hub, s'.hub, s.clients[d]);
    }
  }

  /** One client and its channel move on; the stream it will receive stays as good as it was. */
  lemma OneClientMoves(s: State, s': State, c: nat)
    requires Inv(s) && HubInv(s') && s'.history == s.history
    requires Linked(s, c) && Linked(s', c) && s'.clients == s.clients[c := s'.clients[c]]
    requires s'.clients[c].link.value.channel == s.clients[c].link.value.channel
    requires s'.clients[c].link.value.serving ==> s.clients[c].link.value.serving
    requires ClientInv(s'.history, s'.hub, s'.clients[c])
    requires s'.hub.channels.Keys == s.hub.channels.Keys && s'.hub.subscribers <= s.hub.subscribers
    requires forall ch :: ch in s.hub.channels && s'.hub.channels[ch] != s.hub.channels[ch] ==>
                            Serving(s, c) && ch == s.clients[c].link.value.channel
    ensures Inv(s')
  {
    forall d | d in s'.clients ensures ClientInv(s'.history, s'.hub, s'.clients[d]) {
      if d != c {
        assert Serving(s, d) && Serving(s, c) ==> s.clients[d].link.value.channel != s.clients[c].link.value.channel;
        UntouchedClient(s.history, s.hub, s'.hub, s.clients[d]);
      }
    }
    forall d, e | Serving(s', d) && Serving(s', e) && d != e
      ensures s'.clients[d].link.value.channel != s'.clients[e].link.value.channel
    {
      assert Serving(s, d) && Serving(s, e);
    }
  }

  lemma WritePendingKeeps(s: State, c: nat)
    requires Inv(s) && Enabled(s, WritePending(c))
    ensures Inv(DoWritePending(s, c))
  {
    var s' := DoWritePending(s, c);
    assert ClientInv(s.history, s.hub, s.clients[c]);
    assert Stream(s'.hub, s'.clients[c].link.value) == Stream(s.hub, s.clients[c].link.value);
    OneClientMoves(s, s', c);
  }

  lemma WriteEventKeeps(s: State, c: nat)
    requires Inv(s) && Enabled(s, WriteEvent(c))
    ensures Inv(DoWriteEvent(s, c))
  {
    var s' := DoWriteEvent(s, c);
    assert ClientInv(s.history, s.hub, s.clients[c]);
    assert Stream(s'.hub, s'.clients[c].link.value) == Stream(s.hub, s.clients[c].link.value);
    OneClientMoves(s, s', c);
  }

  lemma WriteHeartbeatKeeps(s: State, c: nat)
    requires Inv(s) && Enabled(s, WriteHeartbeat(c))
    ensures Inv(DoWriteHeartbeat(s, c))
  {
    var s' := DoWriteHeartbeat(s, c);
    var client, link, link' := s.clients[c], s.clients[c].link.value, s'.clients[c].link.value;
    assert ClientInv(s.history, s.hub, client);
    var sent, queued := client.received + link.wire, Items(Queue(s.hub, link.channel));
    assert client.received + Stream(s.hub, link) == sent + queued;
    assert client.received + Stream(s'.hub, link') == sent + [Heartbeat] + queued;
    HeartbeatIsSilent(s.history, sent, queued);
    OneClientMoves(s, s', c);
  }

  lemma HandlerEndsKeeps(s: State, c: nat)
    requires Inv(s) && Enabled(s, HandlerEnds(c))
    ensures Inv(DoHandlerEnds(s, c))
  {
    var s' := DoHandlerEnds(s, c);
    assert ClientInv(s.history, s.hub, s.clients[c]);
    UnservedKeeps(s.history, s.hub, s'.hub, s.clients[c]);
    OneClientMoves(s, s', c);
  }

  lemma HeadMoves<T>(done: seq<T>, s: seq<T>, rest: seq<T>)
    requires s != []
    ensures (done + [s[0]]) + (s[1..] + rest) == done + (s + rest)
  {
  }

  lemma ArrivalKeepsLink(h: seq<Event>, hub: HubState, received: seq<Item>, link: Link)
    requires LinkInv(h, hub, received, link) && link.wire != []
    ensures Continuous(h, received + [link.wire[0]])
    ensures LinkInv(h, hub, received + [link.wire[0]], link.(wire := link.wire[1..]))
  {
    var left := if link.serving then link.pending + Items(Queue(hub, link.channel)) else [];
    HeadMoves(received, link.wire, left);
    ContinuousPrefix(h, received + [link.wire[0]], link.wire[1..] + left);
  }

  lemma ArriveKeeps(s: State, c: nat)
    requires Inv(s) && Enabled(s, Arrive(c))
    ensures Inv(DoArrive(s, c))
  {
    assert ClientInv(s.history, s.hub, s.clients[c]);
    ArrivalKeepsLink(s.history, s.hub, s.clients[c].received, s.clients[c].link.value);
    OneClientMoves(s, DoArrive(s, c), c);
  }

  lemma DisconnectKeeps(s: State, c: nat)
    requires Inv(s) && Enabled(s, Disconnect(c))
    ensures Inv(Next(s, Disconnect(c)))
  {
    var s' := Next(s, Disconnect(c));
    assert ClientInv(s.history, s.hub, s.clients[c]);
    assert forall d :: Serving(s', d) ==> Serving(s, d) && d != c;
    forall d | d in s'.clients ensures ClientInv(s'.history, s'.hub, s'.clients[d]) {
      assert ClientInv(s.history, s.hub, s.clients[d]);
    }
  }

  lemma JoinKeeps(s: State, c: nat)
    requires Inv(s) && Enabled(s, Join(c))
    ensures Inv(Next(s, Join(c)))
  {
    var s' := Next(s, Join(c));
    assert forall d :: Serving(s', d) ==> Serving(s, d);
    forall d | d in s'.clients ensures ClientInv(s'.history, s'.hub, s'.clients[d]) {
      assert d != c ==> ClientInv(s.history, s.hub, s.clients[d]);
    }
  }

  lemma OrphanKeeps(s: State, ch: nat, hub': HubState)
    requires Inv(s) && Orphan(s, ch)
    requires hub' == Cancel(s.hub, ch) || (Queue(s.hub, ch) != [] && hub' == Receive(s.hub, ch))
    ensures Inv(s.(hub := hub'))
  {
    var s' := s.(hub := hub');
    assert forall d :: Serving(s', d) ==> Serving(s, d);
    forall c | c in s'.clients ensures ClientInv(s'.history, s'.hub, s'.clients[c]) {
      assert Serving(s, c) ==> s.clients[c].link.value.channel != ch;
      UntouchedClient(s.history, s.hub, hub', s.clients[c]);
    }
  }

  lemma NextKeepsInv(s: State, step: Step)
    requires Inv(s) && Enabled(s, step)
    ensures Inv(Next(s, step))
  {
    match step
    case PublishEvent(payload) => PublishKeeps(s, payload);
    case Reboot(boot) => RebootKeeps(s, boot);
    case Join(c) => JoinKeeps(s, c);
    case Connect(c) => ConnectKeeps(s, c);
    case WritePending(c) => WritePendingKeeps(s, c);
    case WriteEvent(c) => WriteEventKeeps(s, c);
    case WriteHeartbeat(c) => WriteHeartbeatKeeps(s, c);
    case HandlerEnds(c) => HandlerEndsKeeps(s, c);
    case Arrive(c) => ArriveKeeps(s, c);
    case Disconnect(c) => DisconnectKeeps(s, c);
    case OrphanReads(ch) => OrphanKeeps(s, ch, Receive(s.hub, ch));
    case OrphanEnds(ch) => OrphanKeeps(s, ch, Cancel(s.hub, ch));
  }

  lemma {:induction false} RunKeepsInv(s: State, steps: seq<Step>, s': State)
    requires Inv(s) && IsRun(s, steps, s')
    ensures Inv(s')
    decreases |steps|
  {
    if steps != [] {
      NextKeepsInv(s, steps[0]);
      RunKeepsInv(Next(s, steps[0]), steps[1..], s');
    }
  }

  // ---- the results ----

  /** What a client received is a run of the published history, with a gap only right after a resync notice. */
  lemma EventContinuity(boot: nat, capacity: int, steps: seq<Step>, s: State, c: nat)
    requires IsRun(Init(boot, capacity), steps, s) && c in s.clients
    ensures Continuous(s.history, s.clients[c].received)
  {
    RunKeepsInv(Init(boot, capacity), steps, s);
  }

  /** The buffer is always the last events of the current boot, as many as fit. */
  lemma BufferIsRecentHistory(boot: nat, capacity: int, steps: seq<Step>, s: State)
    requires IsRun(Init(boot, capacity), steps, s)
    ensures s.bootStart <= |s.history| && s.hub.events == Last(s.history[s.bootStart..], s.hub.capacity)
  {
    RunKeepsInv(Init(boot, capacity), steps, s);
  }

  /** A subscribed client that received everything on its way is up to date, or was told to resync. */
  lemma DrainedClientIsCurrent(boot: nat, capacity: int, steps: seq<Step>, s: State, c: nat)
    requires IsRun(Init(boot, capacity), steps, s) && Serving(s, c)
    requires s.clients[c].link.value.channel in s.hub.subscribers && Stream(s.hub, s.clients[c].link.value) == []
    ensures Current(s.history, s.clients[c].received)
  {
    RunKeepsInv(Init(boot, capacity), steps, s);
    var client := s.clients[c];
    assert ClientInv(s.history, s.hub, client);
    assert client.received + [] == client.received;
  }

  lemma ResyncWhenUnknown(s: State, c: nat)
    requires c in s.clients
    ensures DoConnect(s, c).clients[c].link.value.pending == [ResyncRequired]
       <==> ReplayAfter(s.hub.events, LastEventId(s.clients[c].received)).None?
  {
    var known := ReplayAfter(s.hub.events, LastEventId(s.clients[c].received));
    assert known.Some? && known.value != [] ==> Items(known.value)[0] == Delivered(known.value[0]);
  }

  /** A returning client is told to resync exactly when its last event has left the buffer. */
  lemma ResyncExactlyWhenForgotten(boot: nat, capacity: int, steps: seq<Step>, s: State, c: nat, e: Event)
    requires IsRun(Init(boot, capacity), steps, s) && Enabled(s, Connect(c)) && LastEvent(s.clients[c].received) == Some(e)
    ensures s.bootStart <= |s.history|
    ensures Next(s, Connect(c)).clients[c].link.value.pending == [ResyncRequired]
       <==> e !in Last(s.history[s.bootStart..], s.hub.capacity)
  {
    RunKeepsInv(Init(boot, capacity), steps, s);
    assert ClientInv(s.history, s.hub, s.clients[c]);
    LastEventIsInHistory(s.history, s.clients[c].received);
    var p :| 0 <= p < |s.history| && s.history[p] == e;
    FoundIsItself(s, p);
    BufferedExactlyFrom(s, p);
    ResyncWhenUnknown(s, c);
  }
}
