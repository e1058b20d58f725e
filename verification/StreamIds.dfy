/** The tunnel as a two-party protocol about stream IDs: allocation and the order of
    `NewStream` frames at the client, `createStream` and `getStream` at the server, and the
    routing of every other frame to its stream.

    A client sends for a stream from the goroutines that have its handle, and from the watcher of
    its context, which `newStream` hands out and starts as its last acts; its receive loop never
    sends. Until then the stream is in the client's map without anyone to send for it. The
    server sends for a stream only once it has seen its `NewStream`. */
module StreamIds {
  import opened Negotiation

  const MAX_ID := 0x7FFF_FFFF_FFFF_FFFF
  const MIN_ID := -0x8000_0000_0000_0000

  type int64 = n: int | -0x8000_0000_0000_0000 <= n <= 0x7FFF_FFFF_FFFF_FFFF

  /** `lastStreamID++` on an `int64`. */
  function Increment(n: int64): int64 { if n == MAX_ID then MIN_ID else n + 1 }

  /** What a frame says to its stream; only its identity matters here. */
  type Body = nat

  datatype ToServer = New(id: int64) | Other(id: int64, b: Body)

  // ---------------------------------------------------------------- client

  datatype Client = Client(last: int64, created: bool, streams: map<int64, seq<Body>>, finished: bool)

  datatype Allocation = Allocated(id: int64) | ChannelClosed | Exhausted | IdUnavailable | CredentialsRefused

  /** `allocateStream`; `credsOk` is whether the call options are acceptable. Note that the ID
      is used up even when they are not. */
  function Allocate(c: Client, credsOk: bool): (Client, Allocation) {
    if c.finished then (c, ChannelClosed)
    else if c.last < 0 then (c, Exhausted)
    else
      var id := Increment(c.last);
      var c' := c.(last := id, created := true);
      if id in c.streams then (c', IdUnavailable)
      else if !credsOk then (c', CredentialsRefused)
      else (c'.(streams := c.streams[id := []]), Allocated(id))
  }

  datatype Lookup = Found | Ignored | ProtocolError

  function ClientLookup(c: Client, id: int64): Lookup {
    if id in c.streams then Found
    else if c.created && id <= c.last then Ignored
    else ProtocolError
  }

  /** `getStream` and then the stream's own handling of the frame. */
  function ClientFrame(c: Client, id: int64, b: Body): Client {
    if id in c.streams then c.(streams := c.streams[id := c.streams[id] + [b]]) else c
  }

  class TunnelChannel {
    var streams: map<int64, seq<Body>>
    var lastStreamID: int64
    var streamCreated: bool
    var finished: bool

    function State(): Client
      reads this
    {
      Client(lastStreamID, streamCreated, streams, finished)
    }

    constructor ()
      ensures State() == Client(0, false, map[], false)
    {
      streams, lastStreamID, streamCreated, finished := map[], 0, false, false;
    }

    method AllocateStream(credsOk: bool) returns (r: Allocation)
      modifies this
      ensures (State(), r) == Allocate(old(State()), credsOk)
      ensures finished == old(finished) && (r.ChannelClosed? <==> finished)
      ensures r.Exhausted? <==> !finished && old(lastStreamID) < 0
      ensures if finished || old(lastStreamID) < 0 then lastStreamID == old(lastStreamID) && streamCreated == old(streamCreated)
              else lastStreamID == (if old(lastStreamID) == MAX_ID then MIN_ID else old(lastStreamID) + 1) && streamCreated
      ensures r.IdUnavailable? ==> lastStreamID in streams
      ensures r.CredentialsRefused? ==> !credsOk
      ensures r.Allocated? ==> credsOk && r.id == lastStreamID && r.id !in old(streams) && streams == old(streams)[r.id := []]
      ensures !r.Allocated? ==> streams == old(streams)
    {
      if finished {
        return ChannelClosed;
      }
      if lastStreamID < 0 {
        return Exhausted;
      }
      streamCreated := true;
      lastStreamID := Increment(lastStreamID);
      var streamID := lastStreamID;
      if streamID in streams {
        return IdUnavailable;
      }
      if !credsOk {
        return CredentialsRefused;
      }
      streams := streams[streamID := []];
      return Allocated(streamID);
    }

    method RemoveStream(id: int64)
      modifies this
      ensures State() == old(State()).(streams := old(streams) - {id})
    {
      streams := streams - {id};
    }

    /** False if the channel was closed before. */
    method Close() returns (first: bool)
      modifies this
      ensures first == !old(finished)
      ensures State() == if first then old(State()).(finished := true, streams := map[]) else old(State())
    {
      if finished {
        return false;
      }
      finished := true;
      streams := map[];
      return true;
    }

    method GetStream(id: int64) returns (r: Lookup)
      ensures r == ClientLookup(State(), id)
      ensures r.Found? <==> id in streams
      ensures r.Ignored? <==> id !in streams && streamCreated && id <= lastStreamID
    {
      if id !in streams {
        if streamCreated && id <= lastStreamID {
          return Ignored;
        }
        return ProtocolError;
      }
      return Found;
    }

    /** A frame is handed to the stream that `GetStream` has found. */
    method AcceptFrame(id: int64, b: Body)
      requires id in streams
      modifies this`streams
      ensures State() == ClientFrame(old(State()), id, b)
      ensures streams == old(streams)[id := old(streams)[id] + [b]]
    {
      streams := streams[id := streams[id] + [b]];
    }
  }

  // ---------------------------------------------------------------- server

  datatype Server = Server(lastSeen: int64, streams: map<int64, seq<Body>>)

  datatype Creation = Opened | Rejected(reason: Rejection) | CreateError

  /** `createStream`: a stream may be turned away alone, but its ID counts as seen. */
  function Create(s: Server, id: int64, v: Verdict): (Server, Creation) {
    if id in s.streams || id <= s.lastSeen then (s, CreateError)
    else
      var s' := s.(lastSeen := id);
      match v
      case Reject(reason) => (s', Rejected(reason))
      case Admit => (s'.(streams := s.streams[id := []]), Opened)
  }

  function ServerLookup(s: Server, id: int64): Lookup {
    if id in s.streams then Found
    else if id <= s.lastSeen then Ignored
    else ProtocolError
  }

  /** `getStream` and then the stream's own handling of the frame. */
  function ServerFrame(s: Server, id: int64, b: Body): Server {
    if id in s.streams then s.(streams := s.streams[id := s.streams[id] + [b]]) else s
  }

  /** One pass of the loop in `serve`; false is a protocol error. */
  function Receive(s: Server, f: ToServer, v: Verdict): (Server, bool) {
    match f
    case New(id) => (Create(s, id, v).0, !Create(s, id, v).1.CreateError?)
    case Other(id, b) => (ServerFrame(s, id, b), !ServerLookup(s, id).ProtocolError?)
  }

  class TunnelServer {
    var streams: map<int64, seq<Body>>
    var lastSeen: int64

    function State(): Server
      reads this
    {
      Server(lastSeen, streams)
    }

    constructor ()
      ensures State() == Server(-1, map[])
    {
      streams, lastSeen := map[], -1;
    }

    method CreateStream(closing: bool, id: int64, frame: NewStream) returns (r: Creation)
      modifies this
      ensures (State(), r) == Create(old(State()), id, Judge(closing, frame))
      ensures r.CreateError? <==> id in old(streams) || id <= old(lastSeen)
      ensures lastSeen == if r.CreateError? then old(lastSeen) else id
      ensures !r.CreateError? ==> (if Judge(closing, frame).Admit? then r.Opened? else r == Rejected(Judge(closing, frame).reason))
      ensures streams == if r.Opened? then old(streams)[id := []] else old(streams)
    {
      if id in streams {
        return CreateError;
      }
      if id <= lastSeen {
        return CreateError;
      }
      lastSeen := id;
      if closing {
        return Rejected(ShuttingDown);
      }
      if frame.revision == REVISION_ZERO {
        return Rejected(Revision(frame.revision));
      }
      if frame.revision !in SUPPORTED_REVISIONS {
        return Rejected(Revision(frame.revision));
      }
      if frame.window < MinWindowSize(frame.revision) {
        return Rejected(InvalidWindow);
      }
      if frame.methodName == Malformed {
        return Rejected(MalformedMethod);
      }
      if frame.methodName == Unknown {
        return Rejected(Unimplemented);
      }
      streams := streams[id := []];
      return Opened;
    }

    method GetStream(id: int64) returns (r: Lookup)
      ensures r == ServerLookup(State(), id)
      ensures r.Found? <==> id in streams
      ensures r.Ignored? <==> id !in streams && id <= lastSeen
    {
      if id !in streams {
        if id <= lastSeen {
          return Ignored;
        }
        return ProtocolError;
      }
      return Found;
    }

    /** A frame is handed to the stream that `GetStream` has found. */
    method AcceptFrame(id: int64, b: Body)
      requires id in streams
      modifies this`streams
      ensures State() == ServerFrame(old(State()), id, b)
      ensures streams == old(streams)[id := old(streams)[id] + [b]]
    {
      streams := streams[id := streams[id] + [b]];
    }

    /** `removeStream`, called by other goroutines for each of these streams. */
    method RemoveStreams(ids: set<int64>)
      modifies this`streams
      ensures State() == old(State()).(streams := old(streams) - ids)
    {
      streams := streams - ids;
    }
  }

  // ---------------------------------------------------------------- the pair

  datatype ToClient = SettingsFrame | Reply(id: int64, b: Body)

  /** What has happened to the server's streams, and to the client's. */
  datatype ServerEvent = Arrived(f: ToServer, v: Verdict) | Dropped(ids: set<int64>)

  datatype ClientEvent = Took(id: int64) | Lost(id: int64) | LostAll

  /** The streams a server must have: those admitted, and not dropped since. */
  function LiveAfter(live: set<int64>, e: ServerEvent): set<int64> {
    match e
    case Arrived(f, v) => if f.New? && v.Admit? then live + {f.id} else live
    case Dropped(ids) => live - ids
  }

  function ServerLive(events: seq<ServerEvent>): set<int64> {
    if events == [] then {} else LiveAfter(ServerLive(events[..|events| - 1]), events[|events| - 1])
  }

  /** The frames that have arrived. */
  function FramesHeard(events: seq<ServerEvent>): seq<ToServer> {
    if events == [] then []
    else FramesHeard(events[..|events| - 1]) + if events[|events| - 1].Arrived? then [events[|events| - 1].f] else []
  }

  /** The streams a client must have: those allocated, and not lost since. */
  function KeptAfter(live: set<int64>, e: ClientEvent): set<int64> {
    match e
    case Took(id) => live + {id}
    case Lost(id) => live - {id}
    case LostAll => {}
  }

  function ClientLive(events: seq<ClientEvent>): set<int64> {
    if events == [] then {} else KeptAfter(ClientLive(events[..|events| - 1]), events[|events| - 1])
  }

  /** `heard` and `kept` are the histories of the two ends. `sent` and `replied` are everything ever
      put on the two wires; the first `arrived`,
      respectively `got`, have been received. `newStream` holds the creation lock while its stream
      is allocated but not announced (`holding`), and announced but not handed out (`returning`).
      `live` are the streams whose handle has been returned and whose watcher runs. */
  datatype System = System(
    client: Client, holding: set<int64>, returning: set<int64>, live: set<int64>,
    ready: bool, server: Server, settingsSent: bool,
    sent: seq<ToServer>, arrived: nat, replied: seq<ToClient>, got: nat,
    heard: seq<ServerEvent>, kept: seq<ClientEvent>,
    clientAborted: bool, serverAborted: bool)

  function Initial(): System {
    System(Client(0, false, map[], false), {}, {}, {}, false, Server(-1, map[]), false, [], 0, [], 0, [], [], false, false)
  }

  datatype Step =
    | AllocateStep(credsOk: bool) | Announce(id: int64) | HandOver(id: int64)
    | ClientSend(id: int64, b: Body) | ClientRemove(id: int64) | CloseChannel
    | SendSettings | ServerSend(id: int64, b: Body) | ServerRemove(id: int64)
    | ServerReceive(v: Verdict) | ClientReceive

  predicate Enabled(s: System, step: Step) {
    match step
    case AllocateStep(_) => s.ready && s.holding == {} && s.returning == {}
    case Announce(id) => id in s.holding
    case HandOver(id) => id in s.returning
    case ClientSend(id, _) => id in s.live
    case ClientRemove(_) => true
    case CloseChannel => true
    case SendSettings => !s.settingsSent
    case ServerSend(id, _) => s.arrived <= |s.sent| && New(id) in s.sent[..s.arrived]
    case ServerRemove(_) => true
    case ServerReceive(_) => s.arrived < |s.sent| && !s.serverAborted
    case ClientReceive => s.got < |s.replied| && !s.clientAborted
  }

  function Do(s: System, step: Step): System
    requires Enabled(s, step)
  {
    match step
    case AllocateStep(credsOk) =>
      var (c, r) := Allocate(s.client, credsOk);
      s.(client := c, holding := if r.Allocated? then {r.id} else {}, kept := if r.Allocated? then s.kept + [Took(r.id)] else s.kept)
    case Announce(id) => s.(sent := s.sent + [New(id)], holding := {}, returning := {id})
    case HandOver(id) => s.(returning := {}, live := s.live + {id})
    case ClientSend(id, b) => s.(sent := s.sent + [Other(id, b)])
    case ClientRemove(id) => s.(client := s.client.(streams := s.client.streams - {id}), kept := s.kept + [Lost(id)])
    case CloseChannel => s.(client := s.client.(finished := true, streams := map[]), kept := s.kept + [LostAll])
    case SendSettings => s.(settingsSent := true, replied := s.replied + [SettingsFrame])
    case ServerSend(id, b) => s.(replied := s.replied + [Reply(id, b)])
    case ServerRemove(id) => s.(server := s.server.(streams := s.server.streams - {id}), heard := s.heard + [Dropped({id})])
    case ServerReceive(v) =>
      var (srv, ok) := Receive(s.server, s.sent[s.arrived], v);
      s.(arrived := s.arrived + 1, server := srv, heard := s.heard + [Arrived(s.sent[s.arrived], v)], serverAborted := !ok)
    case ClientReceive =>
      var s' := s.(got := s.got + 1);
      (match s.replied[s.got]
       case SettingsFrame =>
         if s.ready then s'.(clientAborted := ClientLookup(s.client, -1).ProtocolError?) else s'.(ready := true)
       case Reply(id, b) =>
         if s.ready then s'.(client := ClientFrame(s.client, id, b), clientAborted := ClientLookup(s.client, id).ProtocolError?)
         else s'.(clientAborted := true))
  }

  ghost predicate Reaches(s: System, steps: seq<Step>, t: System)
    decreases steps
  {
    if steps == [] then s == t else Enabled(s, steps[0]) && Reaches(Do(s, steps[0]), steps[1..], t)
  }

  // ---------------------------------------------------------------- invariants

  /** New streams are announced in strictly increasing order of ID, and a frame for a stream
      only after the stream has been announced. */
  ghost predicate Ordered(sent: seq<ToServer>) {
    && (forall i :: 0 <= i < |sent| && sent[i].New? ==> sent[i].id >= 1)
    && (forall i, j :: 0 <= i < j < |sent| && sent[i].New? && sent[j].New? ==> sent[i].id < sent[j].id)
    && (forall j :: 0 <= j < |sent| && sent[j].Other? ==> New(sent[j].id) in sent[..j])
  }

  /** The frames for one stream among those received, in order. */
  function BodiesOf(sent: seq<ToServer>, id: int64): seq<Body> {
    if sent == [] then []
    else
      BodiesOf(sent[..|sent| - 1], id) +
      if sent[|sent| - 1].Other? && sent[|sent| - 1].id == id then [sent[|sent| - 1].b] else []
  }

  /** The replies for one stream among those received, in order. */
  function RepliesOf(replied: seq<ToClient>, id: int64): seq<Body> {
    if replied == [] then []
    else
      RepliesOf(replied[..|replied| - 1], id) +
      if replied[|replied| - 1].Reply? && replied[|replied| - 1].id == id then [replied[|replied| - 1].b] else []
  }

  ghost predicate ClientInv(s: System) {
    && 0 <= s.client.last
    && (s.client.last > 0 ==> s.client.created)
    && (forall id :: id in s.client.streams ==> 1 <= id <= s.client.last)
    && s.client.streams.Keys == ClientLive(s.kept)
    && (forall id :: id in s.holding ==> 1 <= id == s.client.last && New(id) !in s.sent)
    && (forall id :: id in s.returning || id in s.live ==> New(id) in s.sent)
    && (forall i :: 0 <= i < |s.sent| && s.sent[i].New? ==> s.sent[i].id <= s.client.last)
    && Ordered(s.sent)
  }

  /** `lastSeen` is the largest ID announced in what has been received. */
  ghost predicate SeenInv(lastSeen: int64, received: seq<ToServer>) {
    && (lastSeen == -1 || New(lastSeen) in received)
    && (forall i :: 0 <= i < |received| && received[i].New? ==> received[i].id <= lastSeen)
  }

  /** Every live stream was announced, and has been handed exactly its own frames. */
  ghost predicate StreamsInv(streams: map<int64, seq<Body>>, received: seq<ToServer>) {
    forall id :: id in streams ==> New(id) in received && streams[id] == BodiesOf(received, id)
  }

  ghost predicate ServerInv(s: System) {
    && s.arrived <= |s.sent|
    && SeenInv(s.server.lastSeen, s.sent[..s.arrived])
    && StreamsInv(s.server.streams, s.sent[..s.arrived])
    && s.server.streams.Keys == ServerLive(s.heard) && FramesHeard(s.heard) == s.sent[..s.arrived]
  }

  ghost predicate ReplyInv(s: System) {
    && s.got <= |s.replied|
    && (forall k :: 0 <= k < |s.replied| && s.replied[k].Reply? ==> New(s.replied[k].id) in s.sent)
    && (!s.ready ==> s.sent == [] && s.holding == {} && s.got == 0 && s.client.last == 0 && s.client.streams == map[])
    && (!s.ready ==> s.replied == if s.settingsSent then [SettingsFrame] else [])
    && (s.ready ==> s.settingsSent && forall k :: s.got <= k < |s.replied| ==> s.replied[k].Reply?)
  }

  /** Every live stream of the client has been handed exactly its own replies. */
  ghost predicate HandedInv(streams: map<int64, seq<Body>>, received: seq<ToClient>) {
    forall id :: id in streams ==> streams[id] == RepliesOf(received, id)
  }

  ghost predicate Inv(s: System) {
    && ClientInv(s) && ServerInv(s) && ReplyInv(s) && HandedInv(s.client.streams, s.replied[..s.got])
    && !s.clientAborted && !s.serverAborted
  }

  // ---------------------------------------------------------------- preservation

  lemma AnnounceOrdered(sent: seq<ToServer>, id: int64)
    requires Ordered(sent) && id >= 1
    requires forall i :: 0 <= i < |sent| && sent[i].New? ==> sent[i].id < id
    ensures Ordered(sent + [New(id)])
  {
    var sent' := sent + [New(id)];
    forall j | 0 <= j < |sent'| && sent'[j].Other? ensures New(sent'[j].id) in sent'[..j] {
      assert sent'[..j] == sent[..j];
    }
  }

  lemma SendOrdered(sent: seq<ToServer>, id: int64, b: Body)
    requires Ordered(sent) && New(id) in sent
    ensures Ordered(sent + [Other(id, b)])
  {
    var sent' := sent + [Other(id, b)];
    forall j | 0 <= j < |sent'| && sent'[j].Other? ensures New(sent'[j].id) in sent'[..j] {
      assert sent'[..j] == sent[..j];
    }
  }

  lemma {:induction false} BodiesAreSent(sent: seq<ToServer>, id: int64)
    ensures BodiesOf(sent, id) != [] ==> exists j :: 0 <= j < |sent| && sent[j].Other? && sent[j].id == id
  {
    if sent != [] {
      var n := |sent| - 1;
      BodiesAreSent(sent[..n], id);
      if BodiesOf(sent[..n], id) != [] {
        var j :| 0 <= j < n && sent[..n][j].Other? && sent[..n][j].id == id;
        assert sent[j].Other?;
      } else if BodiesOf(sent, id) != [] {
        assert sent[n].Other?;
      }
    }
  }

  lemma BodiesSnoc(received: seq<ToServer>, f: ToServer, id: int64)
    ensures BodiesOf(received + [f], id) == BodiesOf(received, id) + if f.Other? && f.id == id then [f.b] else []
  {
    assert (received + [f])[..|received|] == received;
  }

  lemma LiveSnoc(events: seq<ServerEvent>, e: ServerEvent)
    ensures ServerLive(events + [e]) == LiveAfter(ServerLive(events), e)
    ensures FramesHeard(events + [e]) == FramesHeard(events) + if e.Arrived? then [e.f] else []
  {
    assert (events + [e])[..|events|] == events;
  }

  lemma KeptSnoc(events: seq<ClientEvent>, e: ClientEvent)
    ensures ClientLive(events + [e]) == KeptAfter(ClientLive(events), e)
  {
    assert (events + [e])[..|events|] == events;
  }

  lemma StreamsAfterNew(streams: map<int64, seq<Body>>, received: seq<ToServer>, id: int64)
    requires StreamsInv(streams, received) && BodiesOf(received, id) == []
    ensures StreamsInv(streams, received + [New(id)]) && StreamsInv(streams[id := []], received + [New(id)])
  {
    forall k ensures BodiesOf(received + [New(id)], k) == BodiesOf(received, k) {
      BodiesSnoc(received, New(id), k);
    }
  }

  lemma SeenAfterNew(lastSeen: int64, received: seq<ToServer>, id: int64)
    requires SeenInv(lastSeen, received) && id > lastSeen
    ensures SeenInv(id, received + [New(id)])
  {
  }

  lemma SeenAfterOther(lastSeen: int64, received: seq<ToServer>, id: int64, b: Body)
    requires SeenInv(lastSeen, received)
    ensures SeenInv(lastSeen, received + [Other(id, b)])
  {
  }

  lemma StreamsAfterOther(s: Server, received: seq<ToServer>, id: int64, b: Body)
    requires StreamsInv(s.streams, received)
    ensures StreamsInv(ServerFrame(s, id, b).streams, received + [Other(id, b)])
  {
    forall k ensures BodiesOf(received + [Other(id, b)], k) == BodiesOf(received, k) + if k == id then [b] else [] {
      BodiesSnoc(received, Other(id, b), k);
    }
  }

  /** Nothing received by the server is changed by sending more. */
  lemma SentGrows(s: System, t: System, f: ToServer)
    requires ServerInv(s) && t.server == s.server && t.arrived == s.arrived && t.sent == s.sent + [f] && t.heard == s.heard
    ensures ServerInv(t)
  {
    assert t.sent[..t.arrived] == s.sent[..s.arrived];
  }

  lemma AnnounceInv(s: System, id: int64)
    requires Inv(s) && Enabled(s, Announce(id))
    ensures Inv(Do(s, Announce(id)))
  {
    forall i | 0 <= i < |s.sent| && s.sent[i].New? ensures s.sent[i].id < id {
      assert s.sent[i] in s.sent;
    }
    AnnounceOrdered(s.sent, id);
    SentGrows(s, Do(s, Announce(id)), New(id));
  }

  lemma ClientSendInv(s: System, id: int64, b: Body)
    requires Inv(s) && Enabled(s, ClientSend(id, b))
    ensures Inv(Do(s, ClientSend(id, b)))
  {
    hide Ordered, ServerInv, HandedInv, ClientLive;
    SendOrdered(s.sent, id, b);
    SentGrows(s, Do(s, ClientSend(id, b)), Other(id, b));
  }

  lemma {:induction false} NoRepliesYet(received: seq<ToClient>, id: int64)
    requires forall k :: 0 <= k < |received| && received[k].Reply? ==> received[k].id != id
    ensures RepliesOf(received, id) == []
  {
    if received != [] {
      NoRepliesYet(received[..|received| - 1], id);
    }
  }

  /** Nothing has ever been replied for an ID that is new to the client. */
  lemma AllocateHanded(s: System, credsOk: bool)
    requires Inv(s) && Enabled(s, AllocateStep(credsOk)) && 0 <= Do(s, AllocateStep(credsOk)).client.last
    ensures HandedInv(Do(s, AllocateStep(credsOk)).client.streams, s.replied[..s.got])
  {
    hide RepliesOf, Ordered, ServerInv;
    var id := Increment(s.client.last);
    if !s.client.finished {
      forall k | 0 <= k < s.got && s.replied[k].Reply? ensures s.replied[k].id != id {
        var i :| 0 <= i < |s.sent| && s.sent[i] == New(s.replied[k].id);
        assert s.sent[i].id <= s.client.last < id;
      }
      NoRepliesYet(s.replied[..s.got], id);
    }
  }

  predicate ClientOnly(step: Step) { step.AllocateStep? || step.ClientRemove? || step.CloseChannel? || step.HandOver? }

  /** What a step that touches only the client leaves alone. */
  lemma ClientOnlyFrame(s: System, step: Step)
    requires Inv(s) && Enabled(s, step) && ClientOnly(step)
    ensures var t := Do(s, step);
            && t.sent == s.sent && t.server == s.server && t.replied == s.replied && t.arrived == s.arrived && t.got == s.got
            && ServerInv(t) && ReplyInv(t) && t.clientAborted == s.clientAborted && t.serverAborted == s.serverAborted
  {
    hide BodiesOf, RepliesOf, Ordered, HandedInv, SeenInv, StreamsInv;
  }

  lemma ClientOnlyKept(s: System, step: Step)
    requires Inv(s) && Enabled(s, step) && ClientOnly(step)
    ensures Do(s, step).client.streams.Keys == ClientLive(Do(s, step).kept)
  {
    hide BodiesOf, RepliesOf, Ordered, HandedInv, ServerInv, ReplyInv, ClientLive;
    forall e {
      KeptSnoc(s.kept, e);
    }
  }

  lemma AllocateIds(s: System, credsOk: bool)
    requires Inv(s) && Enabled(s, AllocateStep(credsOk)) && 0 <= Do(s, AllocateStep(credsOk)).client.last
    ensures ClientInv(Do(s, AllocateStep(credsOk)))
  {
    ClientOnlyKept(s, AllocateStep(credsOk));
    hide BodiesOf, RepliesOf, Ordered, HandedInv, ServerInv, ReplyInv, ClientLive;
    assert forall i :: 0 <= i < |s.sent| ==> s.sent[i] in s.sent;
  }

  /** A step that leaves the wires and the IDs alone, and takes no stream in. */
  lemma FewerStreams(s: System, t: System)
    requires ClientInv(s) && t.client.streams.Keys == ClientLive(t.kept) <= s.client.streams.Keys
    requires t.client.last == s.client.last && t.client.created == s.client.created && t.sent == s.sent
    requires t.holding == s.holding && t.returning <= s.returning && t.live <= s.live + s.returning
    ensures ClientInv(t)
  {
    hide Ordered, ClientLive;
    assert forall id :: id in t.client.streams ==> id in s.client.streams.Keys;
  }

  lemma ClientOnlyIds(s: System, step: Step)
    requires Inv(s) && Enabled(s, step) && ClientOnly(step) && 0 <= Do(s, step).client.last
    ensures ClientInv(Do(s, step))
  {
    hide ClientInv, ServerInv, ReplyInv, HandedInv, ClientLive, Allocate;
    if step.AllocateStep? {
      AllocateIds(s, step.credsOk);
    } else {
      ClientOnlyKept(s, step);
      assert Do(s, step).client.streams.Keys <= s.client.streams.Keys;
      FewerStreams(s, Do(s, step));
    }
  }

  lemma ClientOnlyHanded(s: System, step: Step)
    requires Inv(s) && Enabled(s, step) && ClientOnly(step) && 0 <= Do(s, step).client.last
    ensures HandedInv(Do(s, step).client.streams, s.replied[..s.got])
  {
    if step.AllocateStep? {
      AllocateHanded(s, step.credsOk);
    } else {
      hide RepliesOf, Ordered, ServerInv;
    }
  }

  lemma ClientOnlyInv(s: System, step: Step)
    requires Inv(s) && Enabled(s, step) && ClientOnly(step) && 0 <= Do(s, step).client.last
    ensures Inv(Do(s, step))
  {
    ClientOnlyFrame(s, step);
    ClientOnlyIds(s, step);
    ClientOnlyHanded(s, step);
    hide Do, Enabled, ClientInv, ServerInv, ReplyInv, HandedInv;
  }

  /** What the server can accept: a new ID above all before it, and a frame for an ID that is at
      most one of those, or negative. */
  ghost predicate AcceptableAt(frames: seq<ToServer>, n: nat)
    requires n < |frames|
  {
    match frames[n]
    case New(id) => id >= 0 && forall i :: 0 <= i < n && frames[i].New? ==> frames[i].id < id
    case Other(id, _) => id < 0 || exists i :: 0 <= i < n && frames[i].New? && frames[i].id >= id
  }

  ghost predicate AcceptableUpTo(frames: seq<ToServer>, n: nat)
    requires n <= |frames|
  {
    forall j :: 0 <= j < n ==> AcceptableAt(frames, j)
  }

  lemma OrderedIsAcceptable(frames: seq<ToServer>)
    requires Ordered(frames)
    ensures AcceptableUpTo(frames, |frames|)
  {
    forall j | 0 <= j < |frames| ensures AcceptableAt(frames, j) {
      if frames[j].Other? {
        var i :| 0 <= i < j && frames[..j][i] == New(frames[j].id);
        assert frames[i].New? && frames[i].id >= frames[j].id;
      }
    }
  }

  lemma NoBodyBeforeNew(frames: seq<ToServer>, n: nat, id: int64)
    requires n < |frames| && AcceptableUpTo(frames, n + 1) && frames[n] == New(id)
    ensures BodiesOf(frames[..n], id) == []
  {
    BodiesAreSent(frames[..n], id);
    assert AcceptableAt(frames, n);
    forall j | 0 <= j < n && frames[..n][j].Other? ensures frames[..n][j].id != id {
      assert AcceptableAt(frames, j);
    }
  }

  lemma SeenBound(frames: seq<ToServer>, n: nat, lastSeen: int64)
    requires n <= |frames| && AcceptableUpTo(frames, n) && SeenInv(lastSeen, frames[..n])
    ensures lastSeen >= -1
    ensures forall i :: 0 <= i < n && frames[i].New? ==> frames[i].id <= lastSeen
    ensures lastSeen >= 0 ==> exists i :: 0 <= i < n && frames[i] == New(lastSeen)
  {
    assert forall i :: 0 <= i < n ==> frames[i] == frames[..n][i];
    if lastSeen != -1 {
      var i :| 0 <= i < n && frames[..n][i] == New(lastSeen);
      assert AcceptableAt(frames, i);
    }
  }

  /** The server takes the next frame exactly if it is acceptable. */
  lemma ReceiveExact(frames: seq<ToServer>, n: nat, s: Server, v: Verdict)
    requires n < |frames| && AcceptableUpTo(frames, n)
    requires SeenInv(s.lastSeen, frames[..n]) && StreamsInv(s.streams, frames[..n])
    ensures Receive(s, frames[n], v).1 <==> AcceptableAt(frames, n)
  {
    hide BodiesOf;
    SeenBound(frames, n, s.lastSeen);
    assert forall id :: id in s.streams ==> id <= s.lastSeen;
  }

  lemma ReceiveKeeps(frames: seq<ToServer>, n: nat, s: Server, v: Verdict)
    requires n < |frames| && AcceptableUpTo(frames, n + 1)
    requires SeenInv(s.lastSeen, frames[..n]) && StreamsInv(s.streams, frames[..n])
    ensures var t := Receive(s, frames[n], v).0;
            && SeenInv(t.lastSeen, frames[..n + 1]) && StreamsInv(t.streams, frames[..n + 1])
            && t.streams.Keys == LiveAfter(s.streams.Keys, Arrived(frames[n], v))
  {
    hide AcceptableAt, StreamsInv, SeenInv, BodiesOf;
    assert AcceptableAt(frames, n);
    ReceiveExact(frames, n, s, v);
    assert frames[..n + 1] == frames[..n] + [frames[n]];
    match frames[n]
    case New(id) =>
      NoBodyBeforeNew(frames, n, id);
      StreamsAfterNew(s.streams, frames[..n], id);
      SeenAfterNew(s.lastSeen, frames[..n], id);
    case Other(id, b) =>
      StreamsAfterOther(s, frames[..n], id, b);
      SeenAfterOther(s.lastSeen, frames[..n], id, b);
  }

  lemma ServerReceiveInv(s: System, v: Verdict)
    requires Inv(s) && Enabled(s, ServerReceive(v))
    ensures Inv(Do(s, ServerReceive(v)))
  {
    hide StreamsInv, SeenInv, Receive, Ordered;
    OrderedIsAcceptable(s.sent);
    ReceiveExact(s.sent, s.arrived, s.server, v);
    ReceiveKeeps(s.sent, s.arrived, s.server, v);
    LiveSnoc(s.heard, Arrived(s.sent[s.arrived], v));
    hide AcceptableAt, LiveAfter, ServerLive, ClientLive, HandedInv;
  }

  lemma ServerSideInv(s: System, step: Step)
    requires Inv(s) && Enabled(s, step)
    requires step.SendSettings? || step.ServerSend?
    ensures Inv(Do(s, step))
  {
    hide BodiesOf, RepliesOf, HandedInv, Ordered, SeenInv, StreamsInv;
    assert Do(s, step).replied[..s.got] == s.replied[..s.got];
  }

  lemma ClientUntouched(s: System, t: System)
    requires ClientInv(s) && ReplyInv(s)
    requires t.client == s.client && t.holding == s.holding && t.returning == s.returning && t.live == s.live
    requires t.sent == s.sent && t.kept == s.kept && t.replied == s.replied && t.got == s.got
    requires t.ready == s.ready && t.settingsSent == s.settingsSent
    ensures ClientInv(t) && ReplyInv(t)
  {
    hide Ordered, ClientLive;
  }

  lemma ServerRemoveInv(s: System, id: int64)
    requires Inv(s)
    ensures Inv(Do(s, ServerRemove(id)))
  {
    hide BodiesOf, RepliesOf, HandedInv, Ordered, SeenInv, StreamsInv, ServerLive, ClientLive, FramesHeard, ClientInv, ReplyInv;
    var t := Do(s, ServerRemove(id));
    StreamsAfterRemoval(s.server.streams, s.sent[..s.arrived], {id});
    LiveSnoc(s.heard, Dropped({id}));
    assert ServerInv(t);
    ClientUntouched(s, t);
  }

  lemma StreamsAfterRemoval(streams: map<int64, seq<Body>>, received: seq<ToServer>, ids: set<int64>)
    requires StreamsInv(streams, received)
    ensures StreamsInv(streams - ids, received)
  {
    hide BodiesOf;
  }

  lemma RepliesSnoc(received: seq<ToClient>, f: ToClient, id: int64)
    ensures RepliesOf(received + [f], id) == RepliesOf(received, id) + if f.Reply? && f.id == id then [f.b] else []
  {
    assert (received + [f])[..|received|] == received;
  }

  lemma HandedNext(c: Client, received: seq<ToClient>, f: ToClient)
    requires HandedInv(c.streams, received)
    ensures f.Reply? ==> HandedInv(ClientFrame(c, f.id, f.b).streams, received + [f])
    ensures !f.Reply? ==> HandedInv(c.streams, received + [f])
  {
    hide RepliesOf;
    forall id {
      RepliesSnoc(received, f, id);
    }
  }

  lemma SameServer(s: System)
    requires ServerInv(s) && Enabled(s, ClientReceive)
    ensures ServerInv(Do(s, ClientReceive)) && Do(s, ClientReceive).sent == s.sent
  {
    hide SeenInv, StreamsInv;
  }

  lemma ReplyLookup(s: System, id: int64)
    requires ClientInv(s) && New(id) in s.sent
    ensures !ClientLookup(s.client, id).ProtocolError?
  {
    var i :| 0 <= i < |s.sent| && s.sent[i] == New(id);
  }

  lemma ClientReceiveIds(s: System)
    requires ClientInv(s) && ReplyInv(s) && !s.clientAborted && Enabled(s, ClientReceive)
    ensures var t := Do(s, ClientReceive); ClientInv(t) && ReplyInv(t) && !t.clientAborted
    ensures var t, f := Do(s, ClientReceive), s.replied[s.got];
            && t.client == (if f.Reply? then ClientFrame(s.client, f.id, f.b) else s.client)
            && t.got == s.got + 1 && t.replied == s.replied && t.serverAborted == s.serverAborted
  {
    var f, t := s.replied[s.got], Do(s, ClientReceive);
    if f.Reply? {
      ReplyLookup(s, f.id);
      assert t.client.streams.Keys == s.client.streams.Keys;
    }
    hide Ordered;
  }

  lemma ClientReceiveInv(s: System)
    requires Inv(s) && Enabled(s, ClientReceive)
    ensures Inv(Do(s, ClientReceive))
  {
    hide HandedInv, ServerInv, ClientInv, ReplyInv, ClientFrame, Do;
    var f := s.replied[s.got];
    ClientReceiveIds(s);
    SameServer(s);
    assert s.replied[..s.got + 1] == s.replied[..s.got] + [f];
    HandedNext(s.client, s.replied[..s.got], f);
  }

  lemma StepInv(s: System, step: Step)
    requires Inv(s) && Enabled(s, step) && 0 <= Do(s, step).client.last
    ensures Inv(Do(s, step))
  {
    match step
    case ServerReceive(v) => ServerReceiveInv(s, v);
    case SendSettings => ServerSideInv(s, step);
    case ServerSend(_, _) => ServerSideInv(s, step);
    case ServerRemove(id) => ServerRemoveInv(s, id);
    case ClientReceive => ClientReceiveInv(s);
    case Announce(id) => AnnounceInv(s, id);
    case ClientSend(id, b) => ClientSendInv(s, id, b);
    case _ => ClientOnlyInv(s, step);
  }

  /** An exhausted client stays exhausted. */
  lemma WrappedStep(s: System, step: Step)
    requires s.client.last < 0 && Enabled(s, step)
    ensures Do(s, step).client.last == s.client.last
  {
    hide Receive, ClientLookup;
  }

  lemma {:induction false} WrappedForGood(s: System, steps: seq<Step>, t: System)
    requires s.client.last < 0 && Reaches(s, steps, t)
    ensures t.client.last < 0
    decreases steps
  {
    hide Do, Enabled;
    if steps != [] {
      WrappedStep(s, steps[0]);
      WrappedForGood(Do(s, steps[0]), steps[1..], t);
    }
  }

  lemma {:induction false} RunInv(s: System, steps: seq<Step>, t: System)
    requires Inv(s) && Reaches(s, steps, t) && 0 <= t.client.last
    ensures Inv(t)
    decreases steps
  {
    if steps != [] {
      var next := Do(s, steps[0]);
      if next.client.last < 0 {
        WrappedForGood(next, steps[1..], t);
      } else {
        StepInv(s, steps[0]);
        RunInv(next, steps[1..], t);
      }
    }
  }

  // ---------------------------------------------------------------- the receive loop

  method ReceiveFrame(server: TunnelServer, f: ToServer, closing: bool, n: NewStream) returns (ok: bool)
    modifies server
    ensures (server.State(), ok) == Receive(old(server.State()), f, Judge(closing, n))
  {
    match f {
      case New(id) =>
        var r := server.CreateStream(closing, id, n);
        return !r.CreateError?;
      case Other(id, b) =>
        var r := server.GetStream(id);
        if r.Found? {
          server.AcceptFrame(id, b);
        }
        return !r.ProtocolError?;
    }
  }

  function Verdicts(news: seq<(bool, NewStream)>): seq<Verdict> {
    seq(|news|, i requires 0 <= i < |news| => Judge(news[i].0, news[i].1))
  }

  /** The frames from number `n` on, each received after other goroutines have removed some streams. */
  function ServeFrom(s: Server, frames: seq<ToServer>, verdicts: seq<Verdict>, removals: seq<set<int64>>, n: nat): (Server, bool)
    requires |frames| == |verdicts| == |removals| && n <= |frames|
    decreases |frames| - n
  {
    if n == |frames| then (s, true)
    else
      var (t, ok) := Receive(s.(streams := s.streams - removals[n]), frames[n], verdicts[n]);
      if ok then ServeFrom(t, frames, verdicts, removals, n + 1) else (t, false)
  }

  /** What happens at the server while it receives the first `n` frames. */
  function History(frames: seq<ToServer>, verdicts: seq<Verdict>, removals: seq<set<int64>>, n: nat): seq<ServerEvent>
    requires |frames| == |verdicts| == |removals| && n <= |frames|
  {
    if n == 0 then []
    else History(frames, verdicts, removals, n - 1) + [Dropped(removals[n - 1])] + [Arrived(frames[n - 1], verdicts[n - 1])]
  }

  lemma HistoryNext(frames: seq<ToServer>, verdicts: seq<Verdict>, removals: seq<set<int64>>, n: nat)
    requires |frames| == |verdicts| == |removals| && n < |frames|
    ensures ServerLive(History(frames, verdicts, removals, n + 1))
            == LiveAfter(ServerLive(History(frames, verdicts, removals, n)) - removals[n], Arrived(frames[n], verdicts[n]))
  {
    var before := History(frames, verdicts, removals, n);
    LiveSnoc(before, Dropped(removals[n]));
    LiveSnoc(before + [Dropped(removals[n])], Arrived(frames[n], verdicts[n]));
  }

  /** What the receive loop has made of the frames before number `n`. */
  ghost predicate Served(s: Server, frames: seq<ToServer>, verdicts: seq<Verdict>, removals: seq<set<int64>>, n: nat)
    requires |frames| == |verdicts| == |removals| && n <= |frames|
  {
    && AcceptableUpTo(frames, n) && SeenInv(s.lastSeen, frames[..n]) && StreamsInv(s.streams, frames[..n])
    && s.streams.Keys == ServerLive(History(frames, verdicts, removals, n))
  }

  lemma ServedNext(s: Server, frames: seq<ToServer>, verdicts: seq<Verdict>, removals: seq<set<int64>>, n: nat)
    requires |frames| == |verdicts| == |removals| && n < |frames| && Served(s, frames, verdicts, removals, n)
    ensures var (t, ok) := Receive(s.(streams := s.streams - removals[n]), frames[n], verdicts[n]);
            && (ok <==> AcceptableUpTo(frames, n + 1))
            && (ok ==> Served(t, frames, verdicts, removals, n + 1))
  {
    hide SeenInv, StreamsInv, Receive, ServerLive, AcceptableAt;
    var s' := s.(streams := s.streams - removals[n]);
    StreamsAfterRemoval(s.streams, frames[..n], removals[n]);
    ReceiveExact(frames, n, s', verdicts[n]);
    HistoryNext(frames, verdicts, removals, n);
    assert s'.streams.Keys == s.streams.Keys - removals[n];
    if AcceptableAt(frames, n) {
      ReceiveKeeps(frames, n, s', verdicts[n]);
    } else {
      assert !AcceptableUpTo(frames, n + 1);
    }
  }

  lemma NothingServed(frames: seq<ToServer>, verdicts: seq<Verdict>, removals: seq<set<int64>>)
    requires |frames| == |verdicts| == |removals|
    ensures Served(Server(-1, map[]), frames, verdicts, removals, 0)
  {
  }

  /** The server's receive loop over the frames of a connection, while other goroutines remove
      whatever streams have finished. It ends the tunnel exactly if it meets a frame that is not
      acceptable, which a conforming client never sends; until then the streams it has are those it
      has admitted and not lost, and each has been handed exactly its own frames. */
  method Serve(server: TunnelServer, frames: seq<ToServer>, news: seq<(bool, NewStream)>, removals: seq<set<int64>>)
    returns (ok: bool)
    requires |frames| == |news| == |removals| && server.State() == Server(-1, map[])
    modifies server
    ensures (server.State(), ok) == ServeFrom(Server(-1, map[]), frames, Verdicts(news), removals, 0)
    ensures ok <==> AcceptableUpTo(frames, |frames|)
    ensures Ordered(frames) ==> ok
    ensures ok ==> SeenInv(server.lastSeen, frames) && StreamsInv(server.streams, frames)
    ensures ok ==> server.streams.Keys == ServerLive(History(frames, Verdicts(news), removals, |frames|))
  {
    hide Served, Ordered, Receive, AcceptableAt, History, ServerLive;
    if Ordered(frames) {
      OrderedIsAcceptable(frames);
    }
    NothingServed(frames, Verdicts(news), removals);
    for n := 0 to |frames|
      invariant ServeFrom(Server(-1, map[]), frames, Verdicts(news), removals, 0)
                == ServeFrom(server.State(), frames, Verdicts(news), removals, n)
      invariant Served(server.State(), frames, Verdicts(news), removals, n)
    {
      ServedNext(server.State(), frames, Verdicts(news), removals, n);
      server.RemoveStreams(removals[n]);
      var received := ReceiveFrame(server, frames[n], news[n].0, news[n].1);
      if !received {
        assert !AcceptableUpTo(frames, n + 1);
        return false;
      }
    }
    ServedAll(server.State(), frames, Verdicts(news), removals);
    return true;
  }

  lemma ServedAll(s: Server, frames: seq<ToServer>, verdicts: seq<Verdict>, removals: seq<set<int64>>)
    requires |frames| == |verdicts| == |removals| && Served(s, frames, verdicts, removals, |frames|)
    ensures AcceptableUpTo(frames, |frames|) && SeenInv(s.lastSeen, frames) && StreamsInv(s.streams, frames)
    ensures s.streams.Keys == ServerLive(History(frames, verdicts, removals, |frames|))
  {
    assert frames[..|frames|] == frames;
  }

  // ---------------------------------------------------------------- main results

  /** Between conforming ends, as long as the IDs have not run out: neither end ever aborts the
      tunnel, new streams arrive in strictly increasing order and before anything else of
      theirs; and each end has exactly the streams that it has admitted, or allocated, and not lost
      since, each of which has been handed exactly its own frames, in order. */
  lemma NoProtocolError(steps: seq<Step>, t: System)
    requires Reaches(Initial(), steps, t) && 0 <= t.client.last
    ensures !t.clientAborted && !t.serverAborted && Ordered(t.sent)
    ensures t.arrived <= |t.sent| && t.got <= |t.replied|
    ensures FramesHeard(t.heard) == t.sent[..t.arrived]
    ensures t.server.streams.Keys == ServerLive(t.heard) && t.client.streams.Keys == ClientLive(t.kept)
    ensures forall id :: id in ServerLive(t.heard) ==> t.server.streams[id] == BodiesOf(t.sent[..t.arrived], id)
    ensures forall id :: id in ClientLive(t.kept) ==> t.client.streams[id] == RepliesOf(t.replied[..t.got], id)
  {
    RunInv(Initial(), steps, t);
  }

  /** A stream the server has seen and does not have: rejected, finished or cancelled. */
  predicate Gone(s: System, id: int64) { id <= s.server.lastSeen && id !in s.server.streams }

  lemma GoneStep(s: System, step: Step, id: int64)
    requires Gone(s, id) && Enabled(s, step)
    ensures Gone(Do(s, step), id)
  {
    hide Allocate, ClientFrame, ClientLookup;
  }

  /** Such a stream never comes back. */
  lemma {:induction false} GoneForever(s: System, steps: seq<Step>, t: System, id: int64)
    requires Gone(s, id) && Reaches(s, steps, t)
    ensures Gone(t, id)
    decreases steps
  {
    hide Gone, Do, Enabled;
    if steps != [] {
      GoneStep(s, steps[0], id);
      GoneForever(Do(s, steps[0]), steps[1..], t, id);
    }
  }

  /** And at any later time a frame for it is received, changes nothing at the server and aborts nothing. */
  lemma LateFrameIsNoOp(s: System, steps: seq<Step>, t: System, id: int64, v: Verdict)
    requires Gone(s, id) && Reaches(s, steps, t)
    requires Enabled(t, ServerReceive(v)) && t.sent[t.arrived].Other? && t.sent[t.arrived].id == id
    ensures Do(t, ServerReceive(v)) == t.(arrived := t.arrived + 1, heard := t.heard + [Arrived(t.sent[t.arrived], v)])
  {
    GoneForever(s, steps, t, id);
  }

  /** A stream the client has used and does not have. An exhausted client has used every ID. */
  predicate ClientGone(s: System, id: int64) {
    s.ready && s.client.created && 1 <= id && (id <= s.client.last || s.client.last < 0) && id !in s.client.streams
  }

  lemma ClientGoneStep(s: System, step: Step, id: int64)
    requires ClientGone(s, id) && Enabled(s, step)
    ensures ClientGone(Do(s, step), id)
  {
    hide Receive;
    if step.ClientReceive? {
      var f := s.replied[s.got];
      assert f.Reply? ==> ClientFrame(s.client, f.id, f.b).streams.Keys == s.client.streams.Keys;
    }
  }

  lemma {:induction false} ClientGoneForever(s: System, steps: seq<Step>, t: System, id: int64)
    requires ClientGone(s, id) && Reaches(s, steps, t)
    ensures ClientGone(t, id)
    decreases steps
  {
    hide ClientGone, Do, Enabled;
    if steps != [] {
      ClientGoneStep(s, steps[0], id);
      ClientGoneForever(Do(s, steps[0]), steps[1..], t, id);
    }
  }

  /** A reply for it, at any later time, is dropped and changes nothing, exactly as long as the IDs
      have not run out; after that the client takes it for a protocol error. */
  lemma LateReplyExact(s: System, steps: seq<Step>, t: System, id: int64, b: Body)
    requires ClientGone(s, id) && Reaches(s, steps, t)
    requires Enabled(t, ClientReceive) && t.replied[t.got] == Reply(id, b)
    ensures Do(t, ClientReceive) == t.(got := t.got + 1, clientAborted := t.client.last < 0)
  {
    ClientGoneForever(s, steps, t, id);
  }

  lemma ClosedStep(s: System, step: Step)
    requires s.client.finished && s.client.streams == map[] && Enabled(s, step)
    ensures Do(s, step).client.finished && Do(s, step).client.streams == map[]
    ensures step.AllocateStep? ==> Do(s, step) == s
  {
    hide Receive, ClientLookup;
  }

  lemma {:induction false} StaysClosed(s: System, steps: seq<Step>, t: System)
    requires s.client.finished && s.client.streams == map[] && Reaches(s, steps, t)
    ensures t.client.finished && t.client.streams == map[]
    decreases steps
  {
    hide Do, Enabled;
    if steps != [] {
      ClosedStep(s, steps[0]);
      StaysClosed(Do(s, steps[0]), steps[1..], t);
    }
  }

  /** Closing a channel is final: from then on it has no streams, and being asked for one changes
      nothing. */
  lemma ClosedForGood(s: System, steps: seq<Step>, t: System)
    requires Reaches(Do(s, CloseChannel), steps, t)
    ensures t.client.finished && t.client.streams == map[]
    ensures forall credsOk :: Enabled(t, AllocateStep(credsOk)) ==> Do(t, AllocateStep(credsOk)) == t
  {
    StaysClosed(Do(s, CloseChannel), steps, t);
    forall credsOk | Enabled(t, AllocateStep(credsOk)) {
      ClosedStep(t, AllocateStep(credsOk));
    }
  }

  // ---------------------------------------------------------------- running out of IDs

  predicate NoAllocation(steps: seq<Step>) { forall i :: 0 <= i < |steps| ==> !steps[i].AllocateStep? }

  /** The tunnel can still fail without another stream being allocated. */
  ghost predicate Doomed(s: System) {
    exists steps, t :: Reaches(s, steps, t) && NoAllocation(steps) && (t.serverAborted || t.clientAborted)
  }

  lemma {:induction false} LastUnchanged(s: System, steps: seq<Step>, t: System)
    requires Reaches(s, steps, t) && NoAllocation(steps)
    ensures t.client.last == s.client.last
    decreases steps
  {
    if steps != [] {
      assert !steps[0].AllocateStep?;
      assert NoAllocation(steps[1..]);
      LastUnchanged(Do(s, steps[0]), steps[1..], t);
    }
  }

  lemma NotDoomed(s: System)
    requires Inv(s)
    ensures !Doomed(s)
  {
    if Doomed(s) {
      var steps, t :| Reaches(s, steps, t) && NoAllocation(steps) && (t.serverAborted || t.clientAborted);
      LastUnchanged(s, steps, t);
      RunInv(s, steps, t);
    }
  }

  lemma {:induction false} ReachesConcat(s: System, a: seq<Step>, t: System, b: seq<Step>, u: System)
    requires Reaches(s, a, t) && Reaches(t, b, u)
    ensures Reaches(s, a + b, u)
    decreases a
  {
    if a == [] {
      assert a + b == b;
    } else {
      assert (a + b)[0] == a[0] && (a + b)[1..] == a[1..] + b;
      ReachesConcat(Do(s, a[0]), a[1..], t, b, u);
    }
  }

  lemma OneStep(s: System, step: Step)
    requires Enabled(s, step)
    ensures Reaches(s, [step], Do(s, step))
  {
    assert [step][1..] == [];
  }

  /** The server can catch up with everything sent, unless it aborts on the way. */
  lemma {:induction false} Drain(s: System) returns (steps: seq<Step>, t: System)
    requires s.arrived <= |s.sent|
    ensures Reaches(s, steps, t) && NoAllocation(steps)
    ensures t.serverAborted || (t.arrived == |t.sent| && t.sent == s.sent)
    ensures t.holding == s.holding && t.server.lastSeen >= s.server.lastSeen
    ensures t.client == s.client && t.ready == s.ready && t.replied == s.replied && t.got == s.got
    decreases |s.sent| - s.arrived
  {
    if s.serverAborted || s.arrived == |s.sent| {
      return [], s;
    }
    var step := ServerReceive(Admit);
    var rest;
    rest, t := Drain(Do(s, step));
    steps := [step] + rest;
    assert steps[1..] == rest;
  }

  /** A stream announced with a wrapped ID aborts the tunnel as soon as it arrives. */
  lemma WrappedIsDoomed(s: System)
    requires s.holding == {MIN_ID} && s.arrived <= |s.sent| && s.server.lastSeen >= -1
    ensures Doomed(s)
  {
    var steps, t := Drain(s);
    if !t.serverAborted {
      var t1 := Do(t, Announce(MIN_ID));
      var t2 := Do(t1, ServerReceive(Admit));
      OneStep(t, Announce(MIN_ID));
      OneStep(t1, ServerReceive(Admit));
      ReachesConcat(t, [Announce(MIN_ID)], t1, [ServerReceive(Admit)], t2);
      ReachesConcat(s, steps, t, [Announce(MIN_ID)] + [ServerReceive(Admit)], t2);
      assert t2.serverAborted;
    }
  }

  /** The client can catch up with everything replied, unless it aborts on the way. */
  lemma {:induction false} ClientDrain(s: System) returns (steps: seq<Step>, t: System)
    requires s.got <= |s.replied| && s.ready
    ensures Reaches(s, steps, t) && NoAllocation(steps)
    ensures t.clientAborted || (t.got == |t.replied| && t.ready)
    ensures t.client.last == s.client.last && t.sent == s.sent && t.arrived == s.arrived
    decreases |s.replied| - s.got
  {
    if s.clientAborted || s.got == |s.replied| {
      return [], s;
    }
    var rest;
    rest, t := ClientDrain(Do(s, ClientReceive));
    steps := [ClientReceive] + rest;
    assert steps[1..] == rest;
  }

  /** With the IDs exhausted, a reply to any stream that was ever announced and has been removed
      in the meantime aborts the tunnel. */
  lemma LateReplyDooms(s: System, id: int64)
    requires s.ready && s.client.last < 0 && 1 <= id && New(id) in s.sent
    requires s.arrived <= |s.sent| && s.got <= |s.replied|
    ensures Doomed(s)
  {
    var first, s1 := Drain(s);
    if !s1.serverAborted {
      assert s1.ready && s1.got <= |s1.replied| && s1.client.last < 0;
      var second, s2 := ClientDrain(s1);
      ReachesConcat(s, first, s1, second, s2);
      if !s2.clientAborted {
        var s3 := Do(s2, ClientRemove(id));
        OneStep(s2, ClientRemove(id));
        assert s3.sent[..s3.arrived] == s3.sent;
        var s4 := Do(s3, ServerSend(id, 0));
        OneStep(s3, ServerSend(id, 0));
        var s5 := Do(s4, ClientReceive);
        OneStep(s4, ClientReceive);
        ReachesConcat(s3, [ServerSend(id, 0)], s4, [ClientReceive], s5);
        ReachesConcat(s2, [ClientRemove(id)], s3, [ServerSend(id, 0)] + [ClientReceive], s5);
        ReachesConcat(s, first + second, s2, [ClientRemove(id)] + ([ServerSend(id, 0)] + [ClientReceive]), s5);
        assert s5.clientAborted;
      }
    }
  }

  /** Nothing was ever announced, and nothing is under way. */
  predicate Silent(s: System) {
    && s.ready && s.settingsSent && s.sent == [] && s.arrived == 0 && s.got == |s.replied|
    && s.holding == {} && s.returning == {} && s.live == {}
    && !s.clientAborted && !s.serverAborted
  }

  lemma {:induction false} SilentStays(s: System, steps: seq<Step>, t: System)
    requires Silent(s) && Reaches(s, steps, t) && NoAllocation(steps)
    ensures Silent(t)
    decreases steps
  {
    if steps != [] {
      assert !steps[0].AllocateStep?;
      assert NoAllocation(steps[1..]);
      assert Silent(Do(s, steps[0]));
      SilentStays(Do(s, steps[0]), steps[1..], t);
    }
  }

  lemma SilentIsSafe(s: System)
    requires Silent(s)
    ensures !Doomed(s)
  {
    if Doomed(s) {
      var steps, t :| Reaches(s, steps, t) && NoAllocation(steps) && (t.serverAborted || t.clientAborted);
      SilentStays(s, steps, t);
    }
  }

  ghost predicate EverAnnounced(s: System) { exists id :: New(id) in s.sent }

  lemma SomethingSent(sent: seq<ToServer>)
    requires Ordered(sent) && sent != []
    ensures exists id :: New(id) in sent
  {
    assert sent[0].New? ==> New(sent[0].id) in sent;
  }

  lemma SomethingReplied(s: System)
    requires ReplyInv(s) && s.ready && s.got < |s.replied|
    ensures exists id :: New(id) in s.sent
  {
    assert New(s.replied[s.got].id) in s.sent;
  }

  lemma NothingAnnounced(s: System)
    requires Inv(s) && Enabled(s, AllocateStep(false)) && !EverAnnounced(s)
    ensures Silent(s)
  {
    hide BodiesOf, RepliesOf, HandedInv, SeenInv, StreamsInv;
    if s.sent != [] {
      SomethingSent(s.sent);
    }
    if s.got < |s.replied| {
      SomethingReplied(s);
    }
  }

  lemma LastStreamDooms(s: System)
    requires Inv(s) && Enabled(s, AllocateStep(true)) && s.client.last == MAX_ID && !s.client.finished
    ensures Doomed(Do(s, AllocateStep(true)))
  {
    assert s.server.lastSeen >= -1 by {
      if s.server.lastSeen != -1 {
        assert New(s.server.lastSeen) in s.sent;
      }
    }
    WrappedIsDoomed(Do(s, AllocateStep(true)));
  }

  lemma LastRefusalDooms(s: System)
    requires Inv(s) && Enabled(s, AllocateStep(false)) && s.client.last == MAX_ID && !s.client.finished
    ensures Doomed(Do(s, AllocateStep(false))) <==> EverAnnounced(s)
  {
    var t := Do(s, AllocateStep(false));
    if EverAnnounced(s) {
      var id :| New(id) in s.sent;
      var i :| 0 <= i < |s.sent| && s.sent[i] == New(id);
      LateReplyDooms(t, id);
    } else {
      NothingAnnounced(s);
      SilentIsSafe(t);
    }
  }

  /** The check in `allocateStream` comes before the increment: it lets one stream too many
      through. Asking for a stream endangers the tunnel exactly if the largest ID has been used
      already and the tunnel is open, and the stream is either allocated, or refused for its call
      options while there is another for which a reply may still come. */
  lemma AllocationExact(s: System, credsOk: bool)
    requires Inv(s) && Enabled(s, AllocateStep(credsOk))
    ensures Doomed(Do(s, AllocateStep(credsOk)))
            <==> s.client.last == MAX_ID && !s.client.finished && (credsOk || EverAnnounced(s))
  {
    if s.client.last == MAX_ID && !s.client.finished {
      if credsOk {
        LastStreamDooms(s);
      } else {
        LastRefusalDooms(s);
      }
    } else {
      StepInv(s, AllocateStep(credsOk));
      NotDoomed(Do(s, AllocateStep(credsOk)));
    }
  }

  lemma {:induction false} Count(s: System, n: nat) returns (steps: seq<Step>, t: System)
    requires Enabled(s, AllocateStep(false)) && !s.client.finished && 0 <= s.client.last && s.client.last + n <= MAX_ID
    ensures Reaches(s, steps, t) && t.client.last == s.client.last + n && t.sent == s.sent
    ensures Enabled(t, AllocateStep(true)) && Enabled(t, AllocateStep(false)) && !t.client.finished
    decreases n
  {
    if n == 0 {
      return [], s;
    }
    var rest;
    var next := Do(s, AllocateStep(false));
    rest, t := Count(next, n - 1);
    steps := [AllocateStep(false)] + rest;
    assert steps[1..] == rest;
  }

  /** A client that has its settings. */
  lemma ReadyRun() returns (steps: seq<Step>, t: System)
    ensures Reaches(Initial(), steps, t) && Enabled(t, AllocateStep(true)) && t.client == Initial().client && t.sent == []
  {
    var s1 := Do(Initial(), SendSettings);
    t := Do(s1, ClientReceive);
    OneStep(Initial(), SendSettings);
    OneStep(s1, ClientReceive);
    steps := [SendSettings] + [ClientReceive];
    ReachesConcat(Initial(), [SendSettings], s1, [ClientReceive], t);
  }

  /** And its first stream. */
  lemma FirstStreamRun() returns (steps: seq<Step>, t: System)
    ensures Reaches(Initial(), steps, t) && Enabled(t, AllocateStep(true))
    ensures t.client.last == 1 && !t.client.finished && t.sent == [New(1)]
  {
    var before, s := ReadyRun();
    var s1 := Do(s, AllocateStep(true));
    var s2 := Do(s1, Announce(1));
    t := Do(s2, HandOver(1));
    OneStep(s, AllocateStep(true));
    OneStep(s1, Announce(1));
    OneStep(s2, HandOver(1));
    ReachesConcat(s1, [Announce(1)], s2, [HandOver(1)], t);
    ReachesConcat(s, [AllocateStep(true)], s1, [Announce(1)] + [HandOver(1)], t);
    steps := before + ([AllocateStep(true)] + ([Announce(1)] + [HandOver(1)]));
    ReachesConcat(Initial(), before, s, [AllocateStep(true)] + ([Announce(1)] + [HandOver(1)]), t);
  }

  /** The states in which that happens can be reached, as can every smaller ID, with or without a
      stream that was announced. */
  lemma EveryIdIsReached(n: nat, announced: bool) returns (steps: seq<Step>, t: System)
    requires n <= MAX_ID && (announced ==> n > 0)
    ensures Reaches(Initial(), steps, t) && t.client.last == n && Inv(t) && EverAnnounced(t) == announced
    ensures forall credsOk :: Enabled(t, AllocateStep(credsOk))
    ensures Doomed(Do(t, AllocateStep(true))) <==> n == MAX_ID
    ensures Doomed(Do(t, AllocateStep(false))) <==> n == MAX_ID && announced
  {
    var before, s, rest;
    if announced {
      before, s := FirstStreamRun();
      assert New(1) in s.sent;
    } else {
      before, s := ReadyRun();
    }
    rest, t := Count(s, n - s.client.last);
    steps := before + rest;
    ReachesConcat(Initial(), before, s, rest, t);
    RunInv(Initial(), steps, t);
    AllocationExact(t, true);
    AllocationExact(t, false);
  }
}
