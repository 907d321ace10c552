/** webrtc_server.py: the presentation-timestamp counter of
    `ScreenStreamTrack.recv`, and the socket bookkeeping and message
    dispatch of `WebRTCServer`.

    Sockets and peer connections are identified by numbers. Sends become
    appends to `outbox`, the messages actually delivered; which sends raise
    is given to each operation as the set `failed`. The peer connection's
    SDP and ICE work is done by a foreign library: an offer is given its
    outcome. */
module Signalling {
  import opened Wrappers
  import CaptureLoop

  /** Microseconds between two frames at 60 fps, as `recv` counts them. */
  const PtsStep: nat := 16666

  /** The frame `recv` returns: the picture and its timestamp in units of
      the track's 1/1000000 time base. */
  datatype VideoFrame = VideoFrame(image: CaptureLoop.Frame, pts: int)

  /** `np.zeros((720, 1280, 3), dtype=np.uint8)`. */
  function BlackFrame(): (f: CaptureLoop.Frame)
    ensures f.height == 720 && f.width == 1280
    ensures |f.pixels| == 720 * 1280 * 3
    ensures forall i :: 0 <= i < |f.pixels| ==> f.pixels[i] == 0
  {
    CaptureLoop.Frame(720, 1280, seq(720 * 1280 * 3, _ => 0))
  }

  class ScreenStreamTrack {
    const capture: CaptureLoop.ScreenCapture
    var pts: int
    /** How many frames `recv` has returned. */
    ghost var served: nat

    ghost predicate Valid()
      reads this
    {
      pts == PtsStep * served
    }

    constructor (capture: CaptureLoop.ScreenCapture)
      ensures Valid() && served == 0 && this.capture == capture
    {
      this.capture := capture;
      pts := 0;
      served := 0;
    }

    /** `recv`: the latest captured frame, or a black 720x1280 frame when
        there is none yet; the k-th frame returned (from 0) carries pts
        16666 * k, so timestamps strictly increase. */
    method Recv() returns (f: VideoFrame)
      requires Valid()
      modifies this`pts, this`served
      ensures Valid() && served == old(served) + 1
      ensures f.pts == PtsStep * old(served)
      ensures f.pts < pts
      ensures f.image == if capture.GetLatestFrame().Some? then capture.GetLatestFrame().value
                         else BlackFrame()
    {
      var frame := capture.GetLatestFrame();
      var image := if frame.None? then BlackFrame() else frame.value;
      f := VideoFrame(image, pts);
      pts := pts + PtsStep;
      served := served + 1;
    }
  }

  type Socket = nat
  type Peer = nat

  /** What the server sends over a signalling socket. */
  datatype Outgoing =
    | Answer(sdp: string)
    | ErrorReply(message: string)
    | Stats(resolution: (int, int), connections: nat)
    | Broadcast(payload: string)

  datatype Envelope = Envelope(to: Socket, msg: Outgoing)

  /** A decoded signalling message: its `type` key, possibly absent. */
  datatype Incoming = Incoming(kind: Option<string>)

  /** What the peer-connection library makes of an offer: an SDP answer, or
      the text of the exception it raised. */
  datatype Negotiation = Answered(sdp: string) | Failed(reason: string)

  /** A frame `async for msg in ws` yields in `websocket_handler`: a text
      frame with its decoded JSON (`None` when `json.loads` raises), the
      peer connection an offer in it creates and what negotiating that
      offer gives; an error frame, which ends the loop; or a frame of any
      other type, which is ignored. */
  datatype WsFrame =
    | TextFrame(data: Option<Incoming>, pc: Peer, negotiation: Negotiation)
    | ErrorFrame
    | OtherFrame

  /** The handlers `handle_message` invokes. */
  datatype Route = OfferRoute | IceCandidateRoute | StatsRoute | Ignored

  /** `handle_message`'s dispatch: exactly the three known types have a
      handler; any other type, or none, is ignored. */
  function RouteOf(kind: Option<string>): (r: Route)
    ensures r == OfferRoute <==> kind == Some("offer")
    ensures r == IceCandidateRoute <==> kind == Some("ice-candidate")
    ensures r == StatsRoute <==> kind == Some("stats-request")
  {
    if kind == Some("offer") then OfferRoute
    else if kind == Some("ice-candidate") then IceCandidateRoute
    else if kind == Some("stats-request") then StatsRoute
    else Ignored
  }

  /** `f` is a text frame whose JSON is an offer. */
  predicate IsOffer(f: WsFrame) {
    f.TextFrame? && f.data.Some? && RouteOf(f.data.value.kind) == OfferRoute
  }

  /** The peer connections the offers among `frames` create. */
  function OfferedPeers(frames: seq<WsFrame>): set<Peer> {
    if frames == [] then {}
    else
      var last := frames[|frames| - 1];
      OfferedPeers(frames[..|frames| - 1]) + (if IsOffer(last) then {last.pc} else {})
  }

  /** The peer connections of `OfferedPeers` are exactly those of the offer
      frames. */
  lemma {:induction false} OfferedPeersExact(frames: seq<WsFrame>)
    ensures forall p :: p in OfferedPeers(frames) <==>
      exists i :: 0 <= i < |frames| && IsOffer(frames[i]) && frames[i].pc == p
  {
    if frames != [] {
      var init := frames[..|frames| - 1];
      OfferedPeersExact(init);
      assert forall i :: 0 <= i < |init| ==> init[i] == frames[i];
    }
  }

  /** One more frame adds its peer connection when it is an offer. */
  lemma OfferedPeersStep(frames: seq<WsFrame>, i: nat)
    requires i < |frames|
    ensures OfferedPeers(frames[..i + 1])
         == OfferedPeers(frames[..i]) + (if IsOffer(frames[i]) then {frames[i].pc} else {})
  {
    assert frames[..i + 1][..i] == frames[..i];
  }

  /** With distinct peer connections, an offer's connection is not among
      those of the earlier offers. */
  lemma OfferIsNew(frames: seq<WsFrame>, i: nat)
    requires i < |frames| && IsOffer(frames[i])
    requires forall j, k :: 0 <= j < k < |frames| && IsOffer(frames[j]) && IsOffer(frames[k]) ==>
               frames[j].pc != frames[k].pc
    ensures frames[i].pc !in OfferedPeers(frames[..i])
  {
    OfferedPeersExact(frames[..i]);
    forall j | 0 <= j < i && IsOffer(frames[..i][j]) ensures frames[..i][j].pc != frames[i].pc {
      assert frames[..i][j] == frames[j];
    }
  }

  /** What `handle_message` sends back over `ws` for one decoded message,
      with `conns` the peer connections before it: the answer or the error
      text for an offer, the resolution and the connection count for a
      stats request, nothing for anything else or when the send raises. */
  function Reply(ws: Socket, data: Incoming, negotiation: Negotiation, conns: set<Peer>,
                 resolution: (int, int), failed: set<Socket>): seq<Envelope>
  {
    if ws in failed then []
    else
      match RouteOf(data.kind)
      case OfferRoute =>
        [Envelope(ws, match negotiation
                      case Answered(sdp) => Answer(sdp)
                      case Failed(reason) => ErrorReply(reason))]
      case StatsRoute => [Envelope(ws, Stats(resolution, |conns|))]
      case IceCandidateRoute => []
      case Ignored => []
  }

  /** At most one reply, over `ws` itself, and one exactly for an offer or
      a stats request whose send does not raise. */
  lemma ReplyShape(ws: Socket, data: Incoming, negotiation: Negotiation, conns: set<Peer>,
                   resolution: (int, int), failed: set<Socket>)
    ensures var d := Reply(ws, data, negotiation, conns, resolution, failed);
      && |d| <= 1
      && (d != [] <==> ws !in failed && (data.kind == Some("offer") || data.kind == Some("stats-request")))
      && (forall e :: e in d ==> e.to == ws)
  {
  }

  /** What one received frame makes the server send: the reply to its
      message when it is a text frame whose JSON decodes, else nothing. */
  function FrameReply(ws: Socket, f: WsFrame, conns: set<Peer>, resolution: (int, int),
                      failed: set<Socket>): seq<Envelope>
  {
    if f.TextFrame? && f.data.Some? then Reply(ws, f.data.value, f.negotiation, conns, resolution, failed)
    else []
  }

  /** Everything sent back while `frames` are handled in order, starting
      with the peer connections `conns`; each offer adds its connection
      before the later frames are handled. */
  function Replies(ws: Socket, frames: seq<WsFrame>, conns: set<Peer>, resolution: (int, int),
                   failed: set<Socket>): seq<Envelope>
  {
    if frames == [] then []
    else
      var init := frames[..|frames| - 1];
      Replies(ws, init, conns, resolution, failed)
        + FrameReply(ws, frames[|frames| - 1], conns + OfferedPeers(init), resolution, failed)
  }

  /** One more frame appends its own reply. */
  lemma RepliesStep(ws: Socket, frames: seq<WsFrame>, i: nat, conns: set<Peer>,
                    resolution: (int, int), failed: set<Socket>)
    requires i < |frames|
    ensures Replies(ws, frames[..i + 1], conns, resolution, failed)
         == Replies(ws, frames[..i], conns, resolution, failed)
            + FrameReply(ws, frames[i], conns + OfferedPeers(frames[..i]), resolution, failed)
  {
    assert frames[..i + 1][..i] == frames[..i];
  }

  lemma AppendAssoc(a: seq<Envelope>, b: seq<Envelope>, c: seq<Envelope>)
    ensures a + b + c == a + (b + c)
  {
  }

  /** One iteration of the receive loop keeps both of its invariants: the
      peer connections are the initial ones plus those the handled offers
      created, and the sent messages are those of `Replies`. */
  lemma ServeStep(ws: Socket, frames: seq<WsFrame>, i: nat, conns0: set<Peer>, out0: seq<Envelope>,
                  resolution: (int, int), failed: set<Socket>,
                  conns: set<Peer>, out: seq<Envelope>, conns': set<Peer>, out': seq<Envelope>)
    requires i < |frames|
    requires conns == conns0 + OfferedPeers(frames[..i])
    requires out == out0 + Replies(ws, frames[..i], conns0, resolution, failed)
    requires conns' == conns + (if IsOffer(frames[i]) then {frames[i].pc} else {})
    requires out' == out + FrameReply(ws, frames[i], conns, resolution, failed)
    ensures conns' == conns0 + OfferedPeers(frames[..i + 1])
    ensures out' == out0 + Replies(ws, frames[..i + 1], conns0, resolution, failed)
  {
    OfferedPeersStep(frames, i);
    RepliesStep(ws, frames, i, conns0, resolution, failed);
    AppendAssoc(out0, Replies(ws, frames[..i], conns0, resolution, failed),
                FrameReply(ws, frames[i], conns, resolution, failed));
  }

  /** Every reply goes back over the connection's own socket, at most one
      per frame, and none when that socket's sends raise. */
  lemma {:induction false} RepliesToOwnSocket(ws: Socket, frames: seq<WsFrame>, conns: set<Peer>,
                                              resolution: (int, int), failed: set<Socket>)
    ensures var d := Replies(ws, frames, conns, resolution, failed);
      && |d| <= |frames|
      && (forall e :: e in d ==> e.to == ws)
      && (ws in failed ==> d == [])
  {
    if frames != [] {
      var init := frames[..|frames| - 1];
      RepliesToOwnSocket(ws, init, conns, resolution, failed);
      var last := frames[|frames| - 1];
      if last.TextFrame? && last.data.Some? {
        ReplyShape(ws, last.data.value, last.negotiation, conns + OfferedPeers(init), resolution, failed);
      }
    }
  }

  /** The deliveries of one broadcast, given the order in which the sockets
      were attempted: one per attempted socket whose send did not raise. */
  function Delivered(attempted: seq<Socket>, payload: string, failed: set<Socket>): (d: seq<Envelope>)
    ensures |d| <= |attempted|
  {
    if attempted == [] then []
    else
      var last := attempted[|attempted| - 1];
      Delivered(attempted[..|attempted| - 1], payload, failed)
        + (if last in failed then [] else [Envelope(last, Broadcast(payload))])
  }

  /** Attempting one more socket appends its delivery, if its send does
      not raise, to what the earlier attempts delivered. */
  lemma DeliveredStep(attempted: seq<Socket>, ws: Socket, payload: string, failed: set<Socket>,
                      out0: seq<Envelope>, out: seq<Envelope>, out': seq<Envelope>)
    requires out == out0 + Delivered(attempted, payload, failed)
    requires out' == out + (if ws in failed then [] else [Envelope(ws, Broadcast(payload))])
    ensures out' == out0 + Delivered(attempted + [ws], payload, failed)
  {
    assert (attempted + [ws])[..|attempted|] == attempted;
    AppendAssoc(out0, Delivered(attempted, payload, failed),
                if ws in failed then [] else [Envelope(ws, Broadcast(payload))]);
  }

  /** One iteration of `broadcast_message`'s loop over a copy `sockets` of
      the set keeps its invariants: `attempted` lists each socket taken from
      `pending` once, the set has lost exactly the attempted sockets whose
      send raised, and the deliveries are those of `Delivered`. */
  lemma BroadcastStep(sockets: set<Socket>, pending: set<Socket>, attempted: seq<Socket>, ws: Socket,
                      payload: string, failed: set<Socket>,
                      set0: set<Socket>, set1: set<Socket>,
                      out0: seq<Envelope>, out: seq<Envelope>, out': seq<Envelope>)
    requires ws in pending && pending <= sockets
    requires forall s :: s in attempted <==> s in sockets && s !in pending
    requires forall i, j :: 0 <= i < j < |attempted| ==> attempted[i] != attempted[j]
    requires set0 == sockets - (failed - pending)
    requires set1 == if ws in failed then set0 - {ws} else set0
    requires out == out0 + Delivered(attempted, payload, failed)
    requires out' == out + (if ws in failed then [] else [Envelope(ws, Broadcast(payload))])
    ensures var attempted' := attempted + [ws];
      && pending - {ws} <= sockets
      && (forall s :: s in attempted' <==> s in sockets && s !in pending - {ws})
      && (forall i, j :: 0 <= i < j < |attempted'| ==> attempted'[i] != attempted'[j])
      && set1 == sockets - (failed - (pending - {ws}))
      && out' == out0 + Delivered(attempted', payload, failed)
  {
    DeliveredStep(attempted, ws, payload, failed, out0, out, out');
  }

  /** A broadcast reaches exactly the attempted sockets whose send did not
      raise, each with the payload. */
  lemma {:induction false} DeliveredExact(attempted: seq<Socket>, payload: string, failed: set<Socket>)
    ensures forall e :: e in Delivered(attempted, payload, failed) <==>
              e.to in attempted && e.to !in failed && e.msg == Broadcast(payload)
  {
    if attempted != [] {
      var init := attempted[..|attempted| - 1];
      DeliveredExact(init, payload, failed);
      assert attempted == init + [attempted[|attempted| - 1]];
    }
  }

  class WebRtcServer {
    const capture: CaptureLoop.ScreenCapture
    var connections: set<Peer>
    var websockets: set<Socket>
    var outbox: seq<Envelope>

    constructor (capture: CaptureLoop.ScreenCapture)
      ensures this.capture == capture
      ensures connections == {} && websockets == {} && outbox == []
    {
      this.capture := capture;
      connections := {};
      websockets := {};
      outbox := [];
    }

    /** `websocket_handler` on connect: the socket joins the set. */
    method Open(ws: Socket)
      modifies this`websockets
      ensures websockets == old(websockets) + {ws}
    {
      websockets := websockets + {ws};
    }

    /** The `finally` of `websocket_handler`: the socket leaves the set. */
    method Close(ws: Socket)
      modifies this`websockets
      ensures websockets == old(websockets) - {ws}
    {
      websockets := websockets - {ws};
    }

    /** `send_message`: a send error is caught and nothing else happens. */
    method SendMessage(ws: Socket, msg: Outgoing, failed: set<Socket>)
      modifies this`outbox
      ensures outbox == old(outbox) + (if ws in failed then [] else [Envelope(ws, msg)])
    {
      if ws !in failed {
        outbox := outbox + [Envelope(ws, msg)];
      }
    }

    /** `handle_message`: an offer registers the new peer connection `pc` and
        replies with the answer or the error; an ICE candidate is only
        logged; a stats request replies with the resolution and the number
        of peer connections; anything else invokes nothing and sends
        nothing. */
    method HandleMessage(ws: Socket, data: Incoming, pc: Peer, negotiation: Negotiation, failed: set<Socket>)
      requires RouteOf(data.kind) == OfferRoute ==> pc !in connections
      modifies this`connections, this`outbox
      ensures websockets == old(websockets)
      ensures connections == old(connections) + (if RouteOf(data.kind) == OfferRoute then {pc} else {})
      ensures outbox == old(outbox) + Reply(ws, data, negotiation, old(connections), capture.targetResolution, failed)
      ensures RouteOf(data.kind) == OfferRoute ==>
        && connections == old(connections) + {pc}
        && outbox == old(outbox) + (if ws in failed then [] else
             [Envelope(ws, match negotiation
                           case Answered(sdp) => Answer(sdp)
                           case Failed(reason) => ErrorReply(reason))])
      ensures RouteOf(data.kind) == StatsRoute ==>
        && connections == old(connections)
        && outbox == old(outbox) + (if ws in failed then [] else
             [Envelope(ws, Stats(capture.targetResolution, |connections|))])
      ensures RouteOf(data.kind) in {IceCandidateRoute, Ignored} ==>
        connections == old(connections) && outbox == old(outbox)
    {
      if data.kind == Some("offer") {
        connections := connections + {pc};
        match negotiation {
          case Answered(sdp) =>
            SendMessage(ws, Answer(sdp), failed);
          case Failed(reason) =>
            SendMessage(ws, ErrorReply(reason), failed);
        }
      } else if data.kind == Some("ice-candidate") {
        // only logged
      } else if data.kind == Some("stats-request") {
        SendMessage(ws, Stats(capture.targetResolution, |connections|), failed);
      }
    }

    /** One iteration of `websocket_handler`'s receive loop on a frame that
        is not an error frame: a text frame whose JSON decodes is handed to
        `handle_message`; undecodable JSON is only logged and any other
        frame is ignored. */
    method HandleFrame(ws: Socket, f: WsFrame, failed: set<Socket>)
      requires IsOffer(f) ==> f.pc !in connections
      modifies this`connections, this`outbox
      ensures websockets == old(websockets)
      ensures connections == old(connections) + (if IsOffer(f) then {f.pc} else {})
      ensures outbox == old(outbox) + FrameReply(ws, f, old(connections), capture.targetResolution, failed)
    {
      if f.TextFrame? && f.data.Some? {
        HandleMessage(ws, f.data.value, f.pc, f.negotiation, failed);
      }
    }

    /** The `async for msg in ws` loop of `websocket_handler`: the frames
        are handled in order until they run out, an error frame arrives
        (`break`), or receiving raises after `raisesAt` frames. Returns how
        many frames were handled. Each offer creates a new peer connection,
        so the offers' `pc`s are new and distinct. */
    method ReceiveLoop(ws: Socket, frames: seq<WsFrame>, raisesAt: nat, failed: set<Socket>)
      returns (handled: nat)
      requires forall i :: 0 <= i < |frames| && IsOffer(frames[i]) ==> frames[i].pc !in connections
      requires forall i, j :: 0 <= i < j < |frames| && IsOffer(frames[i]) && IsOffer(frames[j]) ==>
                 frames[i].pc != frames[j].pc
      modifies this`connections, this`outbox
      ensures websockets == old(websockets)
      ensures handled <= |frames| && handled <= raisesAt
      ensures forall i :: 0 <= i < handled ==> !frames[i].ErrorFrame?
      ensures handled < |frames| && handled < raisesAt ==> frames[handled].ErrorFrame?
      ensures connections == old(connections) + OfferedPeers(frames[..handled])
      ensures outbox == old(outbox) + Replies(ws, frames[..handled], old(connections), capture.targetResolution, failed)
    {
      ghost var resolution := capture.targetResolution;
      handled := 0;
      while handled < |frames| && handled < raisesAt && !frames[handled].ErrorFrame?
        invariant handled <= |frames| && handled <= raisesAt
        invariant forall i :: 0 <= i < handled ==> !frames[i].ErrorFrame?
        invariant websockets == old(websockets)
        invariant capture.targetResolution == resolution
        invariant connections == old(connections) + OfferedPeers(frames[..handled])
        invariant outbox == old(outbox) + Replies(ws, frames[..handled], old(connections), resolution, failed)
      {
        var f := frames[handled];
        ghost var conns, out := connections, outbox;
        if IsOffer(f) {
          OfferIsNew(frames, handled);
        }
        HandleFrame(ws, f, failed);
        ServeStep(ws, frames, handled, old(connections), old(outbox), resolution, failed,
                  conns, out, connections, outbox);
        handled := handled + 1;
      }
    }

    /** `websocket_handler` for one connection: the socket joins the set,
        the received frames are handled, and on every exit from the receive
        loop (the frames running out, an error frame, or receiving raising)
        the `finally` block removes the socket again. */
    method Serve(ws: Socket, frames: seq<WsFrame>, raisesAt: nat, failed: set<Socket>) returns (handled: nat)
      requires forall i :: 0 <= i < |frames| && IsOffer(frames[i]) ==> frames[i].pc !in connections
      requires forall i, j :: 0 <= i < j < |frames| && IsOffer(frames[i]) && IsOffer(frames[j]) ==>
                 frames[i].pc != frames[j].pc
      modifies this`websockets, this`connections, this`outbox
      ensures websockets == old(websockets) - {ws}
      ensures handled <= |frames| && handled <= raisesAt
      ensures forall i :: 0 <= i < handled ==> !frames[i].ErrorFrame?
      ensures handled < |frames| && handled < raisesAt ==> frames[handled].ErrorFrame?
      ensures connections == old(connections) + OfferedPeers(frames[..handled])
      ensures outbox == old(outbox) + Replies(ws, frames[..handled], old(connections), capture.targetResolution, failed)
    {
      Open(ws);
      handled := ReceiveLoop(ws, frames, raisesAt, failed);
      Close(ws);
    }

    /** The `connectionstatechange` callback when a peer connection closes. */
    method PeerClosed(pc: Peer)
      modifies this`connections
      ensures connections == old(connections) - {pc}
    {
      connections := connections - {pc};
    }

    /** `broadcast_message`: nothing on an empty set; otherwise every socket
        of a copy of the set is attempted exactly once, in some order, and
        exactly the sockets whose send raised are discarded. */
    method BroadcastMessage(payload: string, failed: set<Socket>) returns (ghost attempted: seq<Socket>)
      modifies this`websockets, this`outbox
      ensures forall s :: s in attempted <==> s in old(websockets)
      ensures forall i, j :: 0 <= i < j < |attempted| ==> attempted[i] != attempted[j]
      ensures websockets == old(websockets) - failed
      ensures outbox == old(outbox) + Delivered(attempted, payload, failed)
    {
      attempted := [];
      if websockets == {} {
        return;
      }
      var pending := websockets;
      while pending != {}
        invariant pending <= old(websockets)
        invariant forall s :: s in attempted <==> s in old(websockets) && s !in pending
        invariant forall i, j :: 0 <= i < j < |attempted| ==> attempted[i] != attempted[j]
        invariant websockets == old(websockets) - (failed - pending)
        invariant outbox == old(outbox) + Delivered(attempted, payload, failed)
        decreases pending
      {
        var ws :| ws in pending;
        ghost var set0, out := websockets, outbox;
        if ws in failed {
          websockets := websockets - {ws};
        } else {
          outbox := outbox + [Envelope(ws, Broadcast(payload))];
        }
        BroadcastStep(old(websockets), pending, attempted, ws, payload, failed,
                      set0, websockets, old(outbox), out, outbox);
        attempted := attempted + [ws];
        pending := pending - {ws};
      }
    }

    /** `cleanup`: every peer connection and every socket is closed and both
        sets end up empty. */
    method Cleanup()
      modifies this`connections, this`websockets
      ensures connections == {} && websockets == {}
    {
      connections := {};
      websockets := {};
    }
  }
}
