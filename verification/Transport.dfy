/**
 The hybrid transport: one hand-off per send (data channel or relay), and a bounded window that drops
 repeated incoming frames.
 */
module Transport {
  import opened JsCollections
  import opened Ids

  /** The largest number of client ids the transport remembers. */
  const CAPACITY: nat := 1000

  datatype Path = P2p | Relay

  datatype Outgoing = Outgoing(workspaceId: WorkspaceId, channelId: ChannelId, clientMsgId: ClientMsgId, ciphertext: string, target: UserId)

  datatype Incoming =
    | Malformed
    | AckFrame(clientMsgId: ClientMsgId)
    | MessageFrame(clientMsgId: ClientMsgId, workspaceId: WorkspaceId, channelId: ChannelId, ciphertext: string)
    | OtherFrame

  /** A data channel as the pool reports it; an open one may still throw on `send`. */
  datatype Channel = NoChannel | NotOpen | Open(throws: bool)

  datatype RelayReply = Accepted | Refused | NoReply

  /** What the browser and the server do during one send: the channel before and after the handshake,
      whether the peer is in cooldown, whether the handshake throws or times out, the relay's reply. */
  datatype Environment = Environment(
    before: Channel, inCooldown: bool, handshakeFails: bool, after: Channel, reply: RelayReply)

  datatype SendResult = SendResult(ok: bool, path: Path)

  /** A hand-off that went through: a frame accepted by a data channel, or an event emitted to the server. */
  datatype HandOff = HandOff(path: Path, message: Outgoing)

  predicate DirectSendWorks(env: Environment) {
    match env.before
    case Open(throws) => !throws
    case _ => !env.inCooldown && !env.handshakeFails && env.after == Open(false)
  }

  /** A direct attempt was made and failed, or the handshake did. */
  predicate PeerFails(env: Environment) {
    match env.before
    case Open(throws) => throws
    case _ => !env.inCooldown && (env.handshakeFails || env.after == Open(true))
  }

  class HybridTransport {
    /** A JavaScript `Set`, in insertion order. */
    var recentlyProcessed: seq<ClientMsgId>
    /** The calls of `onMessage`, in order. */
    var delivered: seq<Incoming>
    var handOffs: seq<HandOff>
    var failedPeers: set<UserId>

    constructor ()
      ensures recentlyProcessed == [] && delivered == [] && handOffs == [] && failedPeers == {}
    {
      recentlyProcessed, delivered, handOffs, failedPeers := [], [], [], {};
    }

    /** Exactly one hand-off goes through, by the reported path, and it is a direct one exactly when a direct
        send works.  The relay's rejection leaves no result. */
    method SendMessage(input: Outgoing, env: Environment) returns (result: Option<SendResult>)
      modifies this
      ensures recentlyProcessed == old(recentlyProcessed) && delivered == old(delivered)
      ensures handOffs == old(handOffs) + [HandOff(if DirectSendWorks(env) then P2p else Relay, input)]
      ensures failedPeers == if PeerFails(env) then old(failedPeers) + {input.target} else old(failedPeers)
      ensures result.None? <==> !DirectSendWorks(env) && env.reply == NoReply
      ensures result.Some? ==> result.value.path == handOffs[|handOffs| - 1].path
      ensures result.Some? ==> result.value.ok == (DirectSendWorks(env) || env.reply == Accepted)
      // an open channel is used at once, and blamed when it throws
      ensures env.before == Open(false) ==> handOffs[|handOffs| - 1].path == P2p && failedPeers == old(failedPeers)
      ensures env.before == Open(true) ==> handOffs[|handOffs| - 1].path == Relay && failedPeers == old(failedPeers) + {input.target}
      // without one, a peer in cooldown is not tried; any other is, by a handshake
      ensures !env.before.Open? && env.inCooldown ==> handOffs[|handOffs| - 1].path == Relay && failedPeers == old(failedPeers)
      ensures !env.before.Open? && !env.inCooldown ==>
        && (handOffs[|handOffs| - 1].path == P2p <==> !env.handshakeFails && env.after == Open(false))
        && (failedPeers == old(failedPeers) + if env.handshakeFails || env.after == Open(true) then {input.target} else {})
    {
      if env.before.Open? {
        var sent := SendViaP2p(env.before, input);
        if sent {
          return Some(SendResult(true, P2p));
        }
        failedPeers := failedPeers + {input.target};
        result := SendViaRelay(input, env.reply);
        return;
      }
      if !env.inCooldown {
        if env.handshakeFails {
          failedPeers := failedPeers + {input.target};
        } else if env.after.Open? {
          var sent := SendViaP2p(env.after, input);
          if sent {
            return Some(SendResult(true, P2p));
          }
          failedPeers := failedPeers + {input.target};
        }
      }
      result := SendViaRelay(input, env.reply);
    }

    method SendViaP2p(channel: Channel, input: Outgoing) returns (ok: bool)
      requires channel.Open?
      modifies this`handOffs
      ensures ok == !channel.throws
      ensures handOffs == if ok then old(handOffs) + [HandOff(P2p, input)] else old(handOffs)
    {
      ok := !channel.throws;
      if ok {
        handOffs := handOffs + [HandOff(P2p, input)];
      }
    }

    method SendViaRelay(input: Outgoing, reply: RelayReply) returns (result: Option<SendResult>)
      modifies this`handOffs
      ensures handOffs == old(handOffs) + [HandOff(Relay, input)]
      ensures result == if reply == NoReply then None else Some(SendResult(reply == Accepted, Relay))
    {
      handOffs := handOffs + [HandOff(Relay, input)];
      result := if reply == NoReply then None else Some(SendResult(reply == Accepted, Relay));
    }

    /** `handleIncomingP2pMessage`. */
    method HandleIncoming(frame: Incoming)
      modifies this
      ensures handOffs == old(handOffs) && failedPeers == old(failedPeers)
      ensures (recentlyProcessed, delivered) == Received(old(recentlyProcessed), old(delivered), frame)
    {
      if !frame.MessageFrame? {
        return;
      }
      if frame.clientMsgId in recentlyProcessed {
        return;
      }
      recentlyProcessed := recentlyProcessed + [frame.clientMsgId];
      if |recentlyProcessed| > CAPACITY {
        recentlyProcessed := recentlyProcessed[1..];
      }
      delivered := delivered + [frame];
    }
  }

  function Received(recent: seq<ClientMsgId>, log: seq<Incoming>, frame: Incoming): (seq<ClientMsgId>, seq<Incoming>) {
    if !frame.MessageFrame? || frame.clientMsgId in recent then (recent, log)
    else
      var added := recent + [frame.clientMsgId];
      (if |added| > CAPACITY then added[1..] else added, log + [frame])
  }

  function ReceivedAll(frames: seq<Incoming>): (seq<ClientMsgId>, seq<Incoming>) {
    if frames == [] then ([], [])
    else
      var (recent, log) := ReceivedAll(frames[..|frames| - 1]);
      Received(recent, log, frames[|frames| - 1])
  }

  function LastOf<T>(s: seq<T>, n: nat): seq<T> {
    if |s| <= n then s else s[|s| - n..]
  }

  /** The client ids of a log of deliveries (which holds message frames only). */
  function IdsOf(log: seq<Incoming>): seq<ClientMsgId>
    requires forall f :: f in log ==> f.MessageFrame?
  {
    seq(|log|, i requires 0 <= i < |log| => log[i].clientMsgId)
  }

  ghost predicate SpacedOut(ids: seq<ClientMsgId>) {
    forall i, j :: 0 <= i < j < |ids| && j - i <= CAPACITY ==> ids[i] != ids[j]
  }

  /** Over every sequence of incoming frames: the set is the last `CAPACITY` delivered ids in order, so it
      never grows past that; any `CAPACITY` + 1 consecutive deliveries are pairwise distinct. */
  lemma {:induction false} WindowRefinesLog(frames: seq<Incoming>)
    ensures var (recent, log) := ReceivedAll(frames);
      && (forall f :: f in log ==> f.MessageFrame?)
      && recent == LastOf(IdsOf(log), CAPACITY)
      && |recent| <= 1000
      && SpacedOut(IdsOf(log))
  {
    if frames != [] {
      var prefix := frames[..|frames| - 1];
      var frame := frames[|frames| - 1];
      WindowRefinesLog(prefix);
      var (recent, log) := ReceivedAll(prefix);
      var (recent', log') := ReceivedAll(frames);
      if log' != log {
        var ids := IdsOf(log);
        assert IdsOf(log') == ids + [frame.clientMsgId];
        forall i | 0 <= i < |ids| && |ids| - i <= CAPACITY
          ensures ids[i] != frame.clientMsgId
        {
          assert ids[i] == recent[i - (|ids| - |recent|)];
        }
      }
    }
  }

  /** A message frame is delivered exactly when its id is not among the last thousand delivered ones. */
  lemma DeliveredIff(frames: seq<Incoming>, frame: Incoming)
    ensures var log := ReceivedAll(frames).1;
      var log' := ReceivedAll(frames + [frame]).1;
      && (forall f :: f in log ==> f.MessageFrame?)
      && log' == (if frame.MessageFrame? && frame.clientMsgId !in LastOf(IdsOf(log), 1000) then log + [frame] else log)
  {
    WindowRefinesLog(frames);
    var more := frames + [frame];
    assert more[..|more| - 1] == frames && more[|more| - 1] == frame;
  }
}
