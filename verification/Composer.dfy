/**
 Submitting an end-to-end encrypted direct message from the web client: the transport first, then, on the relay path,
 the component's own `message.send` on top of the one the transport has already emitted.
 */
module Composer {
  import JsCollections
  import Transport
  import ClientStore
  import Delivery

  /** The entry the sender sees for a message that went directly. */
  function Shown(input: Transport.Outgoing): ClientStore.Message {
    Delivery.Entry(ClientStore.P2pLocal(input.clientMsgId), input.clientMsgId, input.channelId, input.ciphertext)
  }

  /** `emitted` counts the component's own `message.send` events.  Together with the transport's they are the
      submission's emissions, and the message is shown at once exactly when it went to the peer directly. */
  method SubmitEncrypted(
      transport: Transport.HybridTransport, client: ClientStore.MessageStore, input: Transport.Outgoing,
      env: Transport.Environment, p2pOnly: bool)
    returns (emitted: nat)
    modifies transport, client
    ensures transport.handOffs == old(transport.handOffs) + 
      [Transport.HandOff(if Transport.DirectSendWorks(env) then Transport.P2p else Transport.Relay, input)]
    ensures (if Transport.DirectSendWorks(env) then 0 else 1) + emitted == Delivery.Emissions(Delivery.OverTransport(env, p2pOnly))
    ensures client.View() ==
      if Delivery.RouteOf(Delivery.OverTransport(env, p2pOnly)) == Delivery.ViaP2p
      then ClientStore.Upserted(old(client.View()), Shown(input), ClientStore.Sent)
      else old(client.View())
    ensures emitted == 1 <==> !p2pOnly && !Transport.DirectSendWorks(env) && env.reply != Transport.NoReply
    ensures Transport.DirectSendWorks(env) ==>
      var id := ClientStore.P2pLocal(input.clientMsgId);
      client.View().messages.Get(id) ==
        JsCollections.Some(ClientStore.Message(id, input.channelId, input.clientMsgId, input.ciphertext))
  {
    emitted := 0;
    var result := transport.SendMessage(input, env);
    if result.None? {
      return;
    }
    if result.value.path == Transport.P2p {
      if result.value.ok {
        client.Upsert(Shown(input), ClientStore.Sent);
      }
      return;
    }
    if p2pOnly {
      return;
    }
    emitted := 1;
  }
}
