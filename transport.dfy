/** The messaging transport as the bot sees it: the messages it can send and an outbox that records
    them in order. The WhatsApp socket itself is not modelled. */
module Transport {

  /** The key of an inbound message, as needed to delete it. */
  datatype MessageKey = MessageKey(remoteJid: string, participant: string, id: string)

  /** One `sock.sendMessage(groupId, content)` call. */
  datatype Outbound =
    | Text(group: string, text: string, mentions: seq<string>)
    | Image(group: string, url: string, caption: string)
    | Audio(group: string, url: string, mentions: seq<string>)
    | Delete(group: string, key: MessageKey)

  /** Sending two runs of messages one after the other sends their concatenation. */
  lemma SendRuns(sent: seq<Outbound>, first: seq<Outbound>, second: seq<Outbound>)
    ensures sent + first + second == sent + (first + second)
  {
  }

  /** Every message sent so far, oldest first. */
  class Outbox {
    var sent: seq<Outbound>

    constructor ()
      ensures sent == []
    {
      sent := [];
    }

    method Send(m: Outbound)
      modifies this
      ensures sent == old(sent) + [m]
    {
      sent := sent + [m];
    }
  }
}
