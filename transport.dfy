/** What the bot sees of the messaging client and what it asks the client to do.
    Inbound events and chat metadata arrive as values; every outbound call is
    recorded as an `Effect`, in the order the handler makes it. */
module Transport {
  import opened Js

  /** A group member: `participant.id._serialized` (the address used for a
      mention) and `participant.id.user` (the bare number shown after `@`). */
  datatype Participant = Participant(serialized: string, user: string)

  /** `msg.getChat()`: the chat's own address, whether it is a group, and its
      participant list, which is `None` when the client supplies none. */
  datatype Chat = Chat(id: string, isGroup: bool, participants: Option<seq<Participant>>)

  /** An inbound message: `msg.from` and `msg.body`. */
  datatype Message = Message(from: string, body: string)

  /** One outbound call: `sendMessage` to an address, with mention addresses
      (empty when the call passes none), or a mute/unmute request on a chat. */
  datatype Effect =
    | Send(to: string, text: string, mentions: seq<string>)
    | Mute(chat: string)
    | Unmute(chat: string)
}
