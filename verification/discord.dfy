/** The chat-platform entities the relay handler reads: users, channels and
    inbound messages. Only the fields the handler consults are kept. */
module Discord {

  /** A platform account; `bot` is the platform's automated-account flag. */
  datatype User = User(id: nat, bot: bool)

  /** The platform's channel kinds. */
  datatype ChannelType =
    | Text | Private | Voice | Group | Category | News
    | NewsThread | PublicThread | PrivateThread | StageVoice | Forum | Media

  datatype Channel = Channel(id: nat, kind: ChannelType)

  /** An inbound message. Attachments are received but never used, so they
      are not represented. */
  datatype Message = Message(author: User, mentions: seq<User>, channel: Channel, content: string)
}
