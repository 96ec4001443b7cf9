/** What the message-queue bus puts on the wire, and its special channels. */
module Mq {
  import opened Defs

  datatype UserMode = UserModeCustomer | UserModeServicer

  /** The one part of the wire record that is set. */
  datatype Payload =
    | MessagePart(message: Msg)
    | CreatePart(created: TalkId)
    | ClosePart
    | AttachPart(attachedBy: nat)
    | DetachPart(detachedBy: nat)
    | NoPart

  /** An empty channel id stands for the talk id. */
  datatype MqData = MqData(talkId: TalkId, channelId: string, payload: Payload)

  /** The channel a datum is sent on when it is not cached. */
  function ChannelOf(d: MqData): string {
    if d.channelId == "" then d.talkId else d.channelId
  }

  const SPECIAL_CUSTOMER: string := "customerC"
  const SPECIAL_SERVICER: string := "servicerC"
  const SPECIAL_ALL: string := "C"

  const TRACK_CAPACITY: nat := 10
  const SEND_CAPACITY: nat := 100

  function ExchangeName(id: string): string {
    "talk:" + id
  }

  lemma ExchangeNamesDiffer(a: string, b: string)
    ensures ExchangeName(a) == ExchangeName(b) <==> a == b
  {
    assert ExchangeName(a)[5..] == a && ExchangeName(b)[5..] == b;
  }

  /** The channel a process of this mode listens on besides the common one. */
  function SpecialTalk(mode: UserMode): string {
    if mode.UserModeServicer? then SPECIAL_SERVICER else SPECIAL_CUSTOMER
  }

  predicate Special(mode: UserMode, id: string) {
    id == SPECIAL_ALL || id == SpecialTalk(mode)
  }
}
