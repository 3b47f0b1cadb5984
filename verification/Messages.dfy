/** The message envelope shared by the offline paging code and the session protocol. */
module Messages {

  const INT64_MAX: int := 0x7FFF_FFFF_FFFF_FFFF

  /** A sequence number as stored: a signed 64-bit integer. */
  type Seq64 = x: int | -0x8000_0000_0000_0000 <= x <= 0x7FFF_FFFF_FFFF_FFFF

  /** The fields of sdkws::MsgData that recovery looks at. */
  datatype Message = Message(id: string, seqNo: Seq64, sendId: nat, recvId: nat,
                             isGroup: bool, sessionType: int)

  /** message_validation::IsSingleMessageFor. */
  predicate IsSingleMessageFor(owner: nat, m: Message) {
    owner != 0 && !m.isGroup && m.sessionType == 1 && m.recvId == owner && m.sendId != 0 && m.id != ""
  }

  ghost predicate Ascending(ms: seq<Message>) {
    forall i, j :: 0 <= i < j < |ms| ==> ms[i].seqNo < ms[j].seqNo
  }
}
