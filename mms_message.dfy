/**
 * `MmsMessageInternal` (dom/mobilemessage/MmsMessageInternal.cpp): the
 * XPCOM object for one MMS message, built either from already-decoded
 * script values (`Create`) or from its IPC form (`MmsMessageData`), and
 * turned back into its IPC form by `GetData`.
 *
 * The string constants come from dom/mobilemessage/Constants.h, which is
 * not part of this model; only their being pairwise distinct matters here.
 * Blobs are opaque handles; serialising and deserialising them is passed in.
 */
module MmsMessage {
  import opened Wrappers
  import opened NsResults

  datatype DeliveryState = Sent | Received | Sending | NotDownloaded | Error | Unknown

  datatype DeliveryStatus = NotApplicable | Success | Pending | Error | Reject | Manual

  datatype ReadStatus = NotApplicable | Success | Pending | Error

  const DELIVERY_SENT: string := "sent"
  const DELIVERY_RECEIVED: string := "received"
  const DELIVERY_SENDING: string := "sending"
  const DELIVERY_NOT_DOWNLOADED: string := "not-downloaded"
  const DELIVERY_ERROR: string := "error"

  const DELIVERY_STATUS_NOT_APPLICABLE: string := "not-applicable"
  const DELIVERY_STATUS_SUCCESS: string := "success"
  const DELIVERY_STATUS_PENDING: string := "pending"
  const DELIVERY_STATUS_ERROR: string := "error"
  const DELIVERY_STATUS_REJECTED: string := "rejected"
  const DELIVERY_STATUS_MANUAL: string := "manual"

  const READ_STATUS_NOT_APPLICABLE: string := "not-applicable"
  const READ_STATUS_SUCCESS: string := "success"
  const READ_STATUS_PENDING: string := "pending"
  const READ_STATUS_ERROR: string := "error"

  /** The string `GetDelivery` reports; `None` for the unknown state, on which the source crashes. */
  function DeliveryString(d: DeliveryState): Option<string>
  {
    match d
    case Sent => Some(DELIVERY_SENT)
    case Received => Some(DELIVERY_RECEIVED)
    case Sending => Some(DELIVERY_SENDING)
    case NotDownloaded => Some(DELIVERY_NOT_DOWNLOADED)
    case Error => Some(DELIVERY_ERROR)
    case Unknown => None
  }

  /** The delivery-string check at the top of `Create`. */
  function ParseDelivery(s: string): (r: Option<DeliveryState>)
    ensures r.Some? ==> DeliveryString(r.value) == Some(s)
    ensures r.None? ==> forall d: DeliveryState :: DeliveryString(d) != Some(s)
  {
    if s == DELIVERY_SENT then Some(Sent)
    else if s == DELIVERY_RECEIVED then Some(Received)
    else if s == DELIVERY_SENDING then Some(Sending)
    else if s == DELIVERY_NOT_DOWNLOADED then Some(NotDownloaded)
    else if s == DELIVERY_ERROR then Some(DeliveryState.Error)
    else None
  }

  lemma DeliveryRoundTrip(d: DeliveryState)
    ensures DeliveryString(d).None? <==> d == Unknown
    ensures DeliveryString(d).Some? ==> ParseDelivery(DeliveryString(d).value) == Some(d)
  {
  }

  /** The delivery-status switch of the `MmsMessageData` constructor. */
  function DeliveryStatusString(st: DeliveryStatus): string
  {
    match st
    case NotApplicable => DELIVERY_STATUS_NOT_APPLICABLE
    case Success => DELIVERY_STATUS_SUCCESS
    case Pending => DELIVERY_STATUS_PENDING
    case Error => DELIVERY_STATUS_ERROR
    case Reject => DELIVERY_STATUS_REJECTED
    case Manual => DELIVERY_STATUS_MANUAL
  }

  /** The delivery-status chain of `GetData`; `None` makes `GetData` fail. */
  function ParseDeliveryStatus(s: string): (r: Option<DeliveryStatus>)
    ensures r.Some? ==> DeliveryStatusString(r.value) == s
    ensures r.None? ==> forall st :: DeliveryStatusString(st) != s
  {
    if s == DELIVERY_STATUS_NOT_APPLICABLE then Some(DeliveryStatus.NotApplicable)
    else if s == DELIVERY_STATUS_SUCCESS then Some(DeliveryStatus.Success)
    else if s == DELIVERY_STATUS_PENDING then Some(DeliveryStatus.Pending)
    else if s == DELIVERY_STATUS_ERROR then Some(DeliveryStatus.Error)
    else if s == DELIVERY_STATUS_REJECTED then Some(Reject)
    else if s == DELIVERY_STATUS_MANUAL then Some(Manual)
    else None
  }

  lemma DeliveryStatusRoundTrip(st: DeliveryStatus)
    ensures ParseDeliveryStatus(DeliveryStatusString(st)) == Some(st)
  {
  }

  /** The read-status switch of the `MmsMessageData` constructor. */
  function ReadStatusString(st: ReadStatus): string
  {
    match st
    case NotApplicable => READ_STATUS_NOT_APPLICABLE
    case Success => READ_STATUS_SUCCESS
    case Pending => READ_STATUS_PENDING
    case Error => READ_STATUS_ERROR
  }

  /** The read-status chain of `GetData`; `None` makes `GetData` fail. */
  function ParseReadStatus(s: string): (r: Option<ReadStatus>)
    ensures r.Some? ==> ReadStatusString(r.value) == s
    ensures r.None? ==> forall st :: ReadStatusString(st) != s
  {
    if s == READ_STATUS_NOT_APPLICABLE then Some(ReadStatus.NotApplicable)
    else if s == READ_STATUS_SUCCESS then Some(ReadStatus.Success)
    else if s == READ_STATUS_PENDING then Some(ReadStatus.Pending)
    else if s == READ_STATUS_ERROR then Some(ReadStatus.Error)
    else None
  }

  lemma ReadStatusRoundTrip(st: ReadStatus)
    ensures ParseReadStatus(ReadStatusString(st)) == Some(st)
  {
  }

  /** Opaque handles: a blob's implementation, and its IPC form. */
  type BlobImpl = nat
  type IpcBlob = nat

  /** A DOM `Blob`, wrapping an implementation. */
  datatype Blob = Blob(impl: BlobImpl)

  /** The script-facing dictionaries (`MmsDeliveryInfo`, `MmsAttachment`). */
  datatype MmsDeliveryInfo = MmsDeliveryInfo(
    receiver: string, deliveryStatus: string, deliveryTimestamp: nat,
    readStatus: string, readTimestamp: nat)

  /** `content` is a nullable `RefPtr<Blob>`. */
  datatype MmsAttachment = MmsAttachment(id: string, location: string, content: Option<Blob>)

  /** The IPC structures (`MmsDeliveryInfoData`, `MmsAttachmentData`, `MmsMessageData`). */
  datatype MmsDeliveryInfoData = MmsDeliveryInfoData(
    receiver: string, deliveryStatus: DeliveryStatus, deliveryTimestamp: nat,
    readStatus: ReadStatus, readTimestamp: nat)

  datatype MmsAttachmentData = MmsAttachmentData(id: string, location: string, content: IpcBlob)

  datatype MmsMessageData = MmsMessageData(
    id: int, threadId: nat, iccId: string, delivery: DeliveryState,
    deliveryInfo: seq<MmsDeliveryInfoData>, sender: string, receivers: seq<string>,
    timestamp: nat, sentTimestamp: nat, read: bool, subject: string, smil: string,
    attachments: seq<MmsAttachmentData>, expiryDate: nat,
    readReportRequested: bool, isGroup: bool)

  /** One iteration of the delivery-info loop of the `MmsMessageData` constructor. */
  function InfoFromData(d: MmsDeliveryInfoData): (info: MmsDeliveryInfo)
    ensures ParseDeliveryStatus(info.deliveryStatus) == Some(d.deliveryStatus)
    ensures ParseReadStatus(info.readStatus) == Some(d.readStatus)
  {
    DeliveryStatusRoundTrip(d.deliveryStatus);
    ReadStatusRoundTrip(d.readStatus);
    MmsDeliveryInfo(d.receiver, DeliveryStatusString(d.deliveryStatus), d.deliveryTimestamp,
                    ReadStatusString(d.readStatus), d.readTimestamp)
  }

  /** One iteration of the delivery-info loop of `GetData`; `None` when a status string is unknown. */
  function InfoToData(info: MmsDeliveryInfo): (r: Option<MmsDeliveryInfoData>)
    ensures r.Some? <==> ParseDeliveryStatus(info.deliveryStatus).Some? && ParseReadStatus(info.readStatus).Some?
    ensures r.Some? ==> InfoFromData(r.value) == info
  {
    match (ParseDeliveryStatus(info.deliveryStatus), ParseReadStatus(info.readStatus))
    case (Some(status), Some(readStatus)) =>
      Some(MmsDeliveryInfoData(info.receiver, status, info.deliveryTimestamp, readStatus, info.readTimestamp))
    case _ => None
  }

  lemma InfoRoundTrip(d: MmsDeliveryInfoData)
    ensures InfoToData(InfoFromData(d)) == Some(d)
  {
  }

  /** The attachment the `MmsMessageData` constructor stores: id and location only, no content. */
  function AttachmentFromData(d: MmsAttachmentData): (a: MmsAttachment)
    ensures a.id == d.id && a.location == d.location && a.content.None?
  {
    MmsAttachment(d.id, d.location, None)
  }

  /**
   * One iteration of the attachment loop of `GetData` as written: the blob
   * is taken from the attachment's own `mContent`, which must not be null.
   */
  function AttachmentToDataAsWritten(a: MmsAttachment, serialize: BlobImpl -> Option<IpcBlob>): (r: Option<MmsAttachmentData>)
    requires a.content.Some?
    ensures r.Some? <==> serialize(a.content.value.impl).Some?
    ensures r.Some? ==> r.value.id == a.id && r.value.location == a.location
  {
    match serialize(a.content.value.impl)
    case Some(ipc) => Some(MmsAttachmentData(a.id, a.location, ipc))
    case None => None
  }

  /**
   * Every attachment of a message built from `MmsMessageData` has a null
   * content, so the as-written `GetData` loop dereferences null on it.
   */
  lemma DataAttachmentsBreakAsWrittenGetData(d: MmsMessageData, i: nat)
    requires i < |d.attachments|
    ensures !AttachmentFromData(d.attachments[i]).content.Some?
  {
  }

  /**
   * One iteration of the attachment loop of `GetData` as corrected: the blob
   * is the message's own `mBlobImpls[i]`, as `GetAttachments` uses.
   */
  function AttachmentToData(a: MmsAttachment, impl: BlobImpl, serialize: BlobImpl -> Option<IpcBlob>): (r: Option<MmsAttachmentData>)
    ensures r.Some? <==> serialize(impl).Some?
    ensures r.Some? ==> r.value == MmsAttachmentData(a.id, a.location, serialize(impl).value)
    ensures a.content == Some(Blob(impl)) ==> r == AttachmentToDataAsWritten(a, serialize)
  {
    match serialize(impl)
    case Some(ipc) => Some(MmsAttachmentData(a.id, a.location, ipc))
    case None => None
  }

  predicate AllHaveContent(attachments: seq<MmsAttachment>)
  {
    forall i :: 0 <= i < |attachments| ==> attachments[i].content.Some?
  }

  class MmsMessageInternal {
    const id: int
    const threadId: nat
    const iccId: string
    const delivery: DeliveryState
    const deliveryInfo: seq<MmsDeliveryInfo>
    const sender: string
    const receivers: seq<string>
    const timestamp: nat
    const sentTimestamp: nat
    const read: bool
    const subject: string
    const smil: string
    const attachments: seq<MmsAttachment>
    const blobImpls: seq<BlobImpl>
    const expiryDate: nat
    const readReportRequested: bool
    const isGroup: bool

    /** Attachment i's blob implementation is `blobImpls[i]`. */
    ghost predicate Valid()
    {
      |blobImpls| == |attachments|
    }

    /** The constructor `Create` uses; every attachment has a content blob. */
    constructor(id: int, threadId: nat, iccId: string, delivery: DeliveryState,
                deliveryInfo: seq<MmsDeliveryInfo>, sender: string, receivers: seq<string>,
                timestamp: nat, sentTimestamp: nat, read: bool, subject: string, smil: string,
                attachments: seq<MmsAttachment>, expiryDate: nat,
                readReportRequested: bool, isGroup: bool)
      requires AllHaveContent(attachments)
      ensures Valid()
      ensures this.id == id && this.threadId == threadId && this.iccId == iccId
      ensures this.delivery == delivery && this.deliveryInfo == deliveryInfo
      ensures this.sender == sender && this.receivers == receivers
      ensures this.timestamp == timestamp && this.sentTimestamp == sentTimestamp
      ensures this.read == read && this.subject == subject && this.smil == smil
      ensures this.attachments == attachments && this.expiryDate == expiryDate
      ensures this.readReportRequested == readReportRequested && this.isGroup == isGroup
      ensures forall i :: 0 <= i < |attachments| ==> blobImpls[i] == attachments[i].content.value.impl
    {
      var impls: seq<BlobImpl> := [];
      for i := 0 to |attachments|
        invariant |impls| == i
        invariant forall k :: 0 <= k < i ==> impls[k] == attachments[k].content.value.impl
      {
        impls := impls + [attachments[i].content.value.impl];
      }
      this.id := id;
      this.threadId := threadId;
      this.iccId := iccId;
      this.delivery := delivery;
      this.deliveryInfo := deliveryInfo;
      this.sender := sender;
      this.receivers := receivers;
      this.timestamp := timestamp;
      this.sentTimestamp := sentTimestamp;
      this.read := read;
      this.subject := subject;
      this.smil := smil;
      this.attachments := attachments;
      this.blobImpls := impls;
      this.expiryDate := expiryDate;
      this.readReportRequested := readReportRequested;
      this.isGroup := isGroup;
    }

    /** The constructor from the IPC form; `deserialize` is `IPCBlobUtils::Deserialize`. */
    constructor FromData(data: MmsMessageData, deserialize: IpcBlob -> BlobImpl)
      ensures Valid()
      ensures id == data.id && threadId == data.threadId && iccId == data.iccId
      ensures delivery == data.delivery && sender == data.sender && receivers == data.receivers
      ensures timestamp == data.timestamp && sentTimestamp == data.sentTimestamp
      ensures read == data.read && subject == data.subject && smil == data.smil
      ensures expiryDate == data.expiryDate
      ensures readReportRequested == data.readReportRequested && isGroup == data.isGroup
      ensures |attachments| == |data.attachments|
      ensures forall i :: 0 <= i < |attachments| ==>
                attachments[i] == AttachmentFromData(data.attachments[i])
                && blobImpls[i] == deserialize(data.attachments[i].content)
      ensures |deliveryInfo| == |data.deliveryInfo|
      ensures forall i :: 0 <= i < |deliveryInfo| ==> deliveryInfo[i] == InfoFromData(data.deliveryInfo[i])
    {
      var atts: seq<MmsAttachment> := [];
      var impls: seq<BlobImpl> := [];
      for i := 0 to |data.attachments|
        invariant |atts| == i && |impls| == i
        invariant forall k :: 0 <= k < i ==>
                    atts[k] == AttachmentFromData(data.attachments[k])
                    && impls[k] == deserialize(data.attachments[k].content)
      {
        var element := data.attachments[i];
        impls := impls + [deserialize(element.content)];
        atts := atts + [MmsAttachment(element.id, element.location, None)];
      }
      var infos: seq<MmsDeliveryInfo> := [];
      for i := 0 to |data.deliveryInfo|
        invariant |infos| == i
        invariant forall k :: 0 <= k < i ==> infos[k] == InfoFromData(data.deliveryInfo[k])
      {
        var infoData := data.deliveryInfo[i];
        var info := MmsDeliveryInfo(infoData.receiver, DeliveryStatusString(infoData.deliveryStatus),
                                    infoData.deliveryTimestamp, ReadStatusString(infoData.readStatus),
                                    infoData.readTimestamp);
        infos := infos + [info];
      }
      id := data.id;
      threadId := data.threadId;
      iccId := data.iccId;
      delivery := data.delivery;
      deliveryInfo := infos;
      sender := data.sender;
      receivers := data.receivers;
      timestamp := data.timestamp;
      sentTimestamp := data.sentTimestamp;
      read := data.read;
      subject := data.subject;
      smil := data.smil;
      attachments := atts;
      blobImpls := impls;
      expiryDate := data.expiryDate;
      readReportRequested := data.readReportRequested;
      isGroup := data.isGroup;
    }

    /** Every stored status string is known and every blob serialises. */
    predicate DataConvertible(serialize: BlobImpl -> Option<IpcBlob>)
    {
      && (forall i :: 0 <= i < |deliveryInfo| ==> InfoToData(deliveryInfo[i]).Some?)
      && (forall i :: 0 <= i < |blobImpls| ==> serialize(blobImpls[i]).Some?)
    }

    /**
     * `data` is this message's IPC form: every field copied, each delivery
     * entry converted and each attachment serialised through its blob.
     */
    predicate IsDataOf(data: MmsMessageData, serialize: BlobImpl -> Option<IpcBlob>)
      requires Valid()
    {
      && data.id == id && data.threadId == threadId && data.iccId == iccId
      && data.delivery == delivery && data.sender == sender && data.receivers == receivers
      && data.timestamp == timestamp && data.sentTimestamp == sentTimestamp
      && data.read == read && data.subject == subject && data.smil == smil
      && data.expiryDate == expiryDate
      && data.readReportRequested == readReportRequested && data.isGroup == isGroup
      && |data.deliveryInfo| == |deliveryInfo|
      && (forall i :: 0 <= i < |deliveryInfo| ==> InfoFromData(data.deliveryInfo[i]) == deliveryInfo[i])
      && |data.attachments| == |attachments|
      && (forall i :: 0 <= i < |attachments| ==>
            AttachmentToData(attachments[i], blobImpls[i], serialize) == Some(data.attachments[i]))
    }

    /**
     * The IPC form of this message; `None` when a stored status string is
     * unknown or a blob fails to serialise.
     */
    method GetData(serialize: BlobImpl -> Option<IpcBlob>) returns (r: Option<MmsMessageData>)
      requires Valid()
      ensures r.Some? <==> DataConvertible(serialize)
      ensures r.Some? ==> IsDataOf(r.value, serialize)
    {
      var infos: seq<MmsDeliveryInfoData> := [];
      for i := 0 to |deliveryInfo|
        invariant |infos| == i
        invariant forall k :: 0 <= k < i ==> InfoToData(deliveryInfo[k]) == Some(infos[k])
      {
        var converted := InfoToData(deliveryInfo[i]);
        if converted.None? {
          return None;
        }
        infos := infos + [converted.value];
      }
      var atts: seq<MmsAttachmentData> := [];
      for i := 0 to |attachments|
        invariant |atts| == i
        invariant forall k :: 0 <= k < i ==> AttachmentToData(attachments[k], blobImpls[k], serialize) == Some(atts[k])
      {
        var converted := AttachmentToData(attachments[i], blobImpls[i], serialize);
        if converted.None? {
          return None;
        }
        atts := atts + [converted.value];
      }
      r := Some(MmsMessageData(id, threadId, iccId, delivery, infos, sender, receivers,
                               timestamp, sentTimestamp, read, subject, smil, atts,
                               expiryDate, readReportRequested, isGroup));
    }

    /**
     * `GetDelivery`: the string form of the delivery state; `None` stands
     * for the crash on the unknown state.
     */
    function GetDelivery(): (s: Option<string>)
      ensures s.None? <==> delivery == Unknown
      ensures s.Some? ==> ParseDelivery(s.value) == Some(delivery)
    {
      DeliveryString(delivery)
    }

    /** `GetDeliveryInfo`: null for an empty list, else the list. */
    function GetDeliveryInfo(): (r: Option<seq<MmsDeliveryInfo>>)
      ensures r.None? <==> |deliveryInfo| == 0
      ensures r.Some? ==> r.value == deliveryInfo
    {
      if |deliveryInfo| == 0 then None else Some(deliveryInfo)
    }

    /**
     * `GetAttachments`: null for an empty list, else a copy of each
     * attachment whose content is a new `Blob` over `blobImpls[i]`.
     */
    method GetAttachments() returns (r: Option<seq<MmsAttachment>>)
      requires Valid()
      ensures r.None? <==> |attachments| == 0
      ensures r.Some? ==>
                && |r.value| == |attachments|
                && forall i :: 0 <= i < |attachments| ==>
                     r.value[i] == MmsAttachment(attachments[i].id, attachments[i].location, Some(Blob(blobImpls[i])))
    {
      if |attachments| == 0 {
        return None;
      }
      var result: seq<MmsAttachment> := [];
      for i := 0 to |attachments|
        invariant |result| == i
        invariant forall k :: 0 <= k < i ==>
                    result[k] == MmsAttachment(attachments[k].id, attachments[k].location, Some(Blob(blobImpls[k])))
      {
        var element := attachments[i];
        result := result + [MmsAttachment(element.id, element.location, Some(Blob(blobImpls[i])))];
      }
      r := Some(result);
    }
  }

  /**
   * `Create`, with its script-value inputs already decoded: the delivery
   * string must be known and every attachment must carry a blob.
   */
  method Create(id: int, threadId: nat, iccId: string, delivery: string,
                deliveryInfo: seq<MmsDeliveryInfo>, sender: string, receivers: seq<string>,
                timestamp: nat, sentTimestamp: nat, read: bool, subject: string, smil: string,
                attachments: seq<MmsAttachment>, expiryDate: nat,
                readReportRequested: bool, isGroup: bool)
    returns (rv: NsResult, message: MmsMessageInternal?)
    ensures ParseDelivery(delivery).None? ==> rv == NsErrorInvalidArg
    ensures ParseDelivery(delivery).Some? && !AllHaveContent(attachments) ==> rv == NsErrorUnexpected
    ensures rv == NsOk <==> ParseDelivery(delivery).Some? && AllHaveContent(attachments)
    ensures rv != NsOk ==> message == null
    ensures rv == NsOk ==>
              && message != null && fresh(message) && message.Valid()
              && message.delivery == ParseDelivery(delivery).value
              && message.GetDelivery() == Some(delivery)
              && message.deliveryInfo == deliveryInfo && message.attachments == attachments
              && message.id == id && message.threadId == threadId && message.iccId == iccId
              && message.sender == sender && message.receivers == receivers
              && message.timestamp == timestamp && message.sentTimestamp == sentTimestamp
              && message.read == read && message.subject == subject && message.smil == smil
              && message.expiryDate == expiryDate
              && message.readReportRequested == readReportRequested && message.isGroup == isGroup
              && forall i :: 0 <= i < |attachments| ==> message.blobImpls[i] == attachments[i].content.value.impl
  {
    var state := ParseDelivery(delivery);
    if state.None? {
      return NsErrorInvalidArg, null;
    }
    for i := 0 to |attachments|
      invariant AllHaveContent(attachments[..i])
    {
      if attachments[i].content.None? {
        return NsErrorUnexpected, null;
      }
    }
    assert attachments[..|attachments|] == attachments;
    message := new MmsMessageInternal(id, threadId, iccId, state.value, deliveryInfo, sender, receivers,
                                      timestamp, sentTimestamp, read, subject, smil, attachments,
                                      expiryDate, readReportRequested, isGroup);
    rv := NsOk;
  }

  /**
   * A message rebuilt from its IPC form yields that form again from
   * `GetData`, given blob serialisation that undoes deserialisation.
   */
  method DataRoundTrip(data: MmsMessageData, serialize: BlobImpl -> Option<IpcBlob>, deserialize: IpcBlob -> BlobImpl)
    returns (r: Option<MmsMessageData>)
    requires forall ipc: IpcBlob :: serialize(deserialize(ipc)) == Some(ipc)
    ensures r == Some(data)
  {
    var message := new MmsMessageInternal.FromData(data, deserialize);
    r := message.GetData(serialize);
    forall i | 0 <= i < |message.deliveryInfo|
      ensures InfoToData(message.deliveryInfo[i]).Some?
    {
      InfoRoundTrip(data.deliveryInfo[i]);
    }
    var d := r.value;
    assert d.deliveryInfo == data.deliveryInfo by {
      forall i | 0 <= i < |d.deliveryInfo|
        ensures d.deliveryInfo[i] == data.deliveryInfo[i]
      {
        InfoRoundTrip(data.deliveryInfo[i]);
        assert InfoToData(InfoFromData(d.deliveryInfo[i])) == Some(d.deliveryInfo[i]) by {
          InfoRoundTrip(d.deliveryInfo[i]);
        }
      }
    }
    assert d.attachments == data.attachments;
  }
}
