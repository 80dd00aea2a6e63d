/**
 * The parent-process actors of the mobile-message IPC protocol
 * (dom/mobilemessage/ipc/SmsParent.cpp): the silent-number list kept by
 * `SmsParent`, the filter that forwards silent SMS, the conversion of a
 * message object to its IPC form, and the one-shot guards of the request
 * and cursor actors.
 *
 * The SMS service, the IPC channel and IPDL's generated actor code are not
 * part of this model; what they answer is passed in. Deleting an actor
 * (`Send__delete__`) runs its `ActorDestroy`, as IPDL does.
 */
module SmsIpc {
  import opened Wrappers
  import opened NsResults
  import MmsMessage

  /** The IPC form of an SMS, as `SmsMessageInternal::GetData` yields it; opaque here. */
  datatype SmsMessageData = SmsMessageData(id: int, threadId: nat, sender: string, body: string)

  /** `MobileMessageData`: the IPC union of the two message kinds. */
  datatype MobileMessageData = SmsData(sms: SmsMessageData) | MmsData(mms: MmsMessage.MmsMessageData)

  /**
   * An `SmsMessageInternal`: its IPC form, and what `GetSender` yields
   * (`None` when it fails).
   */
  datatype SmsMessage = SmsMessage(data: SmsMessageData, sender: Option<string>)

  /**
   * An observer-notification subject: null, or an object that may answer
   * `do_QueryInterface` for the MMS interface, the SMS interface, both or
   * neither.
   */
  datatype Subject =
    | NullSubject
    | Object(asMms: Option<MmsMessage.MmsMessageInternal>, asSms: Option<SmsMessage>)

  /**
   * `GetMobileMessageDataFromMessage`: null fails; the MMS interface is
   * tried first, and then fails exactly when its `GetData` does; the SMS
   * interface always succeeds; anything else fails.
   */
  method GetMobileMessageDataFromMessage(subject: Subject, serialize: MmsMessage.BlobImpl -> Option<MmsMessage.IpcBlob>)
    returns (r: Option<MobileMessageData>)
    requires subject.Object? && subject.asMms.Some? ==> subject.asMms.value.Valid()
    ensures subject.NullSubject? ==> r.None?
    ensures subject.Object? && subject.asMms.Some? ==>
              && (r.Some? <==> subject.asMms.value.DataConvertible(serialize))
              && (r.Some? ==> r.value.MmsData? && subject.asMms.value.IsDataOf(r.value.mms, serialize))
    ensures subject.Object? && subject.asMms.None? && subject.asSms.Some? ==>
              r == Some(SmsData(subject.asSms.value.data))
    ensures subject.Object? && subject.asMms.None? && subject.asSms.None? ==> r.None?
  {
    if subject.NullSubject? {
      return None;
    }
    if subject.asMms.Some? {
      var data := subject.asMms.value.GetData(serialize);
      if data.None? {
        return None;
      }
      return Some(MmsData(data.value));
    }
    if subject.asSms.Some? {
      return Some(SmsData(subject.asSms.value.data));
    }
    return None;
  }

  predicate NoDuplicates<T(==)>(s: seq<T>)
  {
    forall i, j :: 0 <= i < j < |s| ==> s[i] != s[j]
  }

  /** `nsTArray::RemoveElement`: drop the first element equal to `x`, if any. */
  function RemoveFirst<T(==)>(s: seq<T>, x: T): (r: seq<T>)
    ensures x !in s ==> r == s
    ensures x in s ==> |r| == |s| - 1
    ensures multiset(r) == multiset(s) - multiset{x}
  {
    if s == [] then []
    else
      assert s == [s[0]] + s[1..];
      if s[0] == x then s[1..] else [s[0]] + RemoveFirst(s[1..], x)
  }

  /** In a list without duplicates, removing `x` removes it entirely and keeps the rest in order. */
  lemma {:induction false} RemoveFirstFromUnique<T>(s: seq<T>, x: T)
    requires NoDuplicates(s)
    ensures NoDuplicates(RemoveFirst(s, x))
    ensures x !in RemoveFirst(s, x)
    ensures forall y :: y != x ==> (y in RemoveFirst(s, x) <==> y in s)
  {
    if s != [] && s[0] != x {
      RemoveFirstFromUnique(s[1..], x);
      var rest := RemoveFirst(s[1..], x);
      assert RemoveFirst(s, x) == [s[0]] + rest;
      assert s[0] !in s[1..];
    } else if s != [] {
      assert x !in s[1..];
    }
  }

  /** The SMS service's answer: `None` when `do_GetService` found no service. */
  type ServiceAnswer = Option<NsResult>

  class SmsParent {
    var silentNumbers: seq<string>

    ghost predicate Valid()
      reads this
    {
      NoDuplicates(silentNumbers)
    }

    constructor()
      ensures Valid() && silentNumbers == []
    {
      silentNumbers := [];
    }

    /**
     * `RecvAddSilentNumber`: the service is asked only for a number not yet
     * in the list, and the number is kept only if the service accepted it.
     */
    method RecvAddSilentNumber(number: string, service: ServiceAnswer) returns (serviceAsked: bool)
      requires Valid()
      modifies this`silentNumbers
      ensures Valid()
      ensures serviceAsked <==> number !in old(silentNumbers) && service.Some?
      ensures silentNumbers ==
                if serviceAsked && service.value.Succeeded() then old(silentNumbers) + [number]
                else old(silentNumbers)
    {
      if number in silentNumbers {
        return false;
      }
      if service.None? {
        return false;
      }
      if service.value.Succeeded() {
        silentNumbers := silentNumbers + [number];
      }
      return true;
    }

    /**
     * `RecvRemoveSilentNumber`: the service is asked only for a number in
     * the list, and the number leaves the list only if the service agreed.
     */
    method RecvRemoveSilentNumber(number: string, service: ServiceAnswer) returns (serviceAsked: bool)
      requires Valid()
      modifies this`silentNumbers
      ensures Valid()
      ensures serviceAsked <==> number in old(silentNumbers) && service.Some?
      ensures silentNumbers ==
                if serviceAsked && service.value.Succeeded() then RemoveFirst(old(silentNumbers), number)
                else old(silentNumbers)
      ensures serviceAsked && service.value.Succeeded() ==> number !in silentNumbers
    {
      if number !in silentNumbers {
        return false;
      }
      if service.None? {
        return false;
      }
      if service.value.Succeeded() {
        RemoveFirstFromUnique(silentNumbers, number);
        silentNumbers := RemoveFirst(silentNumbers, number);
      }
      return true;
    }

    /**
     * The silent-SMS branch of `Observe`: the message's IPC form is
     * forwarded to the child only for an SMS whose sender is a silent number.
     */
    method ObserveSilentSms(subject: Subject) returns (forwarded: Option<SmsMessageData>)
      ensures forwarded.Some? <==>
                && subject.Object? && subject.asSms.Some?
                && subject.asSms.value.sender.Some?
                && subject.asSms.value.sender.value in silentNumbers
      ensures forwarded.Some? ==> forwarded.value == subject.asSms.value.data
    {
      if !subject.Object? || subject.asSms.None? {
        return None;
      }
      var sms := subject.asSms.value;
      if sms.sender.None? || sms.sender.value !in silentNumbers {
        return None;
      }
      return Some(sms.data);
    }
  }

  /** The reply a request actor sends as it is deleted; its contents are not modelled. */
  datatype MessageReply = MessageReply(kind: nat, error: int)

  class SmsRequestParent {
    var actorDestroyed: bool
    /** The replies handed to the IPC channel. */
    var sent: seq<MessageReply>

    /** At most one reply is ever sent, and only by an actor that is then gone. */
    ghost predicate Valid()
      reads this
    {
      |sent| <= 1 && (|sent| == 1 ==> actorDestroyed)
    }

    constructor()
      ensures Valid() && !actorDestroyed && sent == []
    {
      actorDestroyed := false;
      sent := [];
    }

    method ActorDestroy()
      requires Valid()
      modifies this`actorDestroyed
      ensures Valid() && actorDestroyed
    {
      actorDestroyed := true;
    }

    /**
     * `SendReply`: a destroyed actor fails without sending; otherwise the
     * reply goes out with the actor's deletion, and the result is whether
     * the channel took it (`delivered`).
     */
    method SendReply(reply: MessageReply, delivered: bool) returns (rv: NsResult)
      requires Valid()
      modifies this
      ensures Valid()
      ensures old(actorDestroyed) ==> rv == NsErrorFailure && sent == old(sent) && actorDestroyed
      ensures !old(actorDestroyed) ==>
                && sent == old(sent) + [reply] && actorDestroyed
                && (rv == NsOk <==> delivered)
                && (rv != NsOk ==> rv == NsErrorFailure)
    {
      if actorDestroyed {
        return NsErrorFailure;
      }
      // The deletion that carries the reply tears the actor down.
      ActorDestroy();
      sent := sent + [reply];
      rv := if delivered then NsOk else NsErrorFailure;
    }
  }

  /** `nsIMobileMessageCallback::SUCCESS_NO_ERROR`. */
  const SUCCESS_NO_ERROR: int := 0

  class MobileMessageCursorParent {
    /** Whether `mContinueCallback` is non-null. */
    var continueCallback: bool
    /** The error codes sent with the actor's deletion. */
    var terminal: seq<int>

    /** A terminal message is sent at most once, and never while a callback is held. */
    ghost predicate Valid()
      reads this
    {
      |terminal| + (if continueCallback then 1 else 0) <= 1
    }

    /** `hasCallback` says whether `DoRequest` obtained a continue callback from the database. */
    constructor(hasCallback: bool)
      ensures Valid() && continueCallback == hasCallback && terminal == []
    {
      continueCallback := hasCallback;
      terminal := [];
    }

    method ActorDestroy()
      requires Valid()
      modifies this`continueCallback
      ensures Valid() && !continueCallback
    {
      continueCallback := false;
    }

    /**
     * `NotifyCursorError`: without a callback it fails and sends nothing;
     * otherwise it drops the callback and sends `error` with the deletion.
     */
    method NotifyCursorError(error: int, delivered: bool) returns (rv: NsResult)
      requires Valid()
      modifies this
      ensures Valid() && !continueCallback
      ensures !old(continueCallback) ==> rv == NsErrorFailure && terminal == old(terminal)
      ensures old(continueCallback) ==>
                && terminal == old(terminal) + [error] && |terminal| == 1
                && (rv == NsOk <==> delivered)
                && (rv != NsOk ==> rv == NsErrorFailure)
    {
      if !continueCallback {
        return NsErrorFailure;
      }
      continueCallback := false;
      terminal := terminal + [error];
      ActorDestroy();
      rv := if delivered then NsOk else NsErrorFailure;
    }

    method NotifyCursorDone(delivered: bool) returns (rv: NsResult)
      requires Valid()
      modifies this
      ensures Valid() && !continueCallback
      ensures !old(continueCallback) ==> rv == NsErrorFailure && terminal == old(terminal)
      ensures old(continueCallback) ==> terminal == [SUCCESS_NO_ERROR] && (rv == NsOk <==> delivered)
    {
      rv := NotifyCursorError(SUCCESS_NO_ERROR, delivered);
    }
  }
}
