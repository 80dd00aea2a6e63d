/**
 * The Gonk content-decryption adapter (dom/media/eme/gonk/GonkDrmSupport.cpp):
 * the status and request-type mappings between Android's `DrmPlugin` and
 * EME, the table of open sessions indexed both by EME session id and by DRM
 * session id, and the guarded session transitions (update, remove, close,
 * reset).
 *
 * The DRM plugin, persistent storage and the shared key table are not part
 * of this model beyond what they answer, which is passed in.
 * GonkDrmSessionInfo and GonkDrmSharedData are not part of this model
 * either; the fields and calls used here are modelled from their use in
 * GonkDrmSupport.cpp.
 */
module GonkDrm {
  import opened Wrappers

  type Bytes = seq<bv8>

  /** Android `status_t`. */
  type Status = int
  const OK: Status := 0
  const UNKNOWN_ERROR: Status := -0x8000_0000

  /** `GonkDrmKeyStatus`, read from the plugin as a raw 32-bit integer. */
  const KEY_STATUS_USABLE: int := 0
  const KEY_STATUS_EXPIRED: int := 1
  const KEY_STATUS_OUTPUT_NOT_ALLOWED: int := 2
  const KEY_STATUS_PENDING: int := 3
  const KEY_STATUS_INTERNAL_ERROR: int := 4
  const KEY_STATUS_USABLE_IN_FUTURE: int := 5

  /** The EME `MediaKeyStatus` enumeration. */
  datatype MediaKeyStatus =
    | Usable | Expired | Released | OutputRestricted | OutputDownscaled | StatusPending | InternalError

  /** `ConvertToMediaKeyStatus`. */
  function ConvertToMediaKeyStatus(status: int): (r: MediaKeyStatus)
    ensures r == Usable <==> status == KEY_STATUS_USABLE
    ensures r == Expired <==> status == KEY_STATUS_EXPIRED
    ensures r == OutputRestricted <==> status == KEY_STATUS_OUTPUT_NOT_ALLOWED
    ensures r == StatusPending <==> status == KEY_STATUS_PENDING
    ensures r == InternalError <==> !(KEY_STATUS_USABLE <= status <= KEY_STATUS_PENDING)
  {
    if status == KEY_STATUS_USABLE then Usable
    else if status == KEY_STATUS_EXPIRED then Expired
    else if status == KEY_STATUS_OUTPUT_NOT_ALLOWED then OutputRestricted
    else if status == KEY_STATUS_PENDING then StatusPending
    else InternalError
  }

  /** `DrmPlugin::KeyType`. */
  datatype KeyType = Streaming | Offline | Release

  /** `DrmPlugin::KeyRequestType`. */
  datatype KeyRequestType = Unknown | Initial | Renewal | ReleaseRequest | NoRequest | Update

  /** The EME `MediaKeyMessageType` enumeration. */
  datatype MediaKeyMessageType = LicenseRequest | LicenseRenewal | LicenseRelease | IndividualizationRequest

  /** The key type `GetKeyRequest` asks for. */
  function KeyTypeFor(released: bool, temporary: bool): (k: KeyType)
    ensures k == Release <==> released
    ensures k == Streaming <==> !released && temporary
    ensures k == Offline <==> !released && !temporary
  {
    if released then Release else if temporary then Streaming else Offline
  }

  /** The message type a key request is sent as; `None` makes `GetKeyRequest` fail. */
  function MessageTypeFor(t: KeyRequestType): (r: Option<MediaKeyMessageType>)
    ensures r.Some? <==> t in {Initial, Renewal, ReleaseRequest}
    ensures r == Some(LicenseRequest) <==> t == Initial
    ensures r == Some(LicenseRenewal) <==> t == Renewal
    ensures r == Some(LicenseRelease) <==> t == ReleaseRequest
  {
    match t
    case Initial => Some(LicenseRequest)
    case Renewal => Some(LicenseRenewal)
    case ReleaseRequest => Some(LicenseRelease)
    case _ => None
  }

  /** `GonkDrmSessionInfo`: one EME session and the DRM session behind it. */
  class SessionInfo {
    const emeId: string
    const drmId: Bytes
    const temporary: bool
    var released: bool
    var keySetId: Bytes
    var mimeType: string

    constructor(emeId: string, drmId: Bytes, temporary: bool)
      ensures this.emeId == emeId && this.drmId == drmId && this.temporary == temporary
      ensures !released && keySetId == [] && mimeType == ""
    {
      this.emeId := emeId;
      this.drmId := drmId;
      this.temporary := temporary;
      released := false;
      keySetId := [];
      mimeType := "";
    }

    /** The id a key request or response is addressed to: the key-set id once released. */
    function RequestId(): (id: Bytes)
      reads this
      ensures released ==> id == keySetId
      ensures !released ==> id == drmId
    {
      if released then keySetId else drmId
    }
  }

  lemma ValuesAfterInsert<K, V>(m: map<K, V>, k: K, v: V)
    requires k !in m
    ensures m[k := v].Values == m.Values + {v}
  {
    forall x | x in m[k := v].Values ensures x in m.Values + {v} {
      var j :| j in m[k := v] && m[k := v][j] == x;
      if j != k {
        assert m[j] == x;
      }
    }
    forall x | x in m.Values ensures x in m[k := v].Values {
      var j :| j in m && m[j] == x;
      assert m[k := v][j] == x;
    }
    assert m[k := v][k] == v;
  }

  lemma ValuesAfterRemove<K, V>(m: map<K, V>, k: K)
    requires k in m
    requires forall j | j in m && m[j] == m[k] :: j == k
    ensures (m - {k}).Values == m.Values - {m[k]}
  {
    forall x | x in m.Values - {m[k]} ensures x in (m - {k}).Values {
      var j :| j in m && m[j] == x;
      assert (m - {k})[j] == x;
    }
  }

  /** Distinct sessions of the DRM-id index have distinct DRM ids. */
  lemma DistinctSessionsDistinctDrmIds(m: SessionManager, r: seq<SessionInfo>)
    requires m.Valid()
    requires forall s :: s in r ==> s in m.byDrmId.Values
    requires forall i, j :: 0 <= i < j < |r| ==> r[i] != r[j]
    ensures forall i, j :: 0 <= i < j < |r| ==> r[i].drmId != r[j].drmId
  {
    forall i, j | 0 <= i < j < |r|
      ensures r[i].drmId != r[j].drmId
    {
      assert r[i] in m.byDrmId.Values && r[j] in m.byDrmId.Values;
      var a :| a in m.byDrmId && m.byDrmId[a] == r[i];
      var b :| b in m.byDrmId && m.byDrmId[b] == r[j];
    }
  }

  /** `SessionManager`: the open sessions, by EME id and by DRM id. */
  class SessionManager {
    var byEmeId: map<string, SessionInfo>
    var byDrmId: map<Bytes, SessionInfo>

    /** Every entry is filed under its own session's id. */
    ghost predicate Valid()
      reads this
    {
      && (forall e | e in byEmeId :: byEmeId[e].emeId == e)
      && (forall d | d in byDrmId :: byDrmId[d].drmId == d)
    }

    /** Both indexes hold the same sessions. */
    ghost predicate InSync()
      reads this
    {
      byEmeId.Values == byDrmId.Values
    }

    constructor()
      ensures Valid() && InSync() && byEmeId == map[] && byDrmId == map[]
    {
      byEmeId := map[];
      byDrmId := map[];
    }

    function FindByEmeId(emeId: string): (r: SessionInfo?)
      requires Valid()
      reads this
      ensures r != null <==> emeId in byEmeId
      ensures r != null ==> r == byEmeId[emeId] && r.emeId == emeId
    {
      if emeId in byEmeId then byEmeId[emeId] else null
    }

    function FindByDrmId(drmId: Bytes): (r: SessionInfo?)
      requires Valid()
      reads this
      ensures r != null <==> drmId in byDrmId
      ensures r != null ==> r == byDrmId[drmId] && r.drmId == drmId
    {
      if drmId in byDrmId then byDrmId[drmId] else null
    }

    /**
     * Files `s` under both of its ids, replacing whatever was there. The
     * indexes stay in sync when neither id was in use, or both named `s`.
     */
    method Add(s: SessionInfo)
      requires Valid()
      modifies this
      ensures Valid()
      ensures byEmeId == old(byEmeId)[s.emeId := s] && byDrmId == old(byDrmId)[s.drmId := s]
      ensures FindByEmeId(s.emeId) == s && FindByDrmId(s.drmId) == s
      ensures old(InSync()) && s.emeId !in old(byEmeId) && s.drmId !in old(byDrmId) ==> InSync()
    {
      byEmeId := byEmeId[s.emeId := s];
      byDrmId := byDrmId[s.drmId := s];
      if old(InSync()) && s.emeId !in old(byEmeId) && s.drmId !in old(byDrmId) {
        ValuesAfterInsert(old(byEmeId), s.emeId, s);
        ValuesAfterInsert(old(byDrmId), s.drmId, s);
      }
    }

    /** Erases the entries under `s`'s two ids. */
    method Remove(s: SessionInfo)
      requires Valid()
      modifies this
      ensures Valid()
      ensures byEmeId == old(byEmeId) - {s.emeId} && byDrmId == old(byDrmId) - {s.drmId}
      ensures FindByEmeId(s.emeId) == null && FindByDrmId(s.drmId) == null
      ensures (&& old(InSync()) && s.emeId in old(byEmeId) && old(byEmeId)[s.emeId] == s
               && s.drmId in old(byDrmId) && old(byDrmId)[s.drmId] == s) ==> InSync()
    {
      byEmeId := byEmeId - {s.emeId};
      byDrmId := byDrmId - {s.drmId};
      if old(InSync()) && s.emeId in old(byEmeId) && old(byEmeId)[s.emeId] == s
         && s.drmId in old(byDrmId) && old(byDrmId)[s.drmId] == s {
        ValuesAfterRemove(old(byEmeId), s.emeId);
        ValuesAfterRemove(old(byDrmId), s.drmId);
      }
    }

    method Clear()
      modifies this
      ensures Valid() && InSync()
      ensures byEmeId == map[] && byDrmId == map[]
    {
      byEmeId := map[];
      byDrmId := map[];
    }

    /** Every session in the DRM-id index, each once. */
    method All() returns (r: seq<SessionInfo>)
      requires Valid()
      ensures forall s :: s in r <==> s in byDrmId.Values
      ensures forall i, j :: 0 <= i < j < |r| ==> r[i] != r[j]
    {
      r := [];
      var pending := byDrmId.Keys;
      while pending != {}
        invariant pending <= byDrmId.Keys
        invariant forall i :: 0 <= i < |r| ==> r[i].drmId in byDrmId && r[i].drmId !in pending && byDrmId[r[i].drmId] == r[i]
        invariant forall d :: d in byDrmId && d !in pending ==> byDrmId[d] in r
        invariant forall i, j :: 0 <= i < j < |r| ==> r[i] != r[j]
        decreases pending
      {
        var d :| d in pending;
        r := r + [byDrmId[d]];
        pending := pending - {d};
      }
      forall s | s in byDrmId.Values ensures s in r {
        var d :| d in byDrmId && byDrmId[d] == s;
      }
    }
  }

  /** `GonkDrmSharedData`, as far as GonkDrmSupport.cpp drives it. */
  class SharedData {
    var cryptoSessionId: Bytes
    /** The (DRM session id, key id) pairs passed to `AddKey`, in order. */
    var addedKeys: seq<(Bytes, Bytes)>
    /** The DRM session ids passed to `RemoveSession`, in order. */
    var removedSessions: seq<Bytes>

    constructor()
      ensures cryptoSessionId == [] && addedKeys == [] && removedSessions == []
    {
      cryptoSessionId := [];
      addedKeys := [];
      removedSessions := [];
    }

    method SetCryptoSessionId(id: Bytes)
      modifies this`cryptoSessionId
      ensures cryptoSessionId == id
    {
      cryptoSessionId := id;
    }

    method AddKey(drmId: Bytes, keyId: Bytes)
      modifies this`addedKeys
      ensures addedKeys == old(addedKeys) + [(drmId, keyId)]
    {
      addedKeys := addedKeys + [(drmId, keyId)];
    }

    method RemoveSession(drmId: Bytes)
      modifies this`removedSessions
      ensures removedSessions == old(removedSessions) + [drmId]
    {
      removedSessions := removedSessions + [drmId];
    }
  }

  /** A key id and its status, as reported to EME (`CDMKeyInfo`). */
  datatype KeyInfo = KeyInfo(keyId: Bytes, status: Option<MediaKeyStatus>)

  /** The keys `NotifyKeyStatus` registers: every reported one but the dummy, in order. */
  function RegisteredKeys(drmId: Bytes, infos: seq<KeyInfo>, dummyKeyId: Bytes): (r: seq<(Bytes, Bytes)>)
    ensures forall p :: p in r ==> p.0 == drmId && p.1 != dummyKeyId
    ensures forall i :: 0 <= i < |infos| && infos[i].keyId != dummyKeyId ==> (drmId, infos[i].keyId) in r
  {
    if infos == [] then []
    else
      (if infos[0].keyId != dummyKeyId then [(drmId, infos[0].keyId)] else [])
      + RegisteredKeys(drmId, infos[1..], dummyKeyId)
  }

  lemma {:induction false} RegisteredKeysSnoc(drmId: Bytes, infos: seq<KeyInfo>, info: KeyInfo, dummyKeyId: Bytes)
    ensures RegisteredKeys(drmId, infos + [info], dummyKeyId)
            == RegisteredKeys(drmId, infos, dummyKeyId)
               + (if info.keyId != dummyKeyId then [(drmId, info.keyId)] else [])
  {
    if infos == [] {
      assert infos + [info] == [info];
    } else {
      assert (infos + [info])[1..] == infos[1..] + [info];
      RegisteredKeysSnoc(drmId, infos[1..], info, dummyKeyId);
    }
  }

  /** What the DRM plugin's `getKeyRequest` answers. */
  datatype KeyRequestAnswer =
    | KeyRequestError(err: Status)
    | KeyRequestMade(request: Bytes, requestType: KeyRequestType)

  /** The arguments `getKeyRequest` is called with. */
  datatype KeyRequestCall = KeyRequestCall(id: Bytes, initData: Bytes, mimeType: string, keyType: KeyType)

  /** A key request ready to be sent to the application. */
  datatype KeyRequest = KeyRequest(messageType: MediaKeyMessageType, message: Bytes)

  /** How a session operation ends: its promise is resolved, or rejected with a reason. */
  datatype Outcome = Succeeded | Failed(reason: Reason)

  datatype Reason =
    | SessionNotFound            // "session not found"
    | SessionNotPersistent       // "session not persistent"
    | KeySetIdNotFound           // "key set ID not found"
    | GetKeyRequestFailed        // "GetKeyRequest failed"
    | ProvideKeyResponseFailed(err: Status)
    | CloseSessionFailed         // "closeSession failed"
    | StorageFailed(message: string)

  /** What persistent storage answers to a save or an erase. */
  datatype StorageAnswer = Stored | StorageError(message: string)

  function StorageOutcome(a: StorageAnswer): (o: Outcome)
    ensures o.Succeeded? <==> a.Stored?
  {
    match a
    case Stored => Succeeded
    case StorageError(m) => Failed(StorageFailed(m))
  }

  class GonkDrmSupport {
    /** Whether `mDrm` holds a plugin. */
    var drmOpen: bool
    var sharedData: SharedData?
    const sessions: SessionManager
    var initPromiseId: nat
    var hasCallback: bool
    var hasStorage: bool
    const dummyKeyId: Bytes

    ghost predicate Valid()
      reads this, sessions
    {
      sessions.Valid()
    }

    constructor(dummyKeyId: Bytes)
      ensures Valid() && fresh(sessions)
      ensures !drmOpen && sharedData == null && sessions.byEmeId == map[] && sessions.byDrmId == map[]
      ensures this.dummyKeyId == dummyKeyId
    {
      drmOpen := false;
      sharedData := null;
      sessions := new SessionManager();
      initPromiseId := 0;
      hasCallback := false;
      hasStorage := false;
      this.dummyKeyId := dummyKeyId;
    }

    /**
     * `GetKeyRequest`: asks the plugin for a request of the session's key
     * type, addressed to its request id, and accepts only the three license
     * request types.
     */
    method GetKeyRequest(session: SessionInfo, initData: Bytes, answer: KeyRequestAnswer)
      returns (r: Option<KeyRequest>, call: KeyRequestCall)
      ensures call == KeyRequestCall(session.RequestId(), initData, session.mimeType,
                                     KeyTypeFor(session.released, session.temporary))
      ensures r.Some? <==> answer.KeyRequestMade? && MessageTypeFor(answer.requestType).Some?
      ensures r.Some? ==> r.value == KeyRequest(MessageTypeFor(answer.requestType).value, answer.request)
    {
      var keyType := KeyTypeFor(session.released, session.temporary);
      var id := if session.released then session.keySetId else session.drmId;
      call := KeyRequestCall(id, initData, session.mimeType, keyType);
      if answer.KeyRequestError? {
        return None, call;
      }
      var messageType := MessageTypeFor(answer.requestType);
      if messageType.None? {
        return None, call;
      }
      r := Some(KeyRequest(messageType.value, answer.request));
    }

    /**
     * `OpenDrmSession`: `openAnswer` is the plugin's `openSession` answer (a new
     * DRM session id, or an error) and `infoCreated` whether the session-info
     * object could be made; `emeId` is the EME id it is given.
     */
    method OpenDrmSession(temporary: bool, emeId: string, openAnswer: Result<Bytes, Status>, infoCreated: bool)
      returns (session: SessionInfo?, err: Status)
      requires Valid() && drmOpen
      requires openAnswer.Err? ==> openAnswer.error != OK
      modifies sessions
      ensures Valid()
      ensures openAnswer.Err? ==> session == null && err == openAnswer.error && unchanged(sessions)
      ensures openAnswer.Ok? && !infoCreated ==> session == null && err == UNKNOWN_ERROR && unchanged(sessions)
      ensures openAnswer.Ok? && infoCreated ==>
                && session != null && fresh(session) && err == OK
                && session.drmId == openAnswer.value && session.emeId == emeId && session.temporary == temporary
                && sessions.FindByEmeId(emeId) == session && sessions.FindByDrmId(openAnswer.value) == session
                && sessions.byEmeId == old(sessions.byEmeId)[emeId := session]
                && sessions.byDrmId == old(sessions.byDrmId)[openAnswer.value := session]
    {
      if openAnswer.Err? {
        return null, openAnswer.error;
      }
      if !infoCreated {
        return null, UNKNOWN_ERROR;
      }
      session := new SessionInfo(emeId, openAnswer.value, temporary);
      sessions.Add(session);
      err := OK;
    }

    /**
     * `CloseDrmSession`: a null session is already closed; otherwise the
     * session leaves the table only if the plugin's `closeSession` answered OK.
     */
    method CloseDrmSession(session: SessionInfo?, closeAnswer: Status) returns (err: Status)
      requires Valid()
      requires session != null ==> drmOpen
      modifies sessions
      ensures Valid()
      ensures session == null ==> err == OK && unchanged(sessions)
      ensures session != null && closeAnswer != OK ==> err == closeAnswer && unchanged(sessions)
      ensures session != null && closeAnswer == OK ==>
                && err == OK
                && sessions.byEmeId == old(sessions.byEmeId) - {session.emeId}
                && sessions.byDrmId == old(sessions.byDrmId) - {session.drmId}
    {
      if session == null {
        return OK;
      }
      if closeAnswer != OK {
        return closeAnswer;
      }
      sessions.Remove(session);
      err := OK;
    }

    /**
     * `UpdateSession`: hands the license server's response to the plugin
     * (`provideAnswer` is the new key-set id, or an error), then finishes by
     * session kind: a temporary session is done, a released one is erased
     * from storage, a persistent one records its key-set id and is saved.
     * `provided` is the id the response was given for.
     */
    method UpdateSession(session: SessionInfo?, provideAnswer: Result<Bytes, Status>, storage: StorageAnswer)
      returns (outcome: Outcome, provided: Option<Bytes>)
      requires session != null ==> drmOpen
      modifies session
      ensures session == null ==> outcome == Failed(SessionNotFound) && provided == None
      ensures session != null ==>
                && provided == Some(old(session.RequestId()))
                && session.released == old(session.released)
      ensures session != null && provideAnswer.Err? ==>
                outcome == Failed(ProvideKeyResponseFailed(provideAnswer.error)) && unchanged(session)
      ensures session != null && provideAnswer.Ok? && session.temporary ==>
                outcome == Succeeded && unchanged(session)
      ensures session != null && provideAnswer.Ok? && !session.temporary && old(session.released) ==>
                outcome == StorageOutcome(storage) && unchanged(session)
      ensures session != null && provideAnswer.Ok? && !session.temporary && !old(session.released) ==>
                outcome == StorageOutcome(storage) && session.keySetId == provideAnswer.value
                && session.mimeType == old(session.mimeType)
    {
      if session == null {
        return Failed(SessionNotFound), None;
      }
      var id := if session.released then session.keySetId else session.drmId;
      provided := Some(id);
      if provideAnswer.Err? {
        return Failed(ProvideKeyResponseFailed(provideAnswer.error)), provided;
      }
      if session.temporary {
        outcome := Succeeded;
      } else if session.released {
        outcome := StorageOutcome(storage);
      } else {
        session.keySetId := provideAnswer.value;
        outcome := StorageOutcome(storage);
      }
    }

    /**
     * `RemoveSession`: only a persistent session with a key set can be
     * removed; it is marked released before it is saved, and once saved a
     * release request is generated for it. `asked` is the plugin call made
     * for that request, if any.
     */
    method RemoveSession(session: SessionInfo?, storage: StorageAnswer, answer: KeyRequestAnswer)
      returns (outcome: Outcome, request: Option<KeyRequest>, asked: Option<KeyRequestCall>)
      requires session != null ==> drmOpen
      modifies session
      ensures session == null ==> outcome == Failed(SessionNotFound) && request == None
      ensures session != null && session.temporary ==>
                outcome == Failed(SessionNotPersistent) && request == None && unchanged(session)
      ensures session != null && !session.temporary && old(session.keySetId) == [] ==>
                outcome == Failed(KeySetIdNotFound) && request == None && unchanged(session)
      ensures session != null && !session.temporary && old(session.keySetId) != [] ==>
                && session.released
                && session.keySetId == old(session.keySetId) && session.mimeType == old(session.mimeType)
                && (storage.StorageError? ==> outcome == StorageOutcome(storage) && request == None)
                && (storage.Stored? ==>
                      && (outcome.Succeeded? <==> request.Some?)
                      && (outcome.Failed? ==> outcome == Failed(GetKeyRequestFailed))
                      && asked == Some(KeyRequestCall(old(session.keySetId), [], old(session.mimeType), Release))
                      && (request.Some? ==>
                            && answer.KeyRequestMade? && MessageTypeFor(answer.requestType) == Some(request.value.messageType)
                            && request.value.message == answer.request))
      ensures asked.Some? <==>
                session != null && !session.temporary && old(session.keySetId) != [] && storage.Stored?
      ensures outcome.Succeeded? ==> session != null && session.released
    {
      asked := None;
      if session == null {
        return Failed(SessionNotFound), None, asked;
      }
      if session.temporary {
        return Failed(SessionNotPersistent), None, asked;
      }
      if session.keySetId == [] {
        return Failed(KeySetIdNotFound), None, asked;
      }
      session.released := true;
      if storage.StorageError? {
        return StorageOutcome(storage), None, asked;
      }
      var call;
      request, call := GetKeyRequest(session, [], answer);
      asked := Some(call);
      if request.None? {
        return Failed(GetKeyRequestFailed), None, asked;
      }
      outcome := Succeeded;
    }

    /**
     * `CloseSession`: closes the session with this EME id and tells the
     * shared key table it is gone.
     */
    method CloseSession(emeId: string, closeAnswer: Status) returns (outcome: Outcome)
      requires Valid() && drmOpen && sharedData != null
      modifies sessions, sharedData
      ensures Valid()
      ensures old(sessions.FindByEmeId(emeId)) == null ==>
                outcome == Failed(SessionNotFound) && unchanged(sessions) && unchanged(sharedData)
      ensures old(sessions.FindByEmeId(emeId)) != null && closeAnswer != OK ==>
                outcome == Failed(CloseSessionFailed) && unchanged(sessions) && unchanged(sharedData)
      ensures old(sessions.FindByEmeId(emeId)) != null && closeAnswer == OK ==>
                && outcome == Succeeded
                && sessions.FindByEmeId(emeId) == null
                && sessions.byEmeId == old(sessions.byEmeId) - {emeId}
                && sessions.byDrmId == old(sessions.byDrmId) - {old(sessions.byEmeId[emeId]).drmId}
                && sharedData.removedSessions == old(sharedData.removedSessions) + [old(sessions.byEmeId[emeId]).drmId]
    {
      var session := sessions.FindByEmeId(emeId);
      if session == null {
        return Failed(SessionNotFound);
      }
      var err := CloseDrmSession(session, closeAnswer);
      if err != OK {
        return Failed(CloseSessionFailed);
      }
      sharedData.RemoveSession(session.drmId);
      outcome := Succeeded;
    }

    /** `NotifyKeyStatus`: registers every reported key but the dummy one, then forwards the batch. */
    method NotifyKeyStatus(session: SessionInfo, keyInfos: seq<KeyInfo>) returns (forwarded: (string, seq<KeyInfo>))
      requires sharedData != null
      modifies sharedData`addedKeys
      ensures sharedData.addedKeys == old(sharedData.addedKeys) + RegisteredKeys(session.drmId, keyInfos, dummyKeyId)
      ensures forwarded == (session.emeId, keyInfos)
    {
      for i := 0 to |keyInfos|
        invariant sharedData.addedKeys == old(sharedData.addedKeys) + RegisteredKeys(session.drmId, keyInfos[..i], dummyKeyId)
      {
        RegisteredKeysSnoc(session.drmId, keyInfos[..i], keyInfos[i], dummyKeyId);
        assert keyInfos[..i + 1] == keyInfos[..i] + [keyInfos[i]];
        if keyInfos[i].keyId != dummyKeyId {
          sharedData.AddKey(session.drmId, keyInfos[i].keyId);
        }
      }
      assert keyInfos[..|keyInfos|] == keyInfos;
      forwarded := (session.emeId, keyInfos);
    }

    /**
     * `Reset`: asks the plugin to close every open session (ignoring its
     * answers, given by `closeAnswer`), destroys the plugin, detaches the
     * shared data, and forgets every session. `closed` lists the DRM ids
     * whose close was requested.
     */
    method Reset(closeAnswer: Bytes -> Status) returns (closed: seq<Bytes>)
      requires Valid()
      modifies this, sessions, sharedData
      ensures Valid()
      ensures !drmOpen && sharedData == null
      ensures old(sharedData) != null ==> old(sharedData).cryptoSessionId == []
      ensures sessions.byEmeId == map[] && sessions.byDrmId == map[]
      ensures initPromiseId == 0 && !hasCallback && !hasStorage
      ensures old(drmOpen) ==> forall s :: s in old(sessions.byDrmId.Values) ==> s.drmId in closed
      ensures old(drmOpen) ==> forall d :: d in closed ==> exists s :: s in old(sessions.byDrmId.Values) && s.drmId == d
      ensures old(drmOpen) ==> forall i, j :: 0 <= i < j < |closed| ==> closed[i] != closed[j]
      ensures !old(drmOpen) ==> closed == []
    {
      closed := [];
      if drmOpen {
        var all := sessions.All();
        DistinctSessionsDistinctDrmIds(sessions, all);
        for i := 0 to |all|
          invariant Valid() && drmOpen && sharedData == old(sharedData)
          invariant closed == seq(i, k requires 0 <= k < i => all[k].drmId)
        {
          var err := CloseDrmSession(all[i], closeAnswer(all[i].drmId));
          closed := closed + [all[i].drmId];
        }
        forall s | s in old(sessions.byDrmId.Values)
          ensures s.drmId in closed
        {
          var k :| 0 <= k < |all| && all[k] == s;
          assert closed[k] == s.drmId;
        }
        drmOpen := false;
      }
      if sharedData != null {
        sharedData.SetCryptoSessionId([]);
        sharedData := null;
      }
      sessions.Clear();
      initPromiseId := 0;
      hasCallback := false;
      hasStorage := false;
    }
  }
}
