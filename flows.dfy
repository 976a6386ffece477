/**
 * The two flows of RequestKeyForAccountFlows.kt. Each `call()` suspends at its
 * receives, so each flow is a class with a phase: `Resume` runs `call()` from
 * the phase it is in to its next suspension point (or to its end). What one
 * `Resume` does is given by a step function on values (RequesterStep,
 * HostStep), whose contracts state the protocol's promises.
 */
module RequestKeyForAccountFlows {
  import opened AccountKeyTypes
  import opened FlowSessions
  import opened RecordStores

  // ---------------------------------------------------------------------------
  // Requester: RequestKeyForAccountFlow.call
  // ---------------------------------------------------------------------------

  /** Where the requester's `call()` stands. */
  datatype RequesterPhase =
    | Start                        // not yet run
    | AwaitingStatus               // sent the account id, waiting for the search status
    | AwaitingKey                  // got Found, key request sent, waiting for the key
    | Returned(party: AnonymousParty)
    | Failed(error: FlowError)

  /** The requester's state together with the session and the record store. */
  datatype RequesterView = RequesterView(
    phase: RequesterPhase,
    newKey: Option<PublicKey>,     // the `lateinit var newKey`: None until assigned
    session: SessionState,
    records: seq<PublicKeyHashToExternalId>)

  /** The messages the requester has sent on a session it opened, given its phase. */
  predicate RequesterSentMatches(info: AccountInfo, p: RequesterPhase, sent: seq<Message>) {
    var id := info.identifier.id;
    match p
    case Start => sent == []
    case AwaitingStatus => sent == [AccountId(id)]
    case AwaitingKey => sent == [AccountId(id), KeyRequest(id)]
    case Returned(_) => sent == [AccountId(id), KeyRequest(id)]
    case Failed(e) =>
      if e.HostRejected? || e.ProtocolViolation? then sent == [AccountId(id)]
      else sent == [AccountId(id), KeyRequest(id)]
  }

  /** The requester's `newKey` field, given its phase. */
  predicate NewKeyMatches(p: RequesterPhase, newKey: Option<PublicKey>) {
    match p
    case Returned(party) => newKey == Some(party.owningKey)
    case Failed(e) => e == PersistenceFailure <==> newKey.Some?
    case _ => newKey == None
  }

  /**
   * One resumption of the requester's `call()`. From Start it sends the account
   * id and waits. From AwaitingStatus it takes the status: on NotFound it fails
   * with HostRejected, on Found it starts the key request on the same session
   * with the same id. From AwaitingKey it takes the key, assigns `newKey`,
   * persists the mapping under the account's linear id and returns the key;
   * a throwing write fails the run.
   */
  function RequesterStep(info: AccountInfo, v: RequesterView, writeFails: bool): (v': RequesterView)
    requires v.session.Valid()
    ensures v'.session.Valid()
    // the requester only writes toward the host and only reads what the host sent
    ensures v'.session.toRequester.sent == v.session.toRequester.sent
    ensures v'.session.toHost.delivered == v.session.toHost.delivered
    ensures v.session.toHost.sent <= v'.session.toHost.sent
    // its outbound messages and its newKey follow its phase
    ensures RequesterSentMatches(info, v.phase, v.session.toHost.sent) ==>
              RequesterSentMatches(info, v'.phase, v'.session.toHost.sent)
    ensures NewKeyMatches(v.phase, v.newKey) ==> NewKeyMatches(v'.phase, v'.newKey)
    // the first resumption sends exactly the account's identifier id, then waits for a status
    ensures v.phase == Start ==>
              v'.phase == AwaitingStatus && v'.records == v.records && v'.newKey == v.newKey &&
              v'.session.toHost.Pending() == v.session.toHost.Pending() + [AccountId(info.identifier.id)] &&
              v'.session.toRequester == v.session.toRequester
    // NotFound: fail naming host, identifier and name; no key request, no record, no key
    ensures v.phase == AwaitingStatus && v.session.toRequester.NextIs(SearchStatus(NotFound)) ==>
              v'.phase == Failed(HostRejected(info.host, info.identifier, info.name)) &&
              v'.session.toHost == v.session.toHost && v'.records == v.records && v'.newKey == v.newKey
    // Found: the key request runs on the same session, with the identifier id
    ensures v.phase == AwaitingStatus && v.session.toRequester.NextIs(SearchStatus(Found)) ==>
              v'.phase == AwaitingKey && v'.records == v.records && v'.newKey == v.newKey &&
              v'.session.toHost.Pending() == v.session.toHost.Pending() + [KeyRequest(info.identifier.id)]
    // the key request is started only after a Found status was taken
    ensures v'.phase == AwaitingKey ==>
              v.phase == AwaitingKey || (v.phase == AwaitingStatus && v.session.toRequester.NextIs(SearchStatus(Found)))
    // the store changes only when the run returns, by exactly one record holding the returned key
    ensures v'.records != v.records ==>
              v.phase == AwaitingKey && !writeFails && v'.phase.Returned? &&
              v'.records == v.records + [PublicKeyHashToExternalId(info.linearId.id, v'.phase.party.owningKey)]
    ensures v'.phase.Returned? && !v.phase.Returned? ==>
              v.phase == AwaitingKey && v.session.toRequester.NextIs(KeyReply(v'.phase.party.owningKey)) &&
              v'.records == v.records + [PublicKeyHashToExternalId(info.linearId.id, v'.phase.party.owningKey)]
    // a key arrived and the write failed: no key is returned, the store is unchanged
    ensures v.phase == AwaitingKey && writeFails ==> !v'.phase.Returned? && v'.records == v.records
    // no key arrived: the key request fails
    ensures v.phase == AwaitingKey && !(v.session.toRequester.Pending() != [] && v.session.toRequester.Pending()[0].KeyReply?) ==>
              v'.phase == Failed(KeyExchangeFailed) && v'.records == v.records
    // a key that arrives is assigned to newKey, then returned or lost with the failed write
    ensures v.phase == AwaitingKey && v.session.toRequester.Pending() != [] && v.session.toRequester.Pending()[0].KeyReply? ==>
              var k := v.session.toRequester.Pending()[0].key;
              (v'.newKey == Some(k) &&
               v'.phase == (if writeFails then Failed(PersistenceFailure) else Returned(AnonymousParty(k))))
    // a receive uses up the message it takes, and only that one
    ensures (v.phase == AwaitingStatus || v.phase == AwaitingKey) ==>
              v'.session.toRequester.delivered ==
                v.session.toRequester.delivered + (if v.session.toRequester.Pending() != [] then 1 else 0)
    // a finished run stays finished
    ensures (v.phase.Returned? || v.phase.Failed?) ==> v' == v
  {
    var id := info.identifier.id;
    match v.phase
    case Start =>
      v.(phase := AwaitingStatus, session := v.session.(toHost := v.session.toHost.Send(AccountId(id))))
    case AwaitingStatus =>
      var d := v.session.toRequester.Receive();
      var s := v.session.(toRequester := d.channel);
      (match d.message
       case Some(SearchStatus(status)) =>
         (match status
          case NotFound => v.(phase := Failed(HostRejected(info.host, info.identifier, info.name)), session := s)
          case Found => v.(phase := AwaitingKey, session := s.(toHost := s.toHost.Send(KeyRequest(id)))))
       case _ => v.(phase := Failed(ProtocolViolation), session := s))
    case AwaitingKey =>
      var d := v.session.toRequester.Receive();
      var s := v.session.(toRequester := d.channel);
      (match d.message
       case Some(KeyReply(k)) =>
         if writeFails then v.(phase := Failed(PersistenceFailure), newKey := Some(k), session := s)
         else v.(phase := Returned(AnonymousParty(k)), newKey := Some(k), session := s,
                 records := v.records + [PublicKeyHashToExternalId(info.linearId.id, k)])
       case _ => v.(phase := Failed(KeyExchangeFailed), session := s))
    case Returned(_) => v
    case Failed(_) => v
  }

  /** RequestKeyForAccountFlow: the requester side, over its session to the host. */
  class RequestKeyForAccountFlow {
    const accountInfo: AccountInfo
    const hostSession: Session
    const store: RecordStore
    var newKey: Option<PublicKey>
    var phase: RequesterPhase

    function View(): RequesterView
      reads this, hostSession, store
    {
      RequesterView(phase, newKey, hostSession.State(), store.records)
    }

    constructor (accountInfo: AccountInfo, hostSession: Session, store: RecordStore)
      ensures this.accountInfo == accountInfo && this.hostSession == hostSession && this.store == store
      ensures phase == Start && newKey == None
    {
      this.accountInfo := accountInfo;
      this.hostSession := hostSession;
      this.store := store;
      newKey := None;
      phase := Start;
    }

    /** Runs `call()` from the current phase to its next suspension point or its end. */
    method Resume()
      requires hostSession.State().Valid()
      modifies this, hostSession, store
      ensures View() == RequesterStep(accountInfo, old(View()), store.writeFails)
    {
      match phase
      case Start =>
        hostSession.SendToHost(AccountId(accountInfo.identifier.id));
        phase := AwaitingStatus;
      case AwaitingStatus =>
        var m := hostSession.ReceiveAtRequester();
        match m {
          case Some(SearchStatus(status)) =>
            match status {
              case NotFound =>
                phase := Failed(HostRejected(accountInfo.host, accountInfo.identifier, accountInfo.name));
              case Found =>
                hostSession.SendToHost(KeyRequest(accountInfo.identifier.id));
                phase := AwaitingKey;
            }
          case _ =>
            phase := Failed(ProtocolViolation);
        }
      case AwaitingKey =>
        var m := hostSession.ReceiveAtRequester();
        match m {
          case Some(KeyReply(k)) =>
            newKey := Some(k);
            var ok := store.Persist(PublicKeyHashToExternalId(accountInfo.linearId.id, k));
            if ok {
              phase := Returned(AnonymousParty(k));
            } else {
              phase := Failed(PersistenceFailure);
            }
          case _ =>
            phase := Failed(KeyExchangeFailed);
        }
      case Returned(_) =>
      case Failed(_) =>
    }
  }

  // ---------------------------------------------------------------------------
  // Host: SendKeyForAccountFlow.call
  // ---------------------------------------------------------------------------

  /** Where the host's `call()` stands. */
  datatype HostPhase =
    | Receiving                    // waiting for the account id
    | SentNotFound                 // unknown account: answered NotFound, finished
    | Provisioning                 // answered Found, key provisioning waiting for the key request
    | Provisioned(accountId: Uuid, key: PublicKey)
    | HostFailed(error: FlowError)

  datatype HostView = HostView(phase: HostPhase, session: SessionState)

  /** The messages the host has sent on the session, given its phase. */
  predicate HostSentMatches(p: HostPhase, sent: seq<Message>) {
    match p
    case Receiving => sent == []
    case SentNotFound => sent == [SearchStatus(NotFound)]
    case Provisioning => sent == [SearchStatus(Found)]
    case Provisioned(_, k) => sent == [SearchStatus(Found), KeyReply(k)]
    case HostFailed(e) =>
      if e == KeyGenerationFailed then sent == [SearchStatus(Found)]
      else sent == [] || sent == [SearchStatus(Found)]
  }

  /**
   * One resumption of the host's `call()`. From Receiving it takes the account
   * id, looks it up in `accounts`, and sends NotFound (and is done) or Found
   * (and starts key provisioning). From Provisioning it takes the key request
   * and sends the key the key service `generated`, if it generated one.
   */
  function HostStep(accounts: map<Uuid, AccountInfo>, generated: Option<PublicKey>, v: HostView): (v': HostView)
    requires v.session.Valid()
    ensures v'.session.Valid()
    // the host only writes toward the requester and only reads what the requester sent
    ensures v'.session.toHost.sent == v.session.toHost.sent
    ensures v'.session.toRequester.delivered == v.session.toRequester.delivered
    // at most one message per resumption, appended
    ensures v.session.toRequester.sent <= v'.session.toRequester.sent
    ensures |v'.session.toRequester.sent| <= |v.session.toRequester.sent| + 1
    // one status per run, NotFound ends it, a key follows only a Found
    ensures HostSentMatches(v.phase, v.session.toRequester.sent) ==>
              HostSentMatches(v'.phase, v'.session.toRequester.sent)
    // the status sent is Found exactly when the directory holds the id received
    ensures forall id :: v.phase == Receiving && v.session.toHost.NextIs(AccountId(id)) ==>
              v'.session.toRequester.Pending() ==
                v.session.toRequester.Pending() + [SearchStatus(if id in accounts then Found else NotFound)] &&
              v'.phase == (if id in accounts then Provisioning else SentNotFound)
    // provisioning happens only in the Provisioning phase, entered right after sending Found
    ensures v'.phase.Provisioned? && !v.phase.Provisioned? ==> v.phase == Provisioning
    ensures v'.phase == Provisioning ==> v.phase == Provisioning || v.phase == Receiving
    // the key request is answered with the generated key; without one nothing is sent and the host fails
    ensures v.phase == Provisioning && v.session.toHost.Pending() != [] && v.session.toHost.Pending()[0].KeyRequest? ==>
              var a := v.session.toHost.Pending()[0].accountId;
              (v'.phase == (if generated.Some? then Provisioned(a, generated.value) else HostFailed(KeyGenerationFailed)) &&
               v'.session.toRequester.Pending() ==
                 v.session.toRequester.Pending() + (if generated.Some? then [KeyReply(generated.value)] else []))
    // a receive uses up the message it takes, and only that one
    ensures (v.phase == Receiving || v.phase == Provisioning) ==>
              v'.session.toHost.delivered == v.session.toHost.delivered + (if v.session.toHost.Pending() != [] then 1 else 0)
    // a finished run stays finished
    ensures !(v.phase == Receiving || v.phase == Provisioning) ==> v' == v
  {
    match v.phase
    case Receiving =>
      var d := v.session.toHost.Receive();
      var s := v.session.(toHost := d.channel);
      (match d.message
       case Some(AccountId(requested)) =>
         if requested !in accounts then
           HostView(SentNotFound, s.(toRequester := s.toRequester.Send(SearchStatus(NotFound))))
         else
           HostView(Provisioning, s.(toRequester := s.toRequester.Send(SearchStatus(Found))))
       case _ => HostView(HostFailed(ProtocolViolation), s))
    case Provisioning =>
      var d := v.session.toHost.Receive();
      var s := v.session.(toHost := d.channel);
      (match d.message
       case Some(KeyRequest(accountId)) =>
         (match generated
          case Some(k) => HostView(Provisioned(accountId, k), s.(toRequester := s.toRequester.Send(KeyReply(k))))
          case None => HostView(HostFailed(KeyGenerationFailed), s))
       case _ => HostView(HostFailed(ProtocolViolation), s))
    case SentNotFound => v
    case Provisioned(_, _) => v
    case HostFailed(_) => v
  }

  /** SendKeyForAccountFlow: the host side, over the session the requester opened. */
  class SendKeyForAccountFlow {
    const otherSide: Session
    /** The host's account directory, as the account service resolves it. */
    const accounts: map<Uuid, AccountInfo>
    var phase: HostPhase

    function View(): HostView
      reads this, otherSide
    {
      HostView(phase, otherSide.State())
    }

    constructor (otherSide: Session, accounts: map<Uuid, AccountInfo>)
      ensures this.otherSide == otherSide && this.accounts == accounts && phase == Receiving
    {
      this.otherSide := otherSide;
      this.accounts := accounts;
      phase := Receiving;
    }

    /**
     * Runs `call()` from the current phase to its next suspension point or its
     * end; `generated` is what the key service yields if provisioning runs.
     */
    method Resume(generated: Option<PublicKey>)
      requires otherSide.State().Valid()
      modifies this, otherSide
      ensures View() == HostStep(accounts, generated, old(View()))
    {
      match phase
      case Receiving =>
        var m := otherSide.ReceiveAtHost();
        match m {
          case Some(AccountId(requested)) =>
            if requested !in accounts {
              otherSide.SendToRequester(SearchStatus(NotFound));
              phase := SentNotFound;
            } else {
              otherSide.SendToRequester(SearchStatus(Found));
              phase := Provisioning;
            }
          case _ =>
            phase := HostFailed(ProtocolViolation);
        }
      case Provisioning =>
        var m := otherSide.ReceiveAtHost();
        match m {
          case Some(KeyRequest(accountId)) =>
            match generated {
              case Some(k) =>
                otherSide.SendToRequester(KeyReply(k));
                phase := Provisioned(accountId, k);
              case None =>
                phase := HostFailed(KeyGenerationFailed);
            }
          case _ =>
            phase := HostFailed(ProtocolViolation);
        }
      case SentNotFound =>
      case Provisioned(_, _) =>
      case HostFailed(_) =>
    }
  }
}
