/**
 * Both flows run against each other over one session: the requester resumes,
 * then the host, alternately, in the only order their blocking receives allow.
 */
module OneSession {
  import opened AccountKeyTypes
  import opened FlowSessions
  import opened RecordStores
  import opened RequestKeyForAccountFlows

  /** The state of one joint run: the requester's view (session and store included) and the host's phase. */
  datatype Run = Run(requester: RequesterView, hostPhase: HostPhase)

  predicate RequesterFinished(p: RequesterPhase) {
    p.Returned? || p.Failed?
  }

  predicate HostFinished(p: HostPhase) {
    p.SentNotFound? || p.Provisioned? || p.HostFailed?
  }

  /**
   * `n` rounds of the joint run from requester state `r` and host phase `h`:
   * in each round the requester resumes, then the host does.
   */
  function Rounds(info: AccountInfo, accounts: map<Uuid, AccountInfo>, generated: Option<PublicKey>, writeFails: bool,
                  r: RequesterView, h: HostPhase, n: nat): (run: Run)
    requires r.session.Valid()
    ensures run.requester.session.Valid()
    decreases n
  {
    if n == 0 then Run(r, h)
    else
      var r' := RequesterStep(info, r, writeFails);
      var h' := HostStep(accounts, generated, HostView(h, r'.session));
      Rounds(info, accounts, generated, writeFails, r'.(session := h'.session), h'.phase, n - 1)
  }

  /** Once both sides have finished, further rounds change nothing. */
  lemma {:induction false} FinishedRunStaysFinished(info: AccountInfo, accounts: map<Uuid, AccountInfo>,
                                                    generated: Option<PublicKey>, writeFails: bool,
                                                    r: RequesterView, h: HostPhase, n: nat)
    requires r.session.Valid() && RequesterFinished(r.phase) && HostFinished(h)
    ensures Rounds(info, accounts, generated, writeFails, r, h, n) == Run(r, h)
    decreases n
  {
    if n > 0 {
      FinishedRunStaysFinished(info, accounts, generated, writeFails, r, h, n - 1);
    }
  }

  /** The record a successful run appends: the key filed under the account's linear id. */
  function IssuedRecord(info: AccountInfo, key: PublicKey): PublicKeyHashToExternalId {
    PublicKeyHashToExternalId(info.linearId.id, key)
  }

  /**
   * The requester for `info` against a host whose directory is `accounts` and
   * whose key service yields `generated`, over a fresh session, with a store
   * that holds `records` and whose writes throw when `writeFails`: three rounds,
   * after which both sides have finished.
   */
  function JointRun(info: AccountInfo, accounts: map<Uuid, AccountInfo>, generated: Option<PublicKey>,
                    writeFails: bool, records: seq<PublicKeyHashToExternalId>): (run: Run)
    // both sides finish within three rounds: nobody is left waiting
    ensures RequesterFinished(run.requester.phase) && HostFinished(run.hostPhase)
    ensures run.requester.session.Valid()
    // the requester returns exactly when the host knows the id, a key was generated and the write succeeded
    ensures run.requester.phase.Returned? <==> info.identifier.id in accounts && generated.Some? && !writeFails
    // it returns precisely the key it persisted, and the store gains exactly that record
    ensures run.requester.phase.Returned? ==>
              run.requester.phase.party == AnonymousParty(generated.value) &&
              run.requester.records == records + [IssuedRecord(info, generated.value)]
    // otherwise the store is unchanged
    ensures !run.requester.phase.Returned? ==> run.requester.records == records
    // an unknown id: HostRejected naming host, identifier and name; one message each way, no key
    ensures info.identifier.id !in accounts ==>
              run.requester.phase == Failed(HostRejected(info.host, info.identifier, info.name)) &&
              run.requester.newKey == None && run.hostPhase == SentNotFound &&
              run.requester.session.toHost.sent == [AccountId(info.identifier.id)] &&
              run.requester.session.toRequester.sent == [SearchStatus(NotFound)]
    // a known id: Found, then the key request for the identifier id, then the key (when generated)
    ensures info.identifier.id in accounts ==>
              run.requester.session.toHost.sent == [AccountId(info.identifier.id), KeyRequest(info.identifier.id)] &&
              run.requester.session.toRequester.sent == HostReplies(generated) &&
              run.hostPhase == (if generated.Some? then Provisioned(info.identifier.id, generated.value)
                                else HostFailed(KeyGenerationFailed))
    // the failure kinds of a known id
    ensures info.identifier.id in accounts && generated.None? ==> run.requester.phase == Failed(KeyExchangeFailed)
    ensures info.identifier.id in accounts && generated.Some? && writeFails ==>
              run.requester.phase == Failed(PersistenceFailure) && run.requester.newKey == generated
    // every message sent was received
    ensures run.requester.session.toHost.delivered == |run.requester.session.toHost.sent|
    ensures run.requester.session.toRequester.delivered == |run.requester.session.toRequester.sent|
  {
    var start := RequesterView(Start, None, NewSession, records);
    if info.identifier.id !in accounts then
      UnknownAccountRun(info, accounts, generated, writeFails, records);
      Rounds(info, accounts, generated, writeFails, start, Receiving, 3)
    else
      KnownAccountRun(info, accounts, generated, writeFails, records);
      Rounds(info, accounts, generated, writeFails, start, Receiving, 3)
  }

  /** For an id the host does not hold, the three rounds end in this state. */
  lemma UnknownAccountRun(info: AccountInfo, accounts: map<Uuid, AccountInfo>, generated: Option<PublicKey>, writeFails: bool,
                          records: seq<PublicKeyHashToExternalId>)
    requires info.identifier.id !in accounts
    ensures Rounds(info, accounts, generated, writeFails, RequesterView(Start, None, NewSession, records), Receiving, 3)
         == Run(RequesterView(Failed(HostRejected(info.host, info.identifier, info.name)), None,
                              SessionState(Channel([AccountId(info.identifier.id)], 1), Channel([SearchStatus(NotFound)], 1)), records),
                SentNotFound)
  {
    FirstRound(info, accounts, generated, writeFails, records);
    RejectedRounds(info, accounts, generated, writeFails, records);
  }

  /** For an id the host holds, the three rounds end in this state. */
  lemma KnownAccountRun(info: AccountInfo, accounts: map<Uuid, AccountInfo>, generated: Option<PublicKey>, writeFails: bool,
                        records: seq<PublicKeyHashToExternalId>)
    requires info.identifier.id in accounts
    ensures Rounds(info, accounts, generated, writeFails, RequesterView(Start, None, NewSession, records), Receiving, 3)
         == Run(KeyOutcome(info, generated, writeFails, records),
                if generated.Some? then Provisioned(info.identifier.id, generated.value) else HostFailed(KeyGenerationFailed))
  {
    FirstRound(info, accounts, generated, writeFails, records);
    FoundRounds(info, accounts, generated, writeFails, records);
  }

  /** What the host has sent once provisioning has run. */
  function HostReplies(generated: Option<PublicKey>): seq<Message> {
    [SearchStatus(Found)] + (if generated.Some? then [KeyReply(generated.value)] else [])
  }

  /** The host's answer to a search for `id`. */
  function StatusFor(accounts: map<Uuid, AccountInfo>, id: Uuid): AccountSearchStatus {
    if id in accounts then Found else NotFound
  }

  /** The session after the first round: the id taken by the host, its answer pending. */
  function AfterSearch(id: Uuid, status: AccountSearchStatus): SessionState {
    SessionState(Channel([AccountId(id)], 1), Channel([SearchStatus(status)], 0))
  }

  /** The session after the second round of a known id: the key request taken, the key (if any) pending. */
  function AfterProvisioning(id: Uuid, generated: Option<PublicKey>): SessionState {
    SessionState(Channel([AccountId(id), KeyRequest(id)], 2), Channel(HostReplies(generated), 1))
  }

  // One lemma per resumption of the joint run, from the state the previous one leaves.

  lemma SendsAccountId(info: AccountInfo, records: seq<PublicKeyHashToExternalId>, writeFails: bool)
    ensures RequesterStep(info, RequesterView(Start, None, NewSession, records), writeFails)
         == RequesterView(AwaitingStatus, None, SessionState(Channel([AccountId(info.identifier.id)], 0), Channel([], 0)), records)
  {}

  lemma AnswersSearch(accounts: map<Uuid, AccountInfo>, generated: Option<PublicKey>, id: Uuid)
    ensures HostStep(accounts, generated, HostView(Receiving, SessionState(Channel([AccountId(id)], 0), Channel([], 0))))
         == HostView(if id in accounts then Provisioning else SentNotFound, AfterSearch(id, StatusFor(accounts, id)))
  {}

  lemma RejectsOnNotFound(info: AccountInfo, records: seq<PublicKeyHashToExternalId>, writeFails: bool)
    ensures RequesterStep(info, RequesterView(AwaitingStatus, None, AfterSearch(info.identifier.id, NotFound), records), writeFails)
         == RequesterView(Failed(HostRejected(info.host, info.identifier, info.name)), None,
                          SessionState(Channel([AccountId(info.identifier.id)], 1), Channel([SearchStatus(NotFound)], 1)), records)
  {}

  lemma RequestsKeyOnFound(info: AccountInfo, records: seq<PublicKeyHashToExternalId>, writeFails: bool)
    ensures var id := info.identifier.id;
            (RequesterStep(info, RequesterView(AwaitingStatus, None, AfterSearch(id, Found), records), writeFails)
             == RequesterView(AwaitingKey, None,
                              SessionState(Channel([AccountId(id), KeyRequest(id)], 1), Channel([SearchStatus(Found)], 1)), records))
  {}

  lemma ProvidesKey(accounts: map<Uuid, AccountInfo>, generated: Option<PublicKey>, id: Uuid)
    ensures HostStep(accounts, generated, HostView(Provisioning,
                       SessionState(Channel([AccountId(id), KeyRequest(id)], 1), Channel([SearchStatus(Found)], 1))))
         == HostView(if generated.Some? then Provisioned(id, generated.value) else HostFailed(KeyGenerationFailed),
                     AfterProvisioning(id, generated))
  {}

  /** Where the requester ends for a known id. */
  function KeyOutcome(info: AccountInfo, generated: Option<PublicKey>, writeFails: bool,
                      records: seq<PublicKeyHashToExternalId>): RequesterView {
    var id := info.identifier.id;
    RequesterView(
      if generated.None? then Failed(KeyExchangeFailed)
      else if writeFails then Failed(PersistenceFailure)
      else Returned(AnonymousParty(generated.value)),
      generated,
      SessionState(Channel([AccountId(id), KeyRequest(id)], 2), Channel(HostReplies(generated), |HostReplies(generated)|)),
      if generated.Some? && !writeFails then records + [IssuedRecord(info, generated.value)] else records)
  }

  lemma ReceivesKey(info: AccountInfo, generated: Option<PublicKey>, writeFails: bool, records: seq<PublicKeyHashToExternalId>)
    ensures RequesterStep(info, RequesterView(AwaitingKey, None, AfterProvisioning(info.identifier.id, generated), records), writeFails)
         == KeyOutcome(info, generated, writeFails, records)
  {}

  // The rounds of the joint run.

  lemma FirstRound(info: AccountInfo, accounts: map<Uuid, AccountInfo>, generated: Option<PublicKey>, writeFails: bool,
                   records: seq<PublicKeyHashToExternalId>)
    ensures var id := info.identifier.id;
            (Rounds(info, accounts, generated, writeFails, RequesterView(Start, None, NewSession, records), Receiving, 3)
             == Rounds(info, accounts, generated, writeFails,
                       RequesterView(AwaitingStatus, None, AfterSearch(id, StatusFor(accounts, id)), records),
                       if id in accounts then Provisioning else SentNotFound, 2))
  {
    SendsAccountId(info, records, writeFails);
    AnswersSearch(accounts, generated, info.identifier.id);
  }

  lemma RejectedRounds(info: AccountInfo, accounts: map<Uuid, AccountInfo>, generated: Option<PublicKey>, writeFails: bool,
                       records: seq<PublicKeyHashToExternalId>)
    requires info.identifier.id !in accounts
    ensures var id := info.identifier.id;
            (Rounds(info, accounts, generated, writeFails,
                    RequesterView(AwaitingStatus, None, AfterSearch(id, NotFound), records), SentNotFound, 2)
             == Run(RequesterView(Failed(HostRejected(info.host, info.identifier, info.name)), None,
                                  SessionState(Channel([AccountId(id)], 1), Channel([SearchStatus(NotFound)], 1)), records),
                    SentNotFound))
  {
    var id := info.identifier.id;
    RejectsOnNotFound(info, records, writeFails);
    FinishedRunStaysFinished(info, accounts, generated, writeFails,
                             RequesterView(Failed(HostRejected(info.host, info.identifier, info.name)), None,
                                           SessionState(Channel([AccountId(id)], 1), Channel([SearchStatus(NotFound)], 1)), records),
                             SentNotFound, 1);
  }

  lemma FoundRounds(info: AccountInfo, accounts: map<Uuid, AccountInfo>, generated: Option<PublicKey>, writeFails: bool,
                    records: seq<PublicKeyHashToExternalId>)
    requires info.identifier.id in accounts
    ensures var id := info.identifier.id;
            (Rounds(info, accounts, generated, writeFails,
                    RequesterView(AwaitingStatus, None, AfterSearch(id, Found), records), Provisioning, 2)
             == Run(KeyOutcome(info, generated, writeFails, records),
                    if generated.Some? then Provisioned(id, generated.value) else HostFailed(KeyGenerationFailed)))
  {
    var id := info.identifier.id;
    RequestsKeyOnFound(info, records, writeFails);
    ProvidesKey(accounts, generated, id);
    ReceivesKey(info, generated, writeFails, records);
  }

  /** A run of `n` rounds is its first round followed by `n - 1` more. */
  lemma RoundsSplit(info: AccountInfo, accounts: map<Uuid, AccountInfo>, generated: Option<PublicKey>, writeFails: bool,
                    r: RequesterView, h: HostPhase, n: nat)
    requires r.session.Valid() && n > 0
    ensures var first := Rounds(info, accounts, generated, writeFails, r, h, 1);
            (Rounds(info, accounts, generated, writeFails, r, h, n)
             == Rounds(info, accounts, generated, writeFails, first.requester, first.hostPhase, n - 1))
  {}

  /** One round on the objects: the requester resumes, then the host. */
  method ResumeRound(requester: RequestKeyForAccountFlow, host: SendKeyForAccountFlow, generated: Option<PublicKey>)
    requires requester.hostSession == host.otherSide && requester.hostSession.State().Valid()
    modifies requester, host, requester.hostSession, requester.store
    ensures requester.hostSession.State().Valid()
    ensures Run(requester.View(), host.phase)
         == Rounds(requester.accountInfo, host.accounts, generated, requester.store.writeFails,
                   old(requester.View()), old(host.phase), 1)
  {
    requester.Resume();
    ghost var afterRequester := requester.View();
    host.Resume(generated);
    assert requester.View() == afterRequester.(session := host.View().session);
  }

  /**
   * The objects of one joint run: a session, the requester on it with `store`,
   * and the host on its other end, resumed alternately for three rounds.
   */
  method RequestKeyOverOneSession(info: AccountInfo, accounts: map<Uuid, AccountInfo>,
                                  generated: Option<PublicKey>, store: RecordStore)
    returns (requester: RequestKeyForAccountFlow, host: SendKeyForAccountFlow)
    modifies store
    ensures fresh(requester) && fresh(host) && fresh(requester.hostSession)
    ensures requester.hostSession == host.otherSide && requester.store == store
    ensures Run(requester.View(), host.phase) == JointRun(info, accounts, generated, store.writeFails, old(store.records))
  {
    var session := new Session();
    requester := new RequestKeyForAccountFlow(info, session, store);
    host := new SendKeyForAccountFlow(session, accounts);
    ghost var w := store.writeFails;
    ghost var start := Run(requester.View(), host.phase);
    assert start.requester == RequesterView(Start, None, NewSession, old(store.records));
    ResumeRound(requester, host, generated);
    ghost var round1 := Run(requester.View(), host.phase);
    ResumeRound(requester, host, generated);
    ghost var round2 := Run(requester.View(), host.phase);
    ResumeRound(requester, host, generated);
    RoundsSplit(info, accounts, generated, w, start.requester, start.hostPhase, 3);
    RoundsSplit(info, accounts, generated, w, round1.requester, round1.hostPhase, 2);
    RoundsSplit(info, accounts, generated, w, round2.requester, round2.hostPhase, 1);
  }
}
