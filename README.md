# Requesting a key for an account hosted elsewhere

This project models the two flows of `RequestKeyForAccountFlows.kt` in the
Corda accounts library, and proves properties of the model.

- `RequestKeyForAccountFlow` is the requester. It runs on a node that holds an
  account's metadata but not the account itself.
- `SendKeyForAccountFlow` is the host. It runs on the node that hosts the
  account.

The requester sends the account's identifier id. The host looks the id up in
its account directory and answers `FOUND` or `NOT_FOUND`. On `NOT_FOUND` the
requester fails with a message that names the host, the identifier and the
account name. On `FOUND` the two sides run the key sub-protocol on the same
session. The requester then persists a mapping from the account's linear id
to the new key and returns that key as an anonymous party.

Structure:

- `types.dfy` (`AccountKeyTypes`): the values the flows exchange and store.
  - Account metadata keeps the sent `identifier` and the persisted `linearId`
    as two separate fields.
  - The session payloads are the messages.
  - The persisted mapping record.
  - The failure kinds.
- `sessions.dfy` (`FlowSessions`): a flow session is one ordered, reliable
  channel per direction.
  - A `Channel` is the log of everything sent plus a count of what the
    receiver has taken. The untaken suffix is the pending queue.
  - The `Session` class is the one object both flows hold.
- `record_store.dfy` (`RecordStores`): the node's store of account-to-key
  mappings. It is an append-only sequence whose writes may throw.
- `flows.dfy` (`RequestKeyForAccountFlows`): each flow is a class with a phase.
  - A `call()` suspends at its receives, so `Resume` runs it from one
    suspension point to the next.
  - Each `Resume` is proved equal to a pure step function, `RequesterStep` or
    `HostStep`. The contracts of those functions state what one resumption
    sends, takes, records and returns.
- `one_session.dfy` (`OneSession`): both flows over one session, resumed in
  turn: the requester, then the host.
  - `JointRun` states the end-to-end outcome.
  - `RequestKeyOverOneSession` builds the objects, runs them, and is proved to
    end in the state `JointRun` describes.

The environment is given as parameters:

- the host's account directory, as a map from UUID to account metadata;
- the key the host's key service yields, with `None` meaning key generation
  failed;
- whether the requester's store write throws.

## Model

| member | source | states |
|---|---|---|
| FlowSessions.Channel.Send | workflows/src/main/kotlin/com/r3/corda/lib/accounts/workflows/flows/RequestKeyForAccountFlows.kt:52-54 | a send puts the message at the back of the pending queue; the log only grows, by exactly that message |
| FlowSessions.Channel.Receive | workflows/src/main/kotlin/com/r3/corda/lib/accounts/workflows/flows/RequestKeyForAccountFlows.kt:49 | a receive yields a message iff one is pending; that message is the oldest pending one and the queue loses just it; with nothing pending the channel is unchanged |
| FlowSessions.Session.constructor | workflows/src/main/kotlin/com/r3/corda/lib/accounts/workflows/flows/RequestKeyForAccountFlows.kt:68 | a session just opened carries nothing in either direction |
| FlowSessions.Session.SendToHost | workflows/src/main/kotlin/com/r3/corda/lib/accounts/workflows/flows/RequestKeyForAccountFlows.kt:29 | the requester's send appends the message toward the host, as `Channel.Send` does; the other direction is unchanged |
| FlowSessions.Session.SendToRequester | workflows/src/main/kotlin/com/r3/corda/lib/accounts/workflows/flows/RequestKeyForAccountFlows.kt:52-54 | the host's send appends the message toward the requester, as `Channel.Send` does; the other direction is unchanged |
| FlowSessions.Session.ReceiveAtHost | workflows/src/main/kotlin/com/r3/corda/lib/accounts/workflows/flows/RequestKeyForAccountFlows.kt:49 | takes the oldest message toward the host, as `Channel.Receive` does, or nothing when none is pending; the other direction is unchanged |
| FlowSessions.Session.ReceiveAtRequester | workflows/src/main/kotlin/com/r3/corda/lib/accounts/workflows/flows/RequestKeyForAccountFlows.kt:29 | takes the oldest message toward the requester, as `Channel.Receive` does, or nothing when none is pending; the other direction is unchanged |
| RecordStores.RecordStore.constructor | workflows/src/main/kotlin/com/r3/corda/lib/accounts/workflows/flows/RequestKeyForAccountFlows.kt:39 | the store holds the given records, and its write failure mode is the one given |
| RecordStores.RecordStore.Persist | workflows/src/main/kotlin/com/r3/corda/lib/accounts/workflows/flows/RequestKeyForAccountFlows.kt:39 | the write succeeds exactly when the store does not fail; on success it appends exactly the record, and on failure the store is unchanged |
| RequestKeyForAccountFlows.RequesterStep | workflows/src/main/kotlin/com/r3/corda/lib/accounts/workflows/flows/RequestKeyForAccountFlows.kt:28-43 | the first resumption sends exactly `AccountId(identifier.id)` and waits for the status. On `NOT_FOUND` the run fails with `HostRejected(host, identifier, name)`: no key request, no record, no key. On `FOUND` it sends the key request for `identifier.id` on the same session. The key request happens only after `FOUND`. The store changes only when the run returns, by the one record `(linearId.id, returned key)`. A return implies a key reply was taken. A throwing write returns nothing and stores nothing. A missing key fails with `KeyExchangeFailed`. A key that arrives is assigned to `newKey` and, unless the write throws, returned. Each receive uses up exactly the message it takes. The requester writes only toward the host. The sent messages and `newKey` stay consistent with the phase. A finished run is left alone. |
| RequestKeyForAccountFlows.RequestKeyForAccountFlow.constructor | workflows/src/main/kotlin/com/r3/corda/lib/accounts/workflows/flows/RequestKeyForAccountFlows.kt:20-25 | the flow holds the given account and session; `newKey` is unassigned |
| RequestKeyForAccountFlows.RequestKeyForAccountFlow.Resume | workflows/src/main/kotlin/com/r3/corda/lib/accounts/workflows/flows/RequestKeyForAccountFlows.kt:28-43 | the new phase, key, session and store are exactly `RequesterStep` of the old ones |
| RequestKeyForAccountFlows.HostStep | workflows/src/main/kotlin/com/r3/corda/lib/accounts/workflows/flows/RequestKeyForAccountFlows.kt:48-57 | after taking `AccountId(id)`, the host sends `FOUND` iff `id` is in the directory and `NOT_FOUND` otherwise, and moves to provisioning or finishes accordingly. From provisioning, a taken key request is answered with the generated key; with no key nothing is sent and the host fails with `KeyGenerationFailed`. Each receive uses up exactly the message it takes. It sends one status per run and nothing after `NOT_FOUND`. A key is sent only after `FOUND`. Provisioning is entered only right after the status. It sends at most one message per resumption, only toward the requester, and takes only what the requester sent. A finished run is left alone. |
| RequestKeyForAccountFlows.SendKeyForAccountFlow.constructor | workflows/src/main/kotlin/com/r3/corda/lib/accounts/workflows/flows/RequestKeyForAccountFlows.kt:46 | the host flow holds the given session and directory and has not yet received anything |
| RequestKeyForAccountFlows.SendKeyForAccountFlow.Resume | workflows/src/main/kotlin/com/r3/corda/lib/accounts/workflows/flows/RequestKeyForAccountFlows.kt:48-57 | the new phase and session are exactly `HostStep` of the old ones |
| OneSession.FinishedRunStaysFinished | workflows/src/main/kotlin/com/r3/corda/lib/accounts/workflows/flows/RequestKeyForAccountFlows.kt:42-57 | once both flows have returned or failed, any number of further resumptions changes nothing |
| OneSession.JointRun | workflows/src/main/kotlin/com/r3/corda/lib/accounts/workflows/flows/RequestKeyForAccountFlows.kt:29-55 | over one fresh session both flows finish, and every message sent is received. The requester returns iff the host's directory holds `identifier.id`, a key was generated and the write succeeded. It then returns exactly the generated key, and the store gains exactly the record `(linearId.id, key)`. Otherwise the store is unchanged. For an unknown id the requester fails with `HostRejected`, holds no key, and the session carries one id and one `NOT_FOUND`. For a known id the session carries the id, the key request, `FOUND` and the key. A missing key gives `KeyExchangeFailed`, and a failed write gives `PersistenceFailure`. |
| OneSession.UnknownAccountRun | workflows/src/main/kotlin/com/r3/corda/lib/accounts/workflows/flows/RequestKeyForAccountFlows.kt:29-52 | the complete final state of a joint run for an id the host does not hold |
| OneSession.KnownAccountRun | workflows/src/main/kotlin/com/r3/corda/lib/accounts/workflows/flows/RequestKeyForAccountFlows.kt:29-55 | the complete final state of a joint run for an id the host holds |
| OneSession.SendsAccountId | workflows/src/main/kotlin/com/r3/corda/lib/accounts/workflows/flows/RequestKeyForAccountFlows.kt:29 | the requester's first resumption on a new session leaves exactly the identifier id pending toward the host |
| OneSession.AnswersSearch | workflows/src/main/kotlin/com/r3/corda/lib/accounts/workflows/flows/RequestKeyForAccountFlows.kt:49-54 | the host takes the id and leaves exactly the status for it pending |
| OneSession.RejectsOnNotFound | workflows/src/main/kotlin/com/r3/corda/lib/accounts/workflows/flows/RequestKeyForAccountFlows.kt:31-33 | on `NOT_FOUND` the requester fails with `HostRejected` and sends nothing more |
| OneSession.RequestsKeyOnFound | workflows/src/main/kotlin/com/r3/corda/lib/accounts/workflows/flows/RequestKeyForAccountFlows.kt:35-36 | on `FOUND` the requester sends exactly the key request for the identifier id |
| OneSession.ProvidesKey | workflows/src/main/kotlin/com/r3/corda/lib/accounts/workflows/flows/RequestKeyForAccountFlows.kt:55 | the host takes the key request and sends the generated key, or fails without sending anything when no key was generated |
| OneSession.ReceivesKey | workflows/src/main/kotlin/com/r3/corda/lib/accounts/workflows/flows/RequestKeyForAccountFlows.kt:36-42 | the requester takes the key, assigns it, persists it, and returns it; or it fails as the key and the store dictate |
| OneSession.FirstRound | workflows/src/main/kotlin/com/r3/corda/lib/accounts/workflows/flows/RequestKeyForAccountFlows.kt:29-54 | after one round the status for the id is pending and the host is provisioning or finished |
| OneSession.RejectedRounds | workflows/src/main/kotlin/com/r3/corda/lib/accounts/workflows/flows/RequestKeyForAccountFlows.kt:31-33 | the remaining rounds after `NOT_FOUND` end with the rejection and nothing else sent |
| OneSession.FoundRounds | workflows/src/main/kotlin/com/r3/corda/lib/accounts/workflows/flows/RequestKeyForAccountFlows.kt:35-55 | the remaining rounds after `FOUND` end in the key outcome |
| OneSession.ResumeRound | workflows/src/main/kotlin/com/r3/corda/lib/accounts/workflows/flows/RequestKeyForAccountFlows.kt:28-57 | resuming the requester and then the host on their shared session is exactly one round |
| OneSession.RequestKeyOverOneSession | workflows/src/main/kotlin/com/r3/corda/lib/accounts/workflows/flows/RequestKeyForAccountFlows.kt:62-77 | the requester and host objects over one new session, with the given store, end in exactly the state `JointRun` describes |

## Left out

- Corda's session transport and fiber suspension (`sendAndReceive`, `receive`, `send`, `unwrap`, `@Suspendable`) are not modelled. A session is two in-memory message queues, and a suspension is the end of a `Resume`.
- A payload of the wrong type, or a receive on an empty queue, is modelled as a failure of the flow that receives it. The requester fails with `ProtocolViolation` while waiting for the status and with `KeyExchangeFailed` while waiting for the key. The host fails with `HostFailed(ProtocolViolation)` both while waiting for the account id and while waiting for the key request. Corda would raise its own exceptions or keep waiting.
- `RequestKeyFlow` and `ProvideKeyFlow` are not part of this model. They are abstracted to one `KeyRequest(id)` message and one `KeyReply(key)` message. The key the host's key service yields is a parameter. Nothing is claimed about freshness, distinctness or unlinkability of keys, and the signing identity the host keeps is not modelled.
- `accountService.accountInfo` is a map from UUID to account metadata. `AccountInfo` itself is not part of this model, so its fields are abstract.
- The JPA write through `serviceHub.withEntityManager` is an append to a sequence that may throw. The hash stored in `PublicKeyHashToExternalId` is not modelled: the record holds the key itself.
- A write that throws fails the run with `PersistenceFailure`, and no key is returned. That is what the code does, since the exception propagates out of `call()`.
- The initiating and initiated wrappers `RequestKeyForAccount` and `SendKeyForAccount` (lines 62-77) are not modelled as flows. They only open the session to `accountInfo.host` and delegate. `RequestKeyOverOneSession` plays their part in one joint run.
- Repeated runs are not modelled as a sequence. Each run appends its own record and never reads the store, so two runs leave two records; this is not stated as a separate lemma.
- Concurrent runs against the shared store, timeouts and session cancellation are not modelled, because the code itself does not address them.
- The joint run resumes the two sides strictly in turn: the requester, then the host. This is the order in which each blocking receive finds its message. In the model a resumption that finds nothing pending fails instead of waiting, so other schedules are not covered by `JointRun`.
