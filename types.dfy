/** The values exchanged and stored by the request-key-for-account flows. */
module AccountKeyTypes {

  datatype Option<+T> = None | Some(value: T)

  /** A java.util.UUID: only its identity matters here. */
  type Uuid = nat

  /** A public key, opaque: the flows only compare and store it. */
  type PublicKey = nat

  /** A network participant, known by its name. */
  type Party = string

  /** Corda's UniqueIdentifier: an optional external id and a UUID. */
  datatype UniqueIdentifier = UniqueIdentifier(externalId: Option<string>, id: Uuid)

  /**
   * The account metadata the requester holds before it starts. The flow reads
   * `identifier` (sent to the host, and quoted in the rejection) and `linearId`
   * (the key of the persisted mapping) separately; nothing visible to the flow
   * makes them equal, so they are two fields here.
   */
  datatype AccountInfo = AccountInfo(
    name: string,
    host: Party,
    identifier: UniqueIdentifier,
    linearId: UniqueIdentifier)

  /** The host's answer to an account search: exactly two values. */
  datatype AccountSearchStatus = Found | NotFound

  /**
   * The payloads that travel on the session. `AccountId` and `SearchStatus` are
   * the two messages of the flows themselves; `KeyRequest` and `KeyReply` stand
   * for the key sub-protocol, abstracted to one request and one reply.
   */
  datatype Message =
    | AccountId(id: Uuid)
    | SearchStatus(status: AccountSearchStatus)
    | KeyRequest(accountId: Uuid)
    | KeyReply(key: PublicKey)

  /** The identity returned to the caller: the issued key and nothing else. */
  datatype AnonymousParty = AnonymousParty(owningKey: PublicKey)

  /** The persisted mapping from an account to a key issued for it. */
  datatype PublicKeyHashToExternalId = PublicKeyHashToExternalId(accountId: Uuid, publicKey: PublicKey)

  /** Why a run of either flow ended without its normal result. */
  datatype FlowError =
    | HostRejected(host: Party, identifier: UniqueIdentifier, name: string)  // the host answered NotFound
    | ProtocolViolation    // a receive found no message, or one of the wrong type
    | KeyExchangeFailed    // the key request sub-step obtained no key
    | KeyGenerationFailed  // the host's key service produced no key
    | PersistenceFailure   // writing the mapping record threw
}
