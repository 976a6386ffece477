/** The node's durable store of account-to-key mappings, append-only. */
module RecordStores {
  import opened AccountKeyTypes

  class RecordStore {
    /** Every mapping persisted so far, oldest first. */
    var records: seq<PublicKeyHashToExternalId>
    /** Whether a write to the store throws (an I/O failure, chosen by the environment). */
    const writeFails: bool

    constructor (initial: seq<PublicKeyHashToExternalId>, writeFails: bool)
      ensures records == initial && this.writeFails == writeFails
    {
      records := initial;
      this.writeFails := writeFails;
    }

    /** `persist`: appends `r`, or throws (`ok` false) and leaves the store as it was. */
    method Persist(r: PublicKeyHashToExternalId) returns (ok: bool)
      modifies this
      ensures ok == !writeFails
      ensures records == if ok then old(records) + [r] else old(records)
    {
      if writeFails {
        ok := false;
      } else {
        records := records + [r];
        ok := true;
      }
    }
  }
}
