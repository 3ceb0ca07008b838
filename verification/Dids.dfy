/**
 * did:peer:4 in its two spellings, and what else the same DID could be written as.
 *
 * The store compares DIDs for equality, asks of one whether it is a long form
 * and which short form that cuts to, and lists recipients in the order of
 * their text. A number stands for each text. A short form is its hash, the
 * number its 44 base58 digits write: digits of one length sort as their text
 * does, the alphabet being in character order.
 */
module Dids {
  datatype Option<+T> = None | Some(value: T)

  datatype Did =
    | Short(hash: nat)
    | Long(hash: nat, document: nat)
    | Other(text: nat)

  /** The other name to look for: a long form's short one. */
  function Canonical(did: Did): (c: Did) {
    if did.Long? then Short(did.hash) else did
  }

  /** `longForm` is a long form of `did`: what it cuts to. */
  predicate Spells(longForm: Did, did: Did) {
    longForm.Long? && did == Short(longForm.hash)
  }
}
