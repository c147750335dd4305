/** The operations of anonbcast/op.go. L is how an operation holds its message list. */
module Ops {
  import opened Bytes
  import opened Crypto

  /** Participants are told apart by their identifiers only. */
  datatype Uuid = Uuid(bits: nat)

  datatype Operation<+L> =
    | JoinOp(id: Uuid, r: int)
    | StartOp(id: Uuid, r: int, crypto: Option<Crypto>)
    | MessageOp(id: Uuid, r: int, message: Msg, revealKeyHash: seq<byte>)
    | EncryptedOp(id: Uuid, r: int, messages: L, prev: int)
    | ScrambledOp(id: Uuid, r: int, messages: L)
    | DecryptedOp(id: Uuid, r: int, messages: L, prev: int)
    | RevealOp(id: Uuid, r: int, revealKey: PrivateKey)
    | AbortOp(r: int)

  type Op = Operation<seq<Msg>>

  /** The operations that bring a new message list along. */
  predicate RewritesMessages<L>(op: Operation<L>) {
    op.EncryptedOp? || op.ScrambledOp? || op.DecryptedOp?
  }
}
