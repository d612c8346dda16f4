/** The exceptions the stub lets escape, as values. */
module Exceptions {

  import opened Bytes

  datatype Exception =
    | NullPointerException
    | IllegalArgumentException
      /** An `InvalidProtocolBufferException` rethrown as a `RuntimeException`. */
    | MalformedProposal
      /** The "Unexpected transaction type" `RuntimeException`. */
    | UnsupportedProposalType(headerType: int32)
      /** Thrown by `CompositeKey.validateSimpleKeys`. */
    | CompositeKeyFormatException
}
