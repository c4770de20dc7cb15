/**
 The vocabulary shared by conditions, errors and controllers.

 Reasons and messages are strings in the system; no code ever branches on them, so each
 constant of api/accounts/v1alpha1/constants.go is a constructor, and a message stands for
 the fault (or the count) that its text reports.
 */
module Texts {

  datatype Option<+T> = None | Some(value: T)

  datatype Reason =
    | NoReason
    | UnsupportedIssuer
    | InvalidSigningKeyOwner
    | NotReady
    | NotFound
    | NotAllowed
    | UnknownError
    | MalformedSeedSecret
    | IssuerSeedError
    | PublicKeyMismatch
    | InvalidSeedSecret
    | InvalidJWTSecret
    | JWTPushError
    | KeysUpdated
    | OtherReason(text: string)

  datatype Fault =
    | ApiCallFailed
    | KeyGenerationFailed
    | BuildFailed
    | EncodeFailed
    | ObjectMissing
    | ObjectNotReady
    | FieldMissing
    | FieldUnparsable
    | WrongPrefix
    | WrongKey
    | WrongKind
    | SelectorInvalid
    | SelectorMismatch
    | NatsFailed
    | NilDereference

  datatype Message = NoMessage | FoundKeys(count: nat) | Reports(fault: Fault) | OtherMessage(text: string)
}
