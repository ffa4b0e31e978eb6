/** Vocabulary shared by the two connection clients and the tunnel supervisor. */
module ConnTypes {

  datatype Option<+T> = None | Some(value: T)

  /** pkg/sshclient/connstate.go: the last known state of an upstream's connection. */
  datatype ConnState = ConnUnknown | ConnConnected | ConnDisconnected | ConnConnecting | ConnAwaitingApproval

  type CtxId = nat

  /** Go's Time.After is strict: an event at the very instant of the other is not after it. */
  predicate IsAfter(at: nat, since: nat) {
    at > since
  }
}
