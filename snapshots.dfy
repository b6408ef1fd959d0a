/** The two external snapshots the front end mirrors: the wallet adapter
    reported by the Solana wallet connector, and the context of the
    sign-in-with-Solana state store. */
module Snapshots {
  import opened Wrappers

  /** A connected wallet adapter. `publicKey` is the text form of the key
      (`publicKey.toString()`); it is absent while the wallet has not exposed one. */
  datatype Adapter = Adapter(name: string, publicKey: Option<string>)

  datatype PrepareLoginStatus = PrepareIdle | Preparing | PrepareSuccess | PrepareFailed

  datatype LoginStatus = LoginIdle | LoggingIn | LoginSuccess | LoginFailed

  datatype SignMessageStatus = SignIdle | SignPending | SignSuccess | SignFailed

  /** An error object reported by the sign-in store; only its message is read. */
  datatype SiwsError = SiwsError(message: string)

  /** The delegated identity; only the text of its principal is read. */
  datatype Identity = Identity(principal: string)

  /** The fields of the sign-in store's context that the front end reads. */
  datatype SiwsContext = SiwsContext(
    prepareLoginStatus: PrepareLoginStatus,
    prepareLoginError: Option<SiwsError>,
    loginStatus: LoginStatus,
    loginError: Option<SiwsError>,
    signMessageStatus: SignMessageStatus,
    identity: Option<Identity>)
}
