/** Connection options.  Each C++ `Option` subclass becomes a `Kind` tag
    plus a payload; the double dispatch `Option::set` -> `set_option_impl`
    becomes a call of a handler on the tag. */
module Options {

  /** `Option::Error`: how applying an option went. */
  datatype Error =
    | NONE           // applied
    | ApiLimit       // the C API build or version cannot do it
    | ApiReject      // the C API refused the value
    | Connected      // may only be set before the connection is up
    | Disconnected   // may only be set once the connection is up

  /** One tag per concrete `Option` subclass the driver knows. */
  datatype Kind =
    | Compress | ConnectTimeout | FoundRows | GuessConnection | IgnoreSpace
    | InitCommand | Interactive | LocalFiles | LocalInfile | MultiResults
    | MultiStatements | NamedPipe | NoSchema | Protocol | ReadDefaultFile
    | ReadDefaultGroup | ReadTimeout | Reconnect | ReportDataTruncation
    | SecureAuth | SetCharsetDir | SetCharsetName | SetClientIp
    | SharedMemoryBaseName | Ssl | UseEmbeddedConnection
    | UseRemoteConnection | WriteTimeout

  /** The payload an option carries: none, a flag, an unsigned count, a
      string, or the five strings of an SSL setup. */
  datatype Arg =
    | NoArg
    | Flag(on: bool)
    | Count(n: nat)
    | Text(s: string)
    | SslArgs(key: string, cert: string, ca: string, capath: string, cipher: string)

  datatype Option = Option(kind: Kind, arg: Arg)

  /** The flag carried by a boolean option; the options that carry none
      behave as if given `false`. */
  function FlagOf(o: Option): bool {
    if o.arg.Flag? then o.arg.on else false
  }

  /** The two codes with which `set_option` reports success. */
  predicate Accepted(e: Error) {
    e == NONE || e == Disconnected
  }
}
