/** The two local IPC connection kinds: Unix domain sockets (POSIX only)
    and Windows named pipes (Windows only).  The platform is a parameter;
    what the filesystem reports about a path, and what the generic
    `Connection::connect` does, are oracles. */
module Ipc {
  import opened Basics
  import opened Exceptions

  datatype Platform = Posix | Windows

  /** What `access(F_OK)`, `access(R_OK | W_OK)`, `stat` and `S_ISSOCK`
      report about one path. */
  datatype FsFacts = FsFacts(exists_: bool, readWrite: bool, statOk: bool, isSocket: bool)

  /** The outcome of a `connect` call, the connection's `error_message_`
      afterwards, and the server argument it delegated to
      `Connection::connect`, if it did. */
  datatype ConnectResult = ConnectResult(outcome: Outcome<bool>, errorMessage: string, delegatedTo: Nullable<string>)

  // ---------------------------------------------------------------------
  // UnixDomainSocketConnection
  // ---------------------------------------------------------------------

  const UDS_COMPLAINT: string := "UnixDomainSocketConnection only works on POSIX systems"
  const NULL_PATH_MESSAGE: string := "NULL is not a valid Unix domain socket"

  /** The checks `is_socket` makes, in the order it makes them. */
  datatype Failure = Missing | NoAccess | NoStat | NotSocket

  /** The first check `facts` fails, if any. */
  function FirstFailure(facts: FsFacts): Nullable<Failure> {
    if !facts.exists_ then Ptr(Missing)
    else if !facts.readWrite then Ptr(NoAccess)
    else if !facts.statOk then Ptr(NoStat)
    else if !facts.isSocket then Ptr(NotSocket)
    else Null
  }

  /** The error text for a failed check on `path`. */
  function Message(f: Failure, path: string): string {
    match f
    case Missing => path + " does not exist"
    case NoAccess => "Don't have read-write permission for " + path
    case NoStat => "Failed to get information for " + path
    case NotSocket => path + " is not a Unix domain socket"
  }

  /** Reads back which check failed from a message about `path`: the four
      texts add different numbers of characters to the path. */
  function Diagnose(msg: string, path: string): Nullable<Failure> {
    if |msg| == |path| + 15 then Ptr(Missing)
    else if |msg| == |path| + 37 then Ptr(NoAccess)
    else if |msg| == |path| + 30 then Ptr(NoStat)
    else if |msg| == |path| + 28 then Ptr(NotSocket)
    else Null
  }

  /** The message names the failed check unambiguously. */
  lemma DiagnoseMessage(f: Failure, path: string)
    ensures Diagnose(Message(f, path), path) == Ptr(f)
  {
  }

  /** `is_socket(path, error)`: the verdict and the string `*error` holds
      afterwards (`Null` when no error string was passed). */
  function IsSocket(platform: Platform, path: Nullable<string>, fs: string -> FsFacts,
                    error: Nullable<string>): (r: (bool, Nullable<string>))
    ensures r.0 <==> platform == Posix && path.Ptr? && FirstFailure(fs(path.value)).Null?
    ensures error.Null? <==> r.1.Null?
    ensures r.0 && error.Ptr? ==> r.1 == Ptr("")
  {
    if platform == Posix && path.Ptr? then
      var failure := FirstFailure(fs(path.value));
      if failure.Null? then (true, if error.Ptr? then Ptr("") else Null)
      else (false, if error.Ptr? then Ptr(Message(failure.value, path.value)) else Null)
    else
      (false, if error.Ptr? then Ptr(if platform == Posix then NULL_PATH_MESSAGE else UDS_COMPLAINT) else Null)
  }

  /** `is_socket` is true iff the path exists, is readable and writable,
      can be stat'ed and is a socket; otherwise the message names the first
      of those checks to fail, whatever the later ones would say. */
  lemma IsSocketChain(path: string, fs: string -> FsFacts)
    ensures var facts := fs(path);
            var (ok, err) := IsSocket(Posix, Ptr(path), fs, Ptr("old"));
            (ok <==> facts.exists_ && facts.readWrite && facts.statOk && facts.isSocket)
            && (!ok ==> err.Ptr? && Diagnose(err.value, path) == FirstFailure(facts))
            && (!ok ==> FirstFailure(facts).Ptr? && err == Ptr(Message(FirstFailure(facts).value, path)))
            && (!facts.exists_ ==> err == Ptr(Message(Missing, path)))
            && (facts.exists_ && !facts.readWrite ==> err == Ptr(Message(NoAccess, path)))
  {
    var facts := fs(path);
    if FirstFailure(facts).Ptr? {
      DiagnoseMessage(FirstFailure(facts).value, path);
    }
  }

  /** A null path, and every path on Windows, is refused with a fixed
      message. */
  lemma IsSocketNullOrWindows(platform: Platform, path: Nullable<string>, fs: string -> FsFacts)
    requires platform == Windows || path.Null?
    ensures IsSocket(platform, path, fs, Ptr("")) ==
            (false, Ptr(if platform == Posix then NULL_PATH_MESSAGE else UDS_COMPLAINT))
  {
  }

  /** The socket test's three rejections: a socket without write
      permission, a name that does not exist, and a regular file. */
  lemma UdsRejections(path: string, fs: string -> FsFacts)
    requires fs(path) in {FsFacts(true, false, true, true), FsFacts(false, false, false, false),
                          FsFacts(true, true, true, false)}
    ensures !IsSocket(Posix, Ptr(path), fs, Null).0
  {
  }

  /** `UnixDomainSocketConnection::connect(path, db, user, pass)`:
      delegate to `Connection::connect` with `path` as the server when it
      names a usable socket, else fail with the message `is_socket` left
      (or the platform complaint on Windows). */
  function UdsConnect(platform: Platform, path: Nullable<string>, fs: string -> FsFacts,
                      throwExceptions: bool, errorMessage: string,
                      connect: string -> Outcome<bool>): (r: ConnectResult)
    ensures r.delegatedTo.Ptr? <==> IsSocket(platform, path, fs, Ptr(errorMessage)).0
    ensures r.delegatedTo.Ptr? ==> r.delegatedTo == path && r.outcome == connect(path.value)
    ensures r.delegatedTo.Null? && throwExceptions ==>
              r.outcome == Thrown(NewConnectionFailed(r.errorMessage, 0))
    ensures r.delegatedTo.Null? && !throwExceptions ==> r.outcome == Returned(false)
  {
    if platform == Posix then
      var (ok, err) := IsSocket(platform, path, fs, Ptr(errorMessage));
      if ok then ConnectResult(connect(path.value), err.value, path)
      else Fail(throwExceptions, err.value)
    else Fail(throwExceptions, UDS_COMPLAINT)
  }

  /** The common failure tail of both `connect`s. */
  function Fail(throwExceptions: bool, msg: string): (r: ConnectResult)
    ensures r.errorMessage == msg && r.delegatedTo.Null?
  {
    ConnectResult(if throwExceptions then Thrown(NewConnectionFailed(msg, 0)) else Returned(false), msg, Null)
  }

  /** A failed connect reports the same text it leaves in the connection,
      and that text names the failed check. */
  lemma UdsConnectFailureExplains(path: string, fs: string -> FsFacts, errorMessage: string,
                                  connect: string -> Outcome<bool>)
    requires FirstFailure(fs(path)).Ptr?
    ensures var r := UdsConnect(Posix, Ptr(path), fs, true, errorMessage, connect);
            r.outcome.Thrown? && r.outcome.error.what == r.errorMessage
            && Diagnose(r.errorMessage, path) == FirstFailure(fs(path))
  {
    DiagnoseMessage(FirstFailure(fs(path)).value, path);
  }

  // ---------------------------------------------------------------------
  // WindowsNamedPipeConnection
  // ---------------------------------------------------------------------

  const WNP_COMPLAINT: string := "WindowsNamedPipeConnection only works on Windows"
  const PIPE_SERVER: string := "."

  /** `is_wnp(server)`. */
  function IsWnp(platform: Platform, server: Nullable<string>): (r: bool)
    ensures r <==> platform == Windows && server == Ptr(PIPE_SERVER)
  {
    platform == Windows && server.Ptr? && server.value == PIPE_SERVER
  }

  /** `WindowsNamedPipeConnection::connect(db, user, pass)`. */
  function WnpConnect(platform: Platform, throwExceptions: bool, errorMessage: string,
                      connect: string -> Outcome<bool>): (r: ConnectResult)
    ensures platform == Windows ==> r.errorMessage == errorMessage
    ensures platform == Posix ==> r.errorMessage == WNP_COMPLAINT
    ensures platform == Windows ==> r.delegatedTo == Ptr(PIPE_SERVER) && r.outcome == connect(PIPE_SERVER)
    ensures platform == Posix ==> r.delegatedTo.Null?
    ensures platform == Posix && throwExceptions ==> r.outcome == Thrown(ConnectionFailed(WNP_COMPLAINT, 0))
    ensures platform == Posix && !throwExceptions ==> r.outcome == Returned(false)
  {
    if platform == Windows then ConnectResult(connect(PIPE_SERVER), errorMessage, Ptr(PIPE_SERVER))
    else Fail(throwExceptions, WNP_COMPLAINT)
  }

  /** On Windows `connect` delegates with exactly the server name `is_wnp`
      recognises; elsewhere it never succeeds and never delegates. */
  lemma WnpConnectMatchesIsWnp(platform: Platform, throwExceptions: bool, errorMessage: string,
                               connect: string -> Outcome<bool>)
    ensures var r := WnpConnect(platform, throwExceptions, errorMessage, connect);
            (r.delegatedTo.Ptr? <==> platform == Windows)
            && (r.delegatedTo.Ptr? ==> IsWnp(platform, r.delegatedTo) && r.outcome == connect(r.delegatedTo.value))
            && (platform == Posix ==> r.outcome != Returned(true))
  {
  }
}
