/** The MySQL leaf driver: the per-kind option rules, the `client_flag`
    validator, connect/disconnect, and the thin wrappers around C API calls.
    Every C API call is an oracle: its return code is an input.  The build
    configuration (`MYSQL_VERSION_ID`, `HAVE_MYSQL_SSL_SET`) is a parameter. */
module MySQLDriver {
  import opened Basics
  import opened Options
  import opened DBDriver

  /** How the library was compiled. */
  datatype Build = Build(version: nat, haveSslSet: bool)

  /** What the C API answers: the return codes of `mysql_options`,
      `mysql_ssl_set` (for the given option) and `mysql_set_server_option`
      (for the requested on/off state). */
  datatype CApi = CApi(options: Option -> int, sslSet: Option -> int, setServerOption: bool -> int)

  /** The part of the C `MYSQL` handle the model tracks. */
  datatype MySQLState = MySQLState(clientFlag: bv32)

  // The `CLIENT_*` capability bits of the MySQL C API.
  const CLIENT_LONG_PASSWORD: bv32 := 1
  const CLIENT_FOUND_ROWS: bv32 := 2
  const CLIENT_NO_SCHEMA: bv32 := 16
  const CLIENT_LOCAL_FILES: bv32 := 128
  const CLIENT_IGNORE_SPACE: bv32 := 256
  const CLIENT_INTERACTIVE: bv32 := 1024
  const CLIENT_TRANSACTIONS: bv32 := 8192
  const CLIENT_MULTI_STATEMENTS: bv32 := 0x1_0000
  const CLIENT_MULTI_RESULTS: bv32 := 0x2_0000

  /** C functions that return 0 on success and are wrapped as `!f(...)`. */
  function ZeroMeansSuccess(rc: int): (ok: bool) {
    rc == 0
  }

  /** The `f(...) == 0 ? err_NONE : err_api_reject` pattern. */
  function ZeroIsNone(rc: int): (e: Error)
    ensures e == NONE || e == ApiReject
    ensures e == NONE <==> ZeroMeansSuccess(rc)
  {
    if rc == 0 then NONE else ApiReject
  }

  // ---------------------------------------------------------------------
  // set_option_internal(unsigned int, bool): the client_flag validator
  // ---------------------------------------------------------------------

  /** Exactly one bit of `o` is set. */
  predicate IsSingleBit(o: bv32) {
    o != 0 && o & (o - 1) == 0
  }

  /** The highest flag the C API of this version understands. */
  function HighestFlag(b: Build): bv32 {
    if b.version > 40000 then CLIENT_MULTI_RESULTS else CLIENT_TRANSACTIONS
  }

  /** Which values `set_option_internal(o, arg)` agrees to treat as a flag. */
  predicate FlagAccepted(b: Build, o: bv32) {
    IsSingleBit(o) && CLIENT_LONG_PASSWORD <= o <= HighestFlag(b)
  }

  /** `client_flag` after setting (`arg`) or clearing bit `o`. */
  function ApplyFlag(flag: bv32, o: bv32, arg: bool): bv32 {
    if arg then flag | o else flag & !o
  }

  /** The validator as a function of the old flags. */
  function SetFlag(b: Build, flag: bv32, o: bv32, arg: bool): (r: (bool, bv32)) {
    if FlagAccepted(b, o) then (true, ApplyFlag(flag, o, arg)) else (false, flag)
  }

  /** Halving an even non-zero value keeps the number of set bits. */
  lemma ShiftKeepsSingleBit(n: bv32)
    requires n != 0 && n & 1 == 0
    ensures IsSingleBit(n >> 1) <==> IsSingleBit(n)
  {
  }

  /** Once the low bit is set, one bit is set only if the value is 1. */
  lemma OddSingleBit(n: bv32)
    requires n & 1 == 1
    ensures IsSingleBit(n) <==> n == 1
  {
  }

  /** The loop at the head of `set_option_internal(o, arg)`: shift `o`
      right while its low bit is clear; one bit was set iff 1 is left.  The
      source shifts a signed `int`; the model shifts the unsigned value,
      which only differs for `o` with bit 31 set, rejected either way by
      the range test. */
  method StripLowZeros(o: bv32) returns (n: bv32)
    ensures n == 1 <==> IsSingleBit(o)
  {
    n := o;
    while n != 0 && n & 1 == 0
      invariant n == 0 <==> o == 0
      invariant IsSingleBit(n) <==> IsSingleBit(o)
      decreases n
    {
      ShiftKeepsSingleBit(n);
      n := n >> 1;
    }
    if n != 0 {
      OddSingleBit(n);
    }
  }

  /** `set_option_internal(o, arg)`: set or clear bit `o` of `client_flag`
      when `o` is a single bit in the range this version knows. */
  method SetOptionInternal(b: Build, flag: bv32, o: bv32, arg: bool) returns (ok: bool, newFlag: bv32)
    ensures ok <==> FlagAccepted(b, o)
    ensures ok ==> newFlag == ApplyFlag(flag, o, arg)
    ensures !ok ==> newFlag == flag
  {
    var n := StripLowZeros(o);
    if n == 1 && o >= CLIENT_LONG_PASSWORD && o <= HighestFlag(b) {
      newFlag := ApplyFlag(flag, o, arg);
      ok := true;
    } else {
      newFlag := flag;
      ok := false;
    }
  }

  /** The capability bits from `CLIENT_LONG_PASSWORD` (1) up to
      `CLIENT_MULTI_RESULTS` (1 << 17), in order. */
  const CAPABILITY_BITS: seq<bv32> := [
    1, 2, 4, 8, 16, 32, 64, 128, 256, 512, 1024, 2048, 4096, 8192,
    0x4000, 0x8000, 0x1_0000, 0x2_0000]

  /** The capability bits the C API of this version defines. */
  function KnownFlags(b: Build): seq<bv32> {
    if b.version > 40000 then CAPABILITY_BITS else CAPABILITY_BITS[..14]
  }

  /** The accepted values are exactly the capability bits this version
      defines: eighteen from MySQL 4.0.1 on, fourteen (up to
      `CLIENT_TRANSACTIONS`) before. */
  lemma FlagAcceptedIsKnownFlag(b: Build, o: bv32)
    ensures FlagAccepted(b, o) <==> o in KnownFlags(b)
  {
    var known := KnownFlags(b);
    assert known[|known| - 1] == HighestFlag(b);
    if FlagAccepted(b, o) {
      if o == 1 { assert known[0] == o; }
      else if o == 2 { assert known[1] == o; }
      else if o == 4 { assert known[2] == o; }
      else if o == 8 { assert known[3] == o; }
      else if o == 16 { assert known[4] == o; }
      else if o == 32 { assert known[5] == o; }
      else if o == 64 { assert known[6] == o; }
      else if o == 128 { assert known[7] == o; }
      else if o == 256 { assert known[8] == o; }
      else if o == 512 { assert known[9] == o; }
      else if o == 1024 { assert known[10] == o; }
      else if o == 2048 { assert known[11] == o; }
      else if o == 4096 { assert known[12] == o; }
      else if o == 8192 { assert known[13] == o; }
      else if o == 0x4000 { assert known[14] == o; }
      else if o == 0x8000 { assert known[15] == o; }
      else if o == 0x1_0000 { assert known[16] == o; }
      else { assert known[17] == o; }
    }
  }

  /** Setting bit `o` sets it and keeps every other bit. */
  lemma SetBitKeepsOthers(flag: bv32, o: bv32)
    requires IsSingleBit(o)
    ensures ApplyFlag(flag, o, true) & o != 0
    ensures ApplyFlag(flag, o, true) & !o == flag & !o
  {
  }

  /** Clearing bit `o` clears it and keeps every other bit. */
  lemma ClearBitKeepsOthers(flag: bv32, o: bv32)
    ensures ApplyFlag(flag, o, false) & o == 0
    ensures ApplyFlag(flag, o, false) & !o == flag & !o
  {
  }

  /** Making the same accepted call twice is making it once. */
  lemma SetFlagIdempotent(b: Build, flag: bv32, o: bv32, arg: bool)
    requires FlagAccepted(b, o)
    ensures SetFlag(b, flag, o, arg) == (true, ApplyFlag(flag, o, arg))
    ensures SetFlag(b, ApplyFlag(flag, o, arg), o, arg) == SetFlag(b, flag, o, arg)
  {
    ApplyTwice(flag, o, arg);
  }

  lemma ApplyTwice(flag: bv32, o: bv32, arg: bool)
    ensures ApplyFlag(ApplyFlag(flag, o, arg), o, arg) == ApplyFlag(flag, o, arg)
  {
    if arg {
      assert (flag | o) | o == flag | o;
    } else {
      assert (flag & !o) & !o == flag & !o;
    }
  }

  // ---------------------------------------------------------------------
  // Per-kind option rules
  // ---------------------------------------------------------------------

  /** Whether the option kind exists in this build at all. */
  predicate Supported(b: Build, k: Kind) {
    match k
    case GuessConnection | MultiResults | MultiStatements | ReadTimeout
       | SecureAuth | SetClientIp | UseEmbeddedConnection
       | UseRemoteConnection | WriteTimeout => b.version >= 40101
    case Protocol => b.version > 40000
    case Reconnect => b.version >= 50013
    case ReportDataTruncation => b.version >= 50003
    case SharedMemoryBaseName => b.version >= 40100
    case Ssl => b.haveSslSet
    case _ => true
  }

  /** The `client_flag` bit a flag-style option kind sets before connecting. */
  function FlagBit(k: Kind): Nullable<bv32> {
    match k
    case FoundRows => Ptr(CLIENT_FOUND_ROWS)
    case IgnoreSpace => Ptr(CLIENT_IGNORE_SPACE)
    case Interactive => Ptr(CLIENT_INTERACTIVE)
    case LocalFiles => Ptr(CLIENT_LOCAL_FILES)
    case NoSchema => Ptr(CLIENT_NO_SCHEMA)
    case MultiResults => Ptr(CLIENT_MULTI_RESULTS)
    case MultiStatements => Ptr(CLIENT_MULTI_STATEMENTS)
    case _ => Null
  }

  /** `set_multi_statements_option(enable)` given the C call's return code. */
  function SetMultiStatementsOption(b: Build, rc: int): (e: Error)
    ensures b.version >= 40101 ==> e == ZeroIsNone(rc)
    ensures b.version < 40101 ==> e == ApiLimit
  {
    if b.version >= 40101 then ZeroIsNone(rc) else ApiLimit
  }

  /** A flag-style option set while disconnected. */
  function FlagRule(b: Build, st: MySQLState, bit: bv32, arg: bool): (MySQLState, Error) {
    var (ok, f) := SetFlag(b, st.clientFlag, bit, arg);
    (MySQLState(f), if ok then NONE else ApiReject)
  }

  /** `MySQLDriver::set_option_impl` for every kind, with the connected
      branch of MultiResults and MultiStatements returning the result of
      `set_multi_statements_option`, as it evidently should. */
  function Impl(b: Build, api: CApi, connected: bool, st: MySQLState, o: Option): (r: (MySQLState, Error)) {
    if !Supported(b, o.kind) then (st, ApiLimit)
    else match o.kind
      case Reconnect =>
        if b.version >= 50106 || connected then (st, ZeroIsNone(api.options(o)))
        else (st, Disconnected)
      case MultiResults | MultiStatements =>
        if connected then (st, SetMultiStatementsOption(b, api.setServerOption(FlagOf(o))))
        else FlagRule(b, st, FlagBit(o.kind).value, FlagOf(o))
      case FoundRows | IgnoreSpace | Interactive | LocalFiles | NoSchema =>
        if connected then (st, Connected) else FlagRule(b, st, FlagBit(o.kind).value, FlagOf(o))
      case Ssl =>
        if connected then (st, Connected) else (st, ZeroIsNone(api.sslSet(o)))
      case _ =>
        if connected then (st, Connected) else (st, ZeroIsNone(api.options(o)))
  }

  /** The rules as written: the connected branch of MultiResults and
      MultiStatements calls `set_multi_statements_option` and then falls
      off the end of the function without returning (`Null`). */
  function ImplAsWritten(b: Build, api: CApi, connected: bool, st: MySQLState, o: Option): (r: Nullable<(MySQLState, Error)>)
    ensures r.Null? <==> (o.kind == MultiResults || o.kind == MultiStatements) && connected && b.version >= 40101
    ensures r.Ptr? ==> r.value == Impl(b, api, connected, st, o)
  {
    if Supported(b, o.kind) && (o.kind == MultiResults || o.kind == MultiStatements) && connected then Null
    else Ptr(Impl(b, api, connected, st, o))
  }

  /** The missing return is reached on any 4.1.1 or later build as soon as
      multi-statements are switched while connected. */
  lemma MultiStatementsConnectedReturnsNothing(api: CApi, st: MySQLState)
    ensures ImplAsWritten(Build(50000, true), api, true, st, Option(MultiStatements, Flag(true))).Null?
    ensures Impl(Build(50000, true), api, true, st, Option(MultiStatements, Flag(true))).1
            == ZeroIsNone(api.setServerOption(true))
  {
  }

  /** The corrected rules on every build and for both kinds: switching
      MultiResults or MultiStatements while connected leaves the state
      alone and reports what `set_multi_statements_option` reports, where
      the rules as written return nothing from 4.1.1 on. */
  lemma ImplConnectedMultiStatements(b: Build, api: CApi, st: MySQLState, o: Option)
    requires o.kind == MultiResults || o.kind == MultiStatements
    requires Supported(b, o.kind)
    ensures Impl(b, api, true, st, o) == (st, SetMultiStatementsOption(b, api.setServerOption(FlagOf(o))))
    ensures Impl(b, api, true, st, o).1 == NONE <==> api.setServerOption(FlagOf(o)) == 0
    ensures ImplAsWritten(b, api, true, st, o).Null?
  {
  }

  /** The handler the MySQL driver hands to the generic option machinery. */
  function Handler(b: Build, api: CApi): Handler<MySQLState> {
    (c, st, o) => Impl(b, api, c, st, o)
  }

  /** Options that must be set before connecting: refused with
      `err_connected` once connected; otherwise NONE exactly when the C
      setter returns 0.  The C-setter kinds leave `client_flag` alone. */
  lemma PreConnectRule(b: Build, api: CApi, connected: bool, st: MySQLState, o: Option)
    requires Supported(b, o.kind)
    requires o.kind !in {Reconnect, MultiResults, MultiStatements}
    ensures connected ==> Impl(b, api, connected, st, o) == (st, Connected)
    ensures !connected && FlagBit(o.kind).Null? ==>
              Impl(b, api, connected, st, o).0 == st
              && (Impl(b, api, connected, st, o).1 == NONE <==>
                  (if o.kind == Ssl then api.sslSet(o) else api.options(o)) == 0)
  {
  }

  /** Flag-style options set while disconnected always pass the validator:
      the option is applied and only its own bit of `client_flag` moves. */
  lemma FlagKindsApplyBeforeConnect(b: Build, api: CApi, st: MySQLState, o: Option)
    requires Supported(b, o.kind) && FlagBit(o.kind).Ptr?
    ensures var (st2, e) := Impl(b, api, false, st, o);
            e == NONE && st2.clientFlag == ApplyFlag(st.clientFlag, FlagBit(o.kind).value, FlagOf(o))
  {
    var bit := FlagBit(o.kind).value;
    assert FlagAccepted(b, bit);
  }

  /** A kind compiled out of this build answers `err_api_limit` whatever
      the state. */
  lemma CompiledOutIsApiLimit(b: Build, api: CApi, connected: bool, st: MySQLState, o: Option)
    requires !Supported(b, o.kind)
    ensures Impl(b, api, connected, st, o) == (st, ApiLimit)
    ensures o.kind in {GuessConnection, MultiResults, MultiStatements, Protocol, ReadTimeout, Reconnect,
                       ReportDataTruncation, SecureAuth, SetClientIp, SharedMemoryBaseName, Ssl,
                       UseEmbeddedConnection, UseRemoteConnection, WriteTimeout}
  {
  }

  /** Only Reconnect, set while disconnected on MySQL 5.0.13 up to 5.1.5,
      is ever deferred. */
  lemma OnlyReconnectDefers(b: Build, api: CApi, connected: bool, st: MySQLState, o: Option)
    ensures Impl(b, api, connected, st, o).1 == Disconnected <==>
            o.kind == Reconnect && !connected && 50013 <= b.version < 50106
  {
  }

  /** Hence the pending queue of a MySQL driver holds nothing but
      Reconnect options. */
  lemma PendingHoldsOnlyReconnect(b: Build, api: CApi, d: Driver<MySQLState>, o: Option)
    requires forall i :: 0 <= i < |d.pending| ==> d.pending[i].kind == Reconnect
    ensures var r := SetOption(d, o, Handler(b, api));
            forall i :: 0 <= i < |r.driver.pending| ==> r.driver.pending[i].kind == Reconnect
  {
    var r := SetOption(d, o, Handler(b, api));
    OnlyReconnectDefers(b, api, d.connected, d.leaf, o);
    if r.driver.pending != d.pending {
      assert r.driver.pending == d.pending + [o];
    }
  }

  // ---------------------------------------------------------------------
  // Connecting and disconnecting
  // ---------------------------------------------------------------------

  /** `disconnect()`: when connected, close the handle and zero it
      (`client_flag` included). */
  function Disconnect(d: Driver<MySQLState>): (r: Driver<MySQLState>)
    ensures !r.connected
    ensures !d.connected ==> r == d
    ensures r.applied == d.applied && r.pending == d.pending && r.optionError == d.optionError
  {
    if d.connected then d.(connected := false, leaf := MySQLState(0)) else d
  }

  lemma DisconnectIdempotent(d: Driver<MySQLState>)
    ensures Disconnect(Disconnect(d)) == Disconnect(d)
  {
  }

  /** `connect(...)` as written: disconnect, apply pending options,
      `mysql_real_connect` (its success is `handshake`), then the base hook,
      storing the conjunction in `is_connected_`.  The base hook runs while
      `is_connected_` is still false. */
  function ConnectAsWritten(b: Build, api: CApi, d: Driver<MySQLState>, handshake: bool): (r: Step<MySQLState>)
    ensures r.ok == r.driver.connected
  {
    var h := Handler(b, api);
    var d0 := Disconnect(d);
    var p := ApplyPending(d0, h);
    if !p.ok then Step(false, p.driver.(connected := false))
    else if !handshake then Step(false, p.driver.(connected := false))
    else
      var base := BaseConnect(p.driver, h);
      Step(base.ok, base.driver.(connected := base.ok))
  }

  /** Connecting never succeeds as written, whatever the server says. */
  lemma ConnectAsWrittenNeverConnects(b: Build, api: CApi, d: Driver<MySQLState>, handshake: bool)
    ensures !ConnectAsWritten(b, api, d, handshake).ok
    ensures !ConnectAsWritten(b, api, d, handshake).driver.connected
  {
  }

  /** `connect(...)` with `is_connected_` set once the handshake succeeds,
      so that the base hook can report success.  The options queue is
      replayed while the handle is still disconnected, so a Reconnect that
      is deferred again there is dropped with the queue (see
      `QueuedReconnectDiscarded`); the base hook's replay then finds the
      queue empty. */
  function Connect(b: Build, api: CApi, d: Driver<MySQLState>, handshake: bool): (r: Step<MySQLState>)
    ensures r.ok == r.driver.connected
    ensures r.ok ==> handshake && r.driver.pending == []
  {
    var h := Handler(b, api);
    var d0 := Disconnect(d);
    var p := ApplyPending(d0, h);
    if !p.ok then Step(false, p.driver.(connected := false))
    else if !handshake then Step(false, p.driver.(connected := false))
    else
      var base := BaseConnect(p.driver.(connected := true), h);
      Step(base.ok, base.driver.(connected := base.ok))
  }

  /** The connect succeeds exactly when the replay of the queue before the
      handshake does and the handshake does; the base hook adds nothing. */
  lemma ConnectSucceedsIffHandshake(b: Build, api: CApi, d: Driver<MySQLState>, handshake: bool)
    ensures Connect(b, api, d, handshake).ok <==>
            ApplyPending(Disconnect(d), Handler(b, api)).ok && handshake
    ensures Connect(b, api, d, handshake).ok ==>
            Connect(b, api, d, handshake).driver.applied == ApplyPending(Disconnect(d), Handler(b, api)).driver.applied
  {
    var h := Handler(b, api);
    var p := ApplyPending(Disconnect(d), h);
    if p.ok && handshake {
      var live := p.driver.(connected := true);
      assert ApplyPending(live, h).driver == live.(optionError := NONE);
    }
  }

  /** On MySQL 5.0.13 up to 5.1.5, replaying Reconnect options while
      disconnected defers every one of them again and applies none. */
  lemma {:induction false} ReplayDefersReconnects(b: Build, api: CApi, d: Driver<MySQLState>, todo: seq<Option>)
    requires !d.connected && 50013 <= b.version < 50106
    requires forall i :: 0 <= i < |todo| ==> todo[i].kind == Reconnect
    ensures var r := Replay(d, todo, Handler(b, api));
            r.ok && !r.driver.connected && r.driver.leaf == d.leaf &&
            r.driver.applied == d.applied && r.driver.pending == d.pending + todo
    decreases |todo|
  {
    if todo != [] {
      var s := SetOption(d, todo[0], Handler(b, api));
      assert s.ok && s.driver.pending == d.pending + [todo[0]];
      ReplayDefersReconnects(b, api, s.driver, todo[1..]);
      assert (d.pending + [todo[0]]) + todo[1..] == d.pending + todo;
    }
  }

  /** On a live connection of MySQL 5.0.13 or later, Reconnect options
      the C API accepts are applied in order. */
  lemma {:induction false} ReplayAppliesReconnects(b: Build, api: CApi, d: Driver<MySQLState>, todo: seq<Option>)
    requires d.connected && b.version >= 50013
    requires forall i :: 0 <= i < |todo| ==> todo[i].kind == Reconnect && api.options(todo[i]) == 0
    ensures var r := Replay(d, todo, Handler(b, api));
            r.ok && r.driver.applied == d.applied + todo && r.driver.pending == d.pending
    decreases |todo|
  {
    if todo != [] {
      var s := SetOption(d, todo[0], Handler(b, api));
      assert s.ok && s.driver.applied == d.applied + [todo[0]];
      ReplayAppliesReconnects(b, api, s.driver, todo[1..]);
      assert (d.applied + [todo[0]]) + todo[1..] == d.applied + todo;
    }
  }

  /** As written, a Reconnect set before connecting on MySQL 5.0.13 up to
      5.1.5 is never applied: the replay before the handshake defers it
      again and then clears the queue, so the connect behaves as if it had
      never been set. */
  lemma QueuedReconnectDiscarded(b: Build, api: CApi, d: Driver<MySQLState>, handshake: bool)
    requires 50013 <= b.version < 50106
    requires forall i :: 0 <= i < |d.pending| ==> d.pending[i].kind == Reconnect
    ensures Connect(b, api, d, handshake).ok <==> handshake
    ensures Connect(b, api, d, handshake).driver.applied == d.applied
    ensures Connect(b, api, d, handshake).driver.pending == []
  {
    var h := Handler(b, api);
    var d0 := Disconnect(d);
    ReplayDefersReconnects(b, api, d0.(optionError := NONE), d.pending);
    var p := ApplyPending(d0, h);
    assert p.ok && p.driver.applied == d.applied && p.driver.pending == [];
    if handshake {
      var live := p.driver.(connected := true);
      assert ApplyPending(live, h).driver == live.(optionError := NONE);
    }
  }

  /** The connect as intended: the replay before the handshake keeps what
      it defers again, and the base hook applies it on the live
      connection. */
  function ConnectKeepingDeferred(b: Build, api: CApi, d: Driver<MySQLState>, handshake: bool): (r: Step<MySQLState>)
    ensures r.ok == r.driver.connected
    ensures r.ok ==> handshake && r.driver.pending == []
  {
    var h := Handler(b, api);
    var p := ApplyPendingKeepingDeferred(Disconnect(d), h);
    if !p.ok || !handshake then Step(false, p.driver.(connected := false))
    else
      var base := BaseConnect(p.driver.(connected := true), h);
      Step(base.ok, base.driver.(connected := base.ok))
  }

  /** Intended: the queued Reconnect options reach `mysql_options` once the
      connection is up, in the order they were set. */
  lemma QueuedReconnectApplied(b: Build, api: CApi, d: Driver<MySQLState>)
    requires 50013 <= b.version < 50106
    requires forall i :: 0 <= i < |d.pending| ==> d.pending[i].kind == Reconnect && api.options(d.pending[i]) == 0
    ensures ConnectKeepingDeferred(b, api, d, true).ok
    ensures ConnectKeepingDeferred(b, api, d, true).driver.applied == d.applied + d.pending
  {
    var h := Handler(b, api);
    var d0 := Disconnect(d);
    ReplayDefersReconnects(b, api, d0.(optionError := NONE, pending := []), d.pending);
    var p := ApplyPendingKeepingDeferred(d0, h);
    assert p.ok && p.driver.applied == d.applied && p.driver.pending == d.pending;
    var live := p.driver.(connected := true);
    ReplayAppliesReconnects(b, api, live.(optionError := NONE), d.pending);
  }

  /** Outside the 5.0.13 to 5.1.5 window nothing is ever deferred, so the
      replay leaves the queue as it found it. */
  lemma {:induction false} ReplayKeepsQueueOutsideWindow(b: Build, api: CApi, d: Driver<MySQLState>, todo: seq<Option>)
    requires b.version < 50013 || b.version >= 50106
    ensures Replay(d, todo, Handler(b, api)).driver.pending == d.pending
    decreases |todo|
  {
    if todo != [] {
      OnlyReconnectDefers(b, api, d.connected, d.leaf, todo[0]);
      var s := SetOption(d, todo[0], Handler(b, api));
      if s.ok {
        ReplayKeepsQueueOutsideWindow(b, api, s.driver, todo[1..]);
      }
    }
  }

  /** Outside that window the written and the intended connect coincide. */
  lemma ConnectsAgreeOutsideWindow(b: Build, api: CApi, d: Driver<MySQLState>, handshake: bool)
    requires b.version < 50013 || b.version >= 50106
    ensures ConnectKeepingDeferred(b, api, d, handshake) == Connect(b, api, d, handshake)
  {
    var h := Handler(b, api);
    var d0 := Disconnect(d);
    ApplyPendingDropsDeferred(d0, h);
    ReplayKeepsQueueOutsideWindow(b, api, d0.(optionError := NONE, pending := []), d0.pending);
    assert ApplyPendingKeepingDeferred(d0, h) == ApplyPending(d0, h);
  }

  // ---------------------------------------------------------------------
  // escape_string(std::string*, const char*, size_t)
  // ---------------------------------------------------------------------

  /** The C string `s` up to (not including) its terminating NUL. */
  function CString(s: string): (r: string)
    requires '\0' in s
    ensures '\0' !in r && r + "\0" <= s
  {
    if s[0] == '\0' then [] else [s[0]] + CString(s[1..])
  }

  /** What is handed to the `char*` escaper: the source text and the size
      of the scratch buffer. */
  datatype EscapeCall = EscapeCall(source: string, bufferSize: nat)

  /** Argument resolution of `escape_string(ps, original, length)`. */
  function EscapeArguments(ps: Nullable<string>, original: Nullable<string>, length: nat): (r: Nullable<EscapeCall>)
    requires ps.Ptr? && original.Ptr? && length == 0 ==> '\0' in original.value
    requires ps.Ptr? && original.Ptr? ==> length <= |original.value|
    ensures r.Null? <==> ps.Null?
    ensures r.Ptr? ==> r.value.bufferSize == 2 * |r.value.source| + 1
    ensures ps.Ptr? && original.Null? ==> r.value.source == ps.value
    ensures ps.Ptr? && original.Ptr? && length == 0 ==>
              '\0' !in r.value.source && r.value.source + "\0" <= original.value
    ensures ps.Ptr? && original.Ptr? && length > 0 ==> r.value.source == original.value[..length]
  {
    if ps.Null? then Null
    else
      var src := if original.Null? then ps.value
                 else if length == 0 then CString(original.value)
                 else original.value[..length];
      Ptr(EscapeCall(src, |src| * 2 + 1))
  }

  /** `escape_string(ps, original, length)`: resolve the arguments, escape
      into the scratch buffer with the C escaper `esc`, store the result in
      `*ps` and return its length.  A null `ps` does nothing and returns 0. */
  function EscapeString(ps: Nullable<string>, original: Nullable<string>, length: nat,
                        esc: string -> string): (r: (nat, Nullable<string>))
    requires ps.Ptr? && original.Ptr? && length == 0 ==> '\0' in original.value
    requires ps.Ptr? && original.Ptr? ==> length <= |original.value|
    ensures ps.Null? ==> r == (0, Null)
    ensures ps.Ptr? ==> r.1.Ptr? && r.0 == |r.1.value|
    ensures ps.Ptr? && original.Null? ==> r.1 == Ptr(esc(ps.value))
    ensures ps.Ptr? && original.Ptr? && length > 0 ==> r.1 == Ptr(esc(original.value[..length]))
    ensures ps.Ptr? && original.Ptr? && length == 0 ==> r.1 == Ptr(esc(CString(original.value)))
  {
    var call := EscapeArguments(ps, original, length);
    if call.Null? then (0, Null)
    else
      var out := esc(call.value.source);
      (|out|, Ptr(out))
  }

  // ---------------------------------------------------------------------
  // Thin wrappers in the driver header
  // ---------------------------------------------------------------------

  /** `DBDriver::nr_code`. */
  datatype NrCode = MoreResultsCode | LastResult | NrError | NotSupported

  /** `next_result()` as written, gated on `MYSQL_VERSION_ID > 41000`. */
  function NextResultAsWritten(b: Build, rc: int): (r: NrCode)
    ensures b.version <= 41000 ==> r == NotSupported
    ensures b.version > 41000 ==> r == NextResultCode(rc)
  {
    if b.version > 41000 then NextResultCode(rc) else NotSupported
  }

  /** The mapping of `mysql_next_result`'s return code. */
  function NextResultCode(rc: int): (r: NrCode)
    ensures r != NotSupported
  {
    if rc == 0 then MoreResultsCode else if rc == -1 then LastResult else NrError
  }

  /** The code is a faithful summary of the return value: each code comes
      from exactly one class of return values. */
  lemma NextResultCodeClassifies(rc: int)
    ensures NextResultCode(rc) == MoreResultsCode <==> rc == 0
    ensures NextResultCode(rc) == LastResult <==> rc == -1
    ensures NextResultCode(rc) == NrError <==> rc != 0 && rc != -1
  {
  }

  /** The first version with multi-result support: 4.1.0. */
  const MULTI_RESULTS_VERSION: nat := 40100

  /** `next_result()` gated on 4.1 as its comment says. */
  function NextResult(b: Build, rc: int): (r: NrCode)
    ensures r == NotSupported <==> b.version < MULTI_RESULTS_VERSION
    ensures b.version >= MULTI_RESULTS_VERSION ==> r == NextResultCode(rc)
  {
    if b.version >= MULTI_RESULTS_VERSION then NextResultCode(rc) else NotSupported
  }

  /** `more_results()` as written: the C answer, only when built
      against a version above 41000. */
  function MoreResultsAsWritten(b: Build, cMore: bool): (r: bool)
    ensures r ==> cMore
    ensures b.version <= 41000 ==> !r
    ensures b.version > 41000 ==> r == cMore
  {
    b.version > 41000 && cMore
  }

  /** `more_results()` gated on 4.1. */
  function MoreResults(b: Build, cMore: bool): (r: bool)
    ensures r <==> b.version >= MULTI_RESULTS_VERSION && cMore
  {
    b.version >= MULTI_RESULTS_VERSION && cMore
  }

  /** Against MySQL 4.1.22, whose C API has both calls, the written gates
      report no support; the intended gates pass the C answers through. */
  lemma VersionGateExcludesMySQL41(rc: int, cMore: bool)
    ensures NextResultAsWritten(Build(40122, true), rc) == NotSupported
    ensures NextResult(Build(40122, true), rc) == NextResultCode(rc) != NotSupported
    ensures !MoreResultsAsWritten(Build(40122, true), true) && MoreResults(Build(40122, true), true)
  {
  }

  /** From 5.0 on, written and intended gates agree. */
  lemma VersionGatesAgreeFrom50(b: Build, rc: int, cMore: bool)
    requires b.version >= 50000
    ensures NextResultAsWritten(b, rc) == NextResult(b, rc)
    ensures MoreResultsAsWritten(b, cMore) == MoreResults(b, cMore)
  {
  }

  /** `thread_start()`: `!mysql_thread_init()` from 4.0.1 on, else false. */
  function ThreadStart(b: Build, rc: int): (ok: bool)
    ensures b.version <= 40000 ==> !ok
    ensures b.version > 40000 ==> (ok <==> ZeroIsNone(rc) == NONE)
  {
    if b.version > 40000 then ZeroMeansSuccess(rc) else false
  }

  /** `thread_start()` shares its version gate with the rest of the
      4.0.1 API: it can succeed on exactly the builds that know the
      `Protocol` option and accept flags up to `CLIENT_MULTI_RESULTS`, and
      it never succeeds when the C init fails. */
  lemma ThreadStartGate(b: Build, rc: int)
    ensures ThreadStart(b, 0) <==> Supported(b, Protocol)
    ensures ThreadStart(b, 0) <==> HighestFlag(b) == CLIENT_MULTI_RESULTS
    ensures rc != 0 ==> !ThreadStart(b, rc)
  {
  }

  /** The header's one-line wrappers around C calls that return 0 on
      success: `execute` (`mysql_real_query`), `kill`, `ping`, `refresh`
      and `select_db`. */
  datatype ZeroCall = RealQuery | KillThread | PingServer | RefreshServer | SelectDatabase

  /** The wrapper's `bool` answer given the C call's return code. */
  function Wrapped(call: ZeroCall, rc: int): (ok: bool)
    ensures ok <==> ZeroIsNone(rc) == NONE
  {
    ZeroMeansSuccess(rc)
  }

  /** All five wrappers read a return code the same way, and the same way
      `set_option_impl` does: `true` where the option machinery reports
      `err_NONE`, `false` where it reports `err_api_reject`. */
  lemma WrappersAgree(c1: ZeroCall, c2: ZeroCall, rc: int)
    ensures Wrapped(c1, rc) == Wrapped(c2, rc)
    ensures Wrapped(c1, rc) <==> ZeroIsNone(rc) == NONE
    ensures !Wrapped(c1, rc) <==> ZeroIsNone(rc) == ApiReject
  {
  }

  /** `result_empty()`: the last statement produced no columns. */
  function ResultEmpty(fieldCount: nat): (empty: bool)
    ensures empty <==> fieldCount == 0
  {
    fieldCount == 0
  }
}
