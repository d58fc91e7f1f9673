/** The backend-independent part of a database driver: the connected flag,
    the list of applied options, the FIFO queue of options put off until
    connection time, and the single slot holding the last option error.
    The leaf driver's state is the type parameter `L`; its per-kind option
    rules are the `Handler` it passes in. */
module DBDriver {
  import opened Options

  /** A leaf's `set_option_impl`: given whether the driver is connected,
      the leaf state and the option, the new leaf state and the outcome. */
  type Handler<!L> = (bool, L, Option) -> (L, Error)

  datatype Driver<L> = Driver(
    connected: bool,
    applied: seq<Option>,
    pending: seq<Option>,
    optionError: Error,
    leaf: L)

  /** What a `bool`-returning driver call gives back, with the driver after it. */
  datatype Step<L> = Step(ok: bool, driver: Driver<L>)

  /** `DBDriver()`: not connected, no options, no error. */
  function New<L>(leaf: L): (d: Driver<L>)
    ensures !d.connected && d.optionError == NONE
    ensures d.applied == [] && d.pending == [] && d.leaf == leaf
  {
    Driver(false, [], [], NONE, leaf)
  }

  /** `connected()`. */
  function IsConnected<L>(d: Driver<L>): (c: bool)
    ensures c <==> d.connected
  {
    d.connected
  }

  /** `set_option(o)`: run the leaf's handler, record its code, then keep
      the option as applied, queue it as pending, or destroy it. */
  function SetOption<L>(d: Driver<L>, o: Option, h: Handler<L>): (r: Step<L>)
    ensures var (leaf, e) := h(d.connected, d.leaf, o);
            r.driver.optionError == e && r.driver.leaf == leaf
            && r.driver.connected == d.connected
            && (r.ok <==> Accepted(e))
            && (e == NONE ==> r.driver.applied == d.applied + [o] && r.driver.pending == d.pending)
            && (e == Disconnected ==> r.driver.pending == d.pending + [o] && r.driver.applied == d.applied)
            && (!Accepted(e) ==> r.driver.applied == d.applied && r.driver.pending == d.pending)
  {
    var (leaf, e) := h(d.connected, d.leaf, o);
    var d1 := d.(optionError := e, leaf := leaf);
    if e == NONE then Step(true, d1.(applied := d.applied + [o]))
    else if e == Disconnected then Step(true, d1.(pending := d.pending + [o]))
    else Step(false, d1)
  }

  /** The options the driver owns. */
  function Owned<L>(d: Driver<L>): multiset<Option> {
    multiset(d.applied) + multiset(d.pending)
  }

  /** Ownership passes to the driver at the call: afterwards the option is
      owned by the driver exactly when the call returned true, and
      `option_error()` tells applied from deferred. */
  lemma SetOptionTakesOwnership<L>(d: Driver<L>, o: Option, h: Handler<L>)
    ensures var r := SetOption(d, o, h);
            (r.ok ==> Owned(r.driver) == Owned(d) + multiset{o})
            && (!r.ok ==> Owned(r.driver) == Owned(d))
            && (r.ok && r.driver.optionError == NONE ==> r.driver.applied[|r.driver.applied| - 1] == o)
            && (r.ok && r.driver.optionError != NONE ==>
                  r.driver.optionError == Disconnected && r.driver.pending[|r.driver.pending| - 1] == o)
  {
    var r := SetOption(d, o, h);
    if r.ok && r.driver.optionError == NONE {
      assert multiset(r.driver.applied) == multiset(d.applied) + multiset{o};
    } else if r.ok {
      assert multiset(r.driver.pending) == multiset(d.pending) + multiset{o};
    }
  }

  /** One replay of a snapshot of the pending queue, stopping at the first
      option `set_option` refuses.  Options a handler defers again are
      appended to the live queue, never to the snapshot being walked. */
  function Replay<L>(d: Driver<L>, todo: seq<Option>, h: Handler<L>): (r: Step<L>)
    ensures r.driver.connected == d.connected
    ensures d.applied <= r.driver.applied && d.pending <= r.driver.pending
    ensures |r.driver.applied| + |r.driver.pending| <= |d.applied| + |d.pending| + |todo|
    ensures !r.ok ==> todo != [] && !Accepted(r.driver.optionError)
    ensures r.ok ==> |r.driver.applied| + |r.driver.pending| == |d.applied| + |d.pending| + |todo|
    ensures r.ok && todo != [] ==> Accepted(r.driver.optionError)
    ensures r.ok && todo == [] ==> r.driver == d
    decreases |todo|
  {
    if todo == [] then Step(true, d)
    else
      var s := SetOption(d, todo[0], h);
      if !s.ok then s else Replay(s.driver, todo[1..], h)
  }

  /** `apply_pending_options()`: clear the error slot, replay the queue in
      order, and on full success empty the queue. */
  function ApplyPending<L>(d: Driver<L>, h: Handler<L>): (r: Step<L>)
    ensures r.driver.connected == d.connected
    ensures d.applied <= r.driver.applied
    ensures r.ok ==> r.driver.pending == []
    ensures !r.ok ==> d.pending <= r.driver.pending && !Accepted(r.driver.optionError)
    ensures d.pending == [] ==> r.ok && r.driver == d.(optionError := NONE)
  {
    var r := Replay(d.(optionError := NONE), d.pending, h);
    if r.ok then Step(true, r.driver.(pending := [])) else r
  }

  /** `apply_pending_options()` as its comments intend: an option the
      handler defers again stays queued for the next replay.  The source
      instead pushes it onto the `std::deque` it is walking and clears the
      queue afterwards. */
  function ApplyPendingKeepingDeferred<L>(d: Driver<L>, h: Handler<L>): (r: Step<L>)
    ensures r.driver.connected == d.connected
    ensures d.applied <= r.driver.applied
    ensures !r.ok ==> r == ApplyPending(d, h)
    ensures d.pending == [] ==> r.ok && r.driver == d.(optionError := NONE)
  {
    var r := Replay(d.(optionError := NONE, pending := []), d.pending, h);
    if r.ok then r else ApplyPending(d, h)
  }

  /** The queue never steers a replay: putting `p` in front of the queue
      puts `p` in front of the queue the replay leaves, and changes
      nothing else. */
  lemma {:induction false} ReplayIgnoresQueue<L>(d: Driver<L>, p: seq<Option>, todo: seq<Option>, h: Handler<L>)
    ensures var r := Replay(d, todo, h);
            Replay(d.(pending := p + d.pending), todo, h) == Step(r.ok, r.driver.(pending := p + r.driver.pending))
    decreases |todo|
  {
    if todo != [] {
      var s0 := SetOption(d, todo[0], h);
      var s1 := SetOption(d.(pending := p + d.pending), todo[0], h);
      assert (p + d.pending) + [todo[0]] == p + (d.pending + [todo[0]]);
      assert s1 == Step(s0.ok, s0.driver.(pending := p + s0.driver.pending));
      if s0.ok {
        ReplayIgnoresQueue(s0.driver, p, todo[1..], h);
      }
    }
  }

  /** Where the written replay succeeds it is the intended one followed
      by clearing the queue: the options deferred again are what it
      drops.  Both succeed or fail together. */
  lemma ApplyPendingDropsDeferred<L>(d: Driver<L>, h: Handler<L>)
    ensures ApplyPending(d, h).ok <==> ApplyPendingKeepingDeferred(d, h).ok
    ensures ApplyPending(d, h).ok ==>
              ApplyPending(d, h).driver == ApplyPendingKeepingDeferred(d, h).driver.(pending := [])
  {
    var d0 := d.(optionError := NONE, pending := []);
    ReplayIgnoresQueue(d0, d.pending, d.pending, h);
    assert d0.(pending := d.pending + d0.pending) == d.(optionError := NONE);
  }

  /** The base class `connect()` hook: succeeds only when already connected
      and every pending option applies. */
  function BaseConnect<L>(d: Driver<L>, h: Handler<L>): (r: Step<L>)
    ensures r.ok ==> d.connected && r.driver.pending == []
    ensures !d.connected ==> r.driver == d
    ensures d.connected ==> r == ApplyPending(d, h)
  {
    if d.connected then ApplyPending(d, h) else Step(false, d)
  }

  /** `set_option_default(o)` as the code is written: it compares
      `typeid(o)` with `typeid(*it)`, and both name the static type
      `Option*`, so any applied option at all counts as a match. */
  function SetOptionDefaultAsWritten<L>(d: Driver<L>, o: Option, h: Handler<L>): (r: Step<L>)
    ensures d.applied != [] ==> r == Step(true, d)
    ensures d.applied == [] ==> r == SetOption(d, o, h)
  {
    if d.applied != [] then Step(true, d) else SetOption(d, o, h)
  }

  /** Whether an option of `o`'s kind has already been applied. */
  predicate KindApplied<L>(d: Driver<L>, k: Kind) {
    exists i :: 0 <= i < |d.applied| && d.applied[i].kind == k
  }

  /** `set_option_default(o)` as documented: it discards `o` only when an
      option of the same kind was applied before. */
  function SetOptionDefault<L>(d: Driver<L>, o: Option, h: Handler<L>): (r: Step<L>)
    ensures KindApplied(d, o.kind) ==> r == Step(true, d)
    ensures !KindApplied(d, o.kind) ==> r == SetOption(d, o, h)
  {
    if KindApplied(d, o.kind) then Step(true, d) else SetOption(d, o, h)
  }

  /** Once an option of some kind is applied, further defaults of that kind
      change nothing, however often they are offered. */
  lemma SetOptionDefaultIdempotent<L>(d: Driver<L>, o: Option, h: Handler<L>)
    requires SetOption(d, o, h).driver.optionError == NONE
    ensures var r1 := SetOptionDefault(d, o, h);
            !KindApplied(d, o.kind) ==> SetOptionDefault(r1.driver, o, h) == Step(true, r1.driver)
  {
    var r1 := SetOptionDefault(d, o, h);
    if !KindApplied(d, o.kind) {
      var a := r1.driver.applied;
      assert a[|a| - 1] == o;
    }
  }

  /** The documented rule is a special case of the written one: whenever
      the documented rule discards, so does the written one. */
  lemma DefaultAsWrittenCoversDocumented<L>(d: Driver<L>, o: Option, h: Handler<L>)
    ensures KindApplied(d, o.kind) ==> SetOptionDefaultAsWritten(d, o, h) == SetOptionDefault(d, o, h)
    ensures d.applied == [] ==> SetOptionDefaultAsWritten(d, o, h) == SetOptionDefault(d, o, h)
  {
  }

  /** A compress option already applied makes the written code throw away
      a different option kind, which the documented rule would apply. */
  lemma DefaultAsWrittenDropsOtherKind(h: Handler<int>)
    requires h(false, 0, Option(ConnectTimeout, Count(5))).1 == NONE
    ensures var d := Driver(false, [Option(Compress, NoArg)], [], NONE, 0);
            var o := Option(ConnectTimeout, Count(5));
            SetOptionDefaultAsWritten(d, o, h).driver.applied == [Option(Compress, NoArg)]
            && SetOptionDefault(d, o, h).driver.applied == [Option(Compress, NoArg), o]
  {
    var d := Driver(false, [Option(Compress, NoArg)], [], NONE, 0);
    assert !KindApplied(d, ConnectTimeout) by {
      forall i | 0 <= i < |d.applied| ensures d.applied[i].kind != ConnectTimeout {
        assert d.applied[i] == Option(Compress, NoArg);
      }
    }
  }

  // ---------------------------------------------------------------------
  // The base class's own handlers
  // ---------------------------------------------------------------------

  /** `DBD_SET_OPTION_IMPL`: every kind is accepted as is. */
  function BaseHandler<L>(connected: bool, leaf: L, o: Option): (r: (L, Error))
    ensures r == (leaf, NONE)
  {
    (leaf, NONE)
  }

  /** With the base handlers every option is applied at once. */
  lemma BaseAppliesImmediately<L>(d: Driver<L>, o: Option)
    ensures var r := SetOption(d, o, BaseHandler);
            r.ok && r.driver.optionError == NONE
            && r.driver.applied == d.applied + [o] && r.driver.pending == d.pending
  {
  }

  /** With the base handlers a replay moves the whole snapshot, in queue
      order, to the end of the applied list. */
  lemma {:induction false} BaseReplayKeepsOrder<L>(d: Driver<L>, todo: seq<Option>)
    ensures Replay(d, todo, BaseHandler).ok
    ensures Replay(d, todo, BaseHandler).driver.applied == d.applied + todo
    ensures Replay(d, todo, BaseHandler).driver.pending == d.pending
    ensures Replay(d, todo, BaseHandler).driver.optionError == if todo == [] then d.optionError else NONE
    decreases |todo|
  {
    if todo != [] {
      var s := SetOption(d, todo[0], BaseHandler);
      BaseReplayKeepsOrder(s.driver, todo[1..]);
      assert d.applied + [todo[0]] + todo[1..] == d.applied + todo;
    }
  }

  /** Applying pending options against the base handlers applies every
      queued option in FIFO order and empties the queue. */
  lemma BaseApplyPendingIsFifo<L>(d: Driver<L>)
    ensures var r := ApplyPending(d, BaseHandler);
            r.ok && r.driver.applied == d.applied + d.pending && r.driver.pending == []
            && r.driver.optionError == NONE
  {
    BaseReplayKeepsOrder(d.(optionError := NONE), d.pending);
  }

  /** A replay that stops early names the option that failed: everything
      before it was accepted and it alone was refused, with its own code in
      the error slot. */
  lemma {:induction false} ReplayStopsAtFirstFailure<L>(d: Driver<L>, todo: seq<Option>, h: Handler<L>)
    requires !Replay(d, todo, h).ok
    ensures exists k, dk ::
              0 <= k < |todo| && Replay(d, todo[..k], h) == Step(true, dk)
              && Replay(d, todo, h) == SetOption(dk, todo[k], h)
    decreases |todo|
  {
    var s := SetOption(d, todo[0], h);
    if !s.ok {
      assert todo[..0] == [];
      assert Replay(d, todo[..0], h) == Step(true, d);
    } else {
      ReplayStopsAtFirstFailure(s.driver, todo[1..], h);
      var k, dk :| 0 <= k < |todo[1..]| && Replay(s.driver, todo[1..][..k], h) == Step(true, dk)
                    && Replay(s.driver, todo[1..], h) == SetOption(dk, todo[1..][k], h);
      assert todo[..k + 1][0] == todo[0];
      assert todo[..k + 1][1..] == todo[1..][..k];
      assert Replay(d, todo[..k + 1], h) == Step(true, dk);
    }
  }
}
