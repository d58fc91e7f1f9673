/** Connection hand-out.  The pool itself is abstract: only the hand-out
    contract its tests rely on is modelled (distinct outstanding
    connections, reuse of a released one, `shrink()` emptying an unused
    pool).  `ScopedConnection` grabs on construction and releases on
    destruction. */
module ConnectionPool {

  /** The identity of a connection object (its address, in C++). */
  type Conn = nat

  /** In-use connections, idle ones in release order (most recent last),
      and the next identity `create()` would produce. */
  datatype Pool = Pool(inUse: set<Conn>, idle: seq<Conn>, next: Conn)

  predicate Valid(p: Pool) {
    && (forall c :: c in p.inUse ==> c < p.next)
    && (forall i :: 0 <= i < |p.idle| ==> p.idle[i] < p.next && p.idle[i] !in p.inUse)
    && (forall i, j :: 0 <= i < j < |p.idle| ==> p.idle[i] != p.idle[j])
  }

  function Empty(): (p: Pool)
    ensures Valid(p) && IsEmpty(p)
  {
    Pool({}, [], 0)
  }

  /** `empty()`: no connections at all, in use or idle. */
  predicate IsEmpty(p: Pool) {
    p.inUse == {} && p.idle == []
  }

  /** `grab()`: hand out the most recently released idle connection, or a
      newly created one when none is idle. */
  function Grab(p: Pool): (r: (Pool, Conn))
    requires Valid(p)
    ensures Valid(r.0)
    ensures r.1 !in p.inUse && r.0.inUse == p.inUse + {r.1}
    ensures p.idle != [] ==> r.1 == p.idle[|p.idle| - 1]
  {
    if p.idle != [] then
      var c := p.idle[|p.idle| - 1];
      (Pool(p.inUse + {c}, p.idle[..|p.idle| - 1], p.next), c)
    else
      (Pool(p.inUse + {p.next}, [], p.next + 1), p.next)
  }

  /** `safe_grab()`.  Its liveness check of idle connections talks to the
      server; under the abstract contract it hands out like `grab()`. */
  function SafeGrab(p: Pool): (r: (Pool, Conn))
    requires Valid(p)
    ensures Valid(r.0)
    ensures r.1 !in p.inUse && r.0.inUse == p.inUse + {r.1}
  {
    Grab(p)
  }

  /** `release(c)`: the connection goes back to the idle set. */
  function Release(p: Pool, c: Conn): (r: Pool)
    requires Valid(p) && c in p.inUse
    ensures Valid(r)
    ensures r.inUse == p.inUse - {c} && r.idle == p.idle + [c]
  {
    Pool(p.inUse - {c}, p.idle + [c], p.next)
  }

  /** `shrink()`: destroy every idle connection. */
  function Shrink(p: Pool): (r: Pool)
    requires Valid(p)
    ensures Valid(r) && r.idle == [] && r.inUse == p.inUse
  {
    p.(idle := [])
  }

  /** Two outstanding grabs never return the same connection. */
  lemma GrabsAreDistinct(p: Pool)
    requires Valid(p)
    ensures var (p1, c1) := Grab(p);
            var (p2, c2) := Grab(p1);
            c1 != c2 && p2.inUse == p.inUse + {c1, c2}
  {
  }

  /** A connection released and grabbed again before it expires is the one
      handed out again, and the pool is as before the release. */
  lemma ReleasedIsReused(p: Pool, c: Conn)
    requires Valid(p) && c in p.inUse
    ensures Grab(Release(p, c)) == (p, c)
  {
    var r := Release(p, c);
    assert r.idle[..|r.idle| - 1] == p.idle;
    assert r.inUse + {c} == p.inUse;
  }

  /** Once every connection is released, `shrink()` leaves the pool empty. */
  lemma ShrinkAfterReleasingAll(p: Pool)
    requires Valid(p) && p.inUse == {}
    ensures IsEmpty(Shrink(p))
  {
  }

  /** The hand-out sequence of the pool test: grab two, release and regrab
      the second, then release everything and shrink. */
  lemma PoolScenario()
    ensures var p0 := Empty();
            var (p1, c1) := Grab(p0);
            var (p2, c2) := Grab(p1);
            var (p3, c3) := Grab(Release(p2, c2));
            c1 != c2 && c3 == c2
            && IsEmpty(Shrink(Release(Release(p3, c3), c1)))
  {
    var p0 := Empty();
    var (p1, c1) := Grab(p0);
    var (p2, c2) := Grab(p1);
    ReleasedIsReused(p2, c2);
  }

  // ---------------------------------------------------------------------
  // ScopedConnection
  // ---------------------------------------------------------------------

  datatype GrabCall = PlainGrab | SafeGrabCall

  /** A live `ScopedConnection`: the connection it holds (a `const`
      pointer, fixed at construction) and which pool call produced it. */
  datatype Scoped = Scoped(connection: Conn, grabbedWith: GrabCall)

  /** `ScopedConnection(pool, safe)`. */
  function Construct(p: Pool, safe: bool): (r: (Pool, Scoped))
    requires Valid(p)
    ensures Valid(r.0)
    ensures r.1.grabbedWith == SafeGrabCall <==> safe
    ensures r.1.connection !in p.inUse && r.0.inUse == p.inUse + {r.1.connection}
  {
    if safe then
      var (q, c) := SafeGrab(p);
      (q, Scoped(c, SafeGrabCall))
    else
      var (q, c) := Grab(p);
      (q, Scoped(c, PlainGrab))
  }

  /** `~ScopedConnection()`: release what construction grabbed. */
  function Destroy(p: Pool, s: Scoped): (r: Pool)
    requires Valid(p) && s.connection in p.inUse
    ensures Valid(r)
    ensures r.inUse == p.inUse - {s.connection} && r.idle == p.idle + [s.connection]
  {
    Release(p, s.connection)
  }

  /** Constructing and then destroying a scoped connection leaves the
      in-use set as it was, and the connection it held is idle again. */
  lemma ScopedRoundTrip(p: Pool, safe: bool)
    requires Valid(p)
    ensures var (q, s) := Construct(p, safe);
            var r := Destroy(q, s);
            r.inUse == p.inUse && r.idle[|r.idle| - 1] == s.connection
  {
    var (q, s) := Construct(p, safe);
    assert s.connection !in p.inUse;
  }

  /** Nested scopes release in reverse order and still restore the in-use
      set. */
  lemma NestedScopes(p: Pool, safe1: bool, safe2: bool)
    requires Valid(p)
    ensures var (q1, s1) := Construct(p, safe1);
            var (q2, s2) := Construct(q1, safe2);
            s1.connection != s2.connection
            && s1.connection in q2.inUse
            && Destroy(Destroy(q2, s2), s1).inUse == p.inUse
  {
    var (q1, s1) := Construct(p, safe1);
    var (q2, s2) := Construct(q1, safe2);
    assert s1.connection !in p.inUse;
    assert s2.connection !in q1.inUse;
  }
}
