/** The migration bootstrap of the entry store (api/builder-config/opt/expl/expldb/init.go).

    Every external call (sqlx.Open, Ping, iofs.New, db.Conn, postgres.WithConnection,
    migrate.NewWithInstance, Up and the Close calls) is an oracle: its outcome is part of
    the input. A Ledger records, in order, which resources were opened and closed and which
    pings were made, so the release discipline can be stated over the recorded trace. */
module ExplDb {

  /** An error value returned by a library call; ErrNoChange is migrate.ErrNoChange. */
  datatype Error = ErrNoChange | Failure(message: string)

  /** The outcome of an external call: nil or an error. */
  datatype Outcome = Ok | Err(error: Error)

  /** The resources the bootstrap opens or builds. */
  datatype Resource =
    | Pool            // *sqlx.DB from sqlx.Open
    | SourceDriver    // srcDrv from iofs.New
    | Connection      // conn from db.Conn, borrowed from the pool
    | DatabaseDriver  // dbDrv from postgres.WithConnection, a wrapper over conn
    | Migrator        // mig from migrate.NewWithInstance, a wrapper over srcDrv and dbDrv

  /** What the ledger records. */
  datatype Event = Opened(resource: Resource) | Closed(resource: Resource) | Pinged(ok: bool)

  /** What each external call answers during one run of Init. */
  datatype Oracle = Oracle(
    open: Outcome,         // sqlx.Open
    pings: seq<Outcome>,   // db.Ping, one per attempt
    source: Outcome,       // iofs.New
    conn: Outcome,         // db.Conn
    driver: Outcome,       // postgres.WithConnection
    migrator: Outcome,     // migrate.NewWithInstance
    up: Outcome,           // mig.Up
    sourceClose: Outcome,  // srcDrv.Close, run by its deferred call
    connClose: Outcome)    // conn.Close, run by its deferred call

  /** The resource-tracking record of one run: every open, close and ping, in order. */
  class Ledger {
    ghost var trace: seq<Event>

    constructor ()
      ensures trace == []
    {
      trace := [];
    }

    method Record(e: Event)
      modifies this
      ensures trace == old(trace) + [e]
    {
      trace := trace + [e];
    }
  }

  // ---------------------------------------------------------------------------
  // waitUntilAvailable

  /** Some ping answers nil: the loop of waitUntilAvailable ends. */
  predicate EventuallyAvailable(pings: seq<Outcome>)
  {
    exists i :: 0 <= i < |pings| && pings[i].Ok?
  }

  /** The index of the first ping that answers nil. */
  function FirstSuccess(pings: seq<Outcome>): (i: nat)
    requires EventuallyAvailable(pings)
    ensures i < |pings| && pings[i].Ok?
    ensures forall j :: 0 <= j < i ==> pings[j].Err?
  {
    if pings[0].Ok? then 0
    else
      assert EventuallyAvailable(pings[1..]) by {
        var k :| 0 <= k < |pings| && pings[k].Ok?;
        assert pings[1..][k - 1].Ok?;
      }
      1 + FirstSuccess(pings[1..])
  }

  /** The ledger entries for the given pings, in order. */
  function PingEvents(pings: seq<Outcome>): (t: seq<Event>)
    ensures |t| == |pings|
    ensures forall i :: 0 <= i < |pings| ==> t[i] == Pinged(pings[i].Ok?)
  {
    seq(|pings|, i requires 0 <= i < |pings| => Pinged(pings[i].Ok?))
  }

  /** The pings waitUntilAvailable makes: up to and including the first one that succeeds. */
  function PingTrace(pings: seq<Outcome>): seq<Event>
    requires EventuallyAvailable(pings)
  {
    PingEvents(pings[..FirstSuccess(pings) + 1])
  }

  /** waitUntilAvailable: ping until a ping answers nil. The sleep between attempts is not modelled. */
  method WaitUntilAvailable(pings: seq<Outcome>, ledger: Ledger)
    requires EventuallyAvailable(pings)
    modifies ledger
    ensures ledger.trace == old(ledger.trace) + PingTrace(pings)
  {
    var i := 0;
    ledger.Record(Pinged(pings[i].Ok?));
    while pings[i].Err?
      invariant 0 <= i <= FirstSuccess(pings)
      invariant ledger.trace == old(ledger.trace) + PingEvents(pings[..i + 1])
      decreases FirstSuccess(pings) - i
    {
      i := i + 1;
      ledger.Record(Pinged(pings[i].Ok?));
    }
  }

  // ---------------------------------------------------------------------------
  // applyMigrations

  /** The four acquisitions of applyMigrations, in program order. */
  const Acquisitions: seq<Resource> := [SourceDriver, Connection, DatabaseDriver, Migrator]

  /** The outcomes of the four acquisitions, in program order. */
  function AcquisitionOutcomes(o: Oracle): seq<Outcome>
  {
    [o.source, o.conn, o.driver, o.migrator]
  }

  /** How many acquisitions succeed before the first one that fails. */
  function Acquired(o: Oracle): (n: nat)
    ensures n <= |Acquisitions|
    ensures forall i :: 0 <= i < n ==> AcquisitionOutcomes(o)[i].Ok?
    ensures n < |Acquisitions| ==> AcquisitionOutcomes(o)[n].Err?
  {
    if o.source.Err? then 0
    else if o.conn.Err? then 1
    else if o.driver.Err? then 2
    else if o.migrator.Err? then 3
    else 4
  }

  /** The resources applyMigrations acquires directly and so releases with a deferred
      Close: the source driver and the borrowed connection. The database driver and the
      migrator are wrappers whose Close would close the connection again. */
  predicate OwnsDirectly(r: Resource)
  {
    r == SourceDriver || r == Connection
  }

  /** The deferred closes registered by the time applyMigrations returns, most recent first:
      the order in which they run. */
  function DeferStack(o: Oracle): seq<Resource>
  {
    if Acquired(o) == 0 then []
    else if Acquired(o) == 1 then [SourceDriver]
    else [Connection, SourceDriver]
  }

  /** What Close answers for a resource released by a deferred call. */
  function CloseOutcome(o: Oracle, r: Resource): Outcome
  {
    match r
    case SourceDriver => o.sourceClose
    case Connection => o.connClose
    case _ => Ok
  }

  function OpensOf(rs: seq<Resource>): (t: seq<Event>)
    ensures |t| == |rs|
    ensures forall i :: 0 <= i < |rs| ==> t[i] == Opened(rs[i])
  {
    seq(|rs|, i requires 0 <= i < |rs| => Opened(rs[i]))
  }

  function ClosesOf(rs: seq<Resource>): (t: seq<Event>)
    ensures |t| == |rs|
    ensures forall i :: 0 <= i < |rs| ==> t[i] == Closed(rs[i])
  {
    seq(|rs|, i requires 0 <= i < |rs| => Closed(rs[i]))
  }

  /** util.CloseAndAppendError for each resource of the stack, in order: the errors of the
      Close calls that fail, appended to the result. */
  function CloseErrors(o: Oracle, stack: seq<Resource>): seq<Error>
  {
    if stack == [] then []
    else
      var last := stack[|stack| - 1];
      CloseErrors(o, stack[..|stack| - 1]) + CloseError(o, last)
  }

  /** The errors of failing Close calls, one resource at a time. */
  function CloseError(o: Oracle, r: Resource): seq<Error>
  {
    if CloseOutcome(o, r).Err? then [CloseOutcome(o, r).error] else []
  }

  lemma CloseErrorsOfBoth(o: Oracle)
    ensures CloseErrors(o, [SourceDriver]) == CloseError(o, SourceDriver)
    ensures CloseErrors(o, [Connection, SourceDriver]) == CloseError(o, Connection) + CloseError(o, SourceDriver)
  {
    assert [Connection, SourceDriver][..1] == [Connection];
    assert [Connection][..0] == [];
  }

  /** The error applyMigrations returns before its deferred calls run: the error of the
      acquisition that failed, else Up's error unless it is ErrNoChange, else nil. */
  function ReturnedError(o: Oracle): seq<Error>
  {
    match Acquired(o)
    case 0 => [o.source.error]
    case 1 => [o.conn.error]
    case 2 => [o.driver.error]
    case 3 => [o.migrator.error]
    case _ => if o.up.Err? && o.up.error != ErrNoChange then [o.up.error] else []
  }

  /** The result of applyMigrations ([] is nil): the returned error with the errors of the
      deferred closes appended. */
  function MigrationErrors(o: Oracle): seq<Error>
  {
    ReturnedError(o) + CloseErrors(o, DeferStack(o))
  }

  /** What applyMigrations records: the acquisitions that succeed, then the deferred closes. */
  function MigrationTrace(o: Oracle): seq<Event>
  {
    OpensOf(Acquisitions[..Acquired(o)]) + ClosesOf(DeferStack(o))
  }

  /** The deferred calls of a returning function, run last registered first; each closes
      its resource and appends a failing Close's error to the named result. */
  method RunDeferredCloses(o: Oracle, ledger: Ledger, stack: seq<Resource>, returned: seq<Error>)
    returns (err: seq<Error>)
    modifies ledger
    ensures ledger.trace == old(ledger.trace) + ClosesOf(stack)
    ensures err == returned + CloseErrors(o, stack)
  {
    err := returned;
    var i := 0;
    while i < |stack|
      invariant 0 <= i <= |stack|
      invariant ledger.trace == old(ledger.trace) + ClosesOf(stack[..i])
      invariant err == returned + CloseErrors(o, stack[..i])
    {
      ledger.Record(Closed(stack[i]));
      var closed := CloseOutcome(o, stack[i]);
      if closed.Err? {
        err := err + [closed.error];
      }
      DeferredCloseStep(o, stack, i);
      i := i + 1;
    }
    assert stack[..i] == stack;
  }

  /** One more deferred call adds its Close event and, if that Close fails, its error. */
  lemma DeferredCloseStep(o: Oracle, stack: seq<Resource>, i: nat)
    requires i < |stack|
    ensures ClosesOf(stack[..i + 1]) == ClosesOf(stack[..i]) + [Closed(stack[i])]
    ensures CloseErrors(o, stack[..i + 1]) == CloseErrors(o, stack[..i]) + CloseError(o, stack[i])
  {
    assert stack[..i + 1][..i] == stack[..i];
  }

  /** applyMigrations: acquire the source driver and a borrowed connection, each with a
      deferred Close; build the database driver and the migrator, which are never closed;
      run Up, where ErrNoChange counts as success. */
  method ApplyMigrations(o: Oracle, ledger: Ledger) returns (err: seq<Error>)
    modifies ledger
    ensures ledger.trace == old(ledger.trace) + MigrationTrace(o)
    ensures err == MigrationErrors(o)
  {
    ghost var before := ledger.trace;
    var deferred: seq<Resource> := [];
    if o.source.Err? {
      err := RunDeferredCloses(o, ledger, deferred, [o.source.error]);
      MigrationExit(o, 0, deferred, [o.source.error], before);
      return;
    }
    ledger.Record(Opened(SourceDriver));
    deferred := [SourceDriver] + deferred;
    ghost var sofar := before + OpensOf(Acquisitions[..1]);
    assert ledger.trace == sofar;

    if o.conn.Err? {
      err := RunDeferredCloses(o, ledger, deferred, [o.conn.error]);
      MigrationExit(o, 1, deferred, [o.conn.error], before);
      return;
    }
    ledger.Record(Opened(Connection));
    deferred := [Connection] + deferred;
    OpensOfPrefix(1);
    sofar := before + OpensOf(Acquisitions[..2]);
    assert ledger.trace == sofar;

    if o.driver.Err? {
      err := RunDeferredCloses(o, ledger, deferred, [o.driver.error]);
      MigrationExit(o, 2, deferred, [o.driver.error], before);
      return;
    }
    ledger.Record(Opened(DatabaseDriver));
    OpensOfPrefix(2);
    sofar := before + OpensOf(Acquisitions[..3]);
    assert ledger.trace == sofar;

    if o.migrator.Err? {
      err := RunDeferredCloses(o, ledger, deferred, [o.migrator.error]);
      MigrationExit(o, 3, deferred, [o.migrator.error], before);
      return;
    }
    ledger.Record(Opened(Migrator));
    OpensOfPrefix(3);
    sofar := before + OpensOf(Acquisitions[..4]);
    assert ledger.trace == sofar;

    var returned := if o.up.Err? && o.up.error != ErrNoChange then [o.up.error] else [];
    err := RunDeferredCloses(o, ledger, deferred, returned);
    MigrationExit(o, 4, deferred, returned, before);
  }

  /** An exit of applyMigrations after k acquisitions, with the given deferred closes and
      returned error, is the one MigrationTrace and MigrationErrors describe. */
  lemma MigrationExit(o: Oracle, k: nat, deferred: seq<Resource>, returned: seq<Error>, before: seq<Event>)
    requires k == Acquired(o) && deferred == DeferStack(o) && returned == ReturnedError(o)
    ensures before + OpensOf(Acquisitions[..k]) + ClosesOf(deferred) == before + MigrationTrace(o)
    ensures returned + CloseErrors(o, deferred) == MigrationErrors(o)
  {
    CloseErrorsOfBoth(o);
  }

  /** Acquiring one more resource adds one open entry. */
  lemma OpensOfPrefix(k: nat)
    requires k < |Acquisitions|
    ensures OpensOf(Acquisitions[..k + 1]) == OpensOf(Acquisitions[..k]) + [Opened(Acquisitions[k])]
  {
  }

  // ---------------------------------------------------------------------------
  // Init and ExplDB.Close

  /** The pool sqlx.Open returns for a database URL. */
  datatype DB = DB(url: string)

  /** The store handle Init returns. */
  datatype ExplDB = ExplDB(db: DB)
  {
    /** Close: close the wrapped pool and return what its Close answers. */
    method Close(ledger: Ledger, poolClose: Outcome) returns (err: Outcome)
      modifies ledger
      ensures ledger.trace == old(ledger.trace) + [Closed(Pool)]
      ensures err == poolClose
    {
      ledger.Record(Closed(Pool));
      err := poolClose;
    }
  }

  /** Init's result: the handle, or the error. */
  datatype InitResult = Ready(edb: ExplDB) | Failed(errors: seq<Error>)

  /** Init ends: the pool does not open, or some ping succeeds. */
  predicate InitTerminates(o: Oracle)
  {
    o.open.Ok? ==> EventuallyAvailable(o.pings)
  }

  /** What Init records: the pool, the pings, then applyMigrations. */
  function InitTrace(o: Oracle): seq<Event>
    requires InitTerminates(o)
  {
    if o.open.Err? then [] else [Opened(Pool)] + PingTrace(o.pings) + MigrationTrace(o)
  }

  /** What Init returns. */
  function InitOutcome(databaseURL: string, o: Oracle): InitResult
  {
    if o.open.Err? then Failed([o.open.error])
    else if MigrationErrors(o) != [] then Failed(MigrationErrors(o))
    else Ready(ExplDB(DB(databaseURL)))
  }

  /** Init: open the pool, wait until the database answers, apply the migrations. On a
      migration failure the pool is returned to nobody and not closed, as in the source. */
  method Init(databaseURL: string, o: Oracle, ledger: Ledger) returns (r: InitResult)
    requires InitTerminates(o)
    modifies ledger
    ensures ledger.trace == old(ledger.trace) + InitTrace(o)
    ensures r == InitOutcome(databaseURL, o)
  {
    if o.open.Err? {
      return Failed([o.open.error]);
    }
    var db := DB(databaseURL);
    ghost var before := ledger.trace;
    ledger.Record(Opened(Pool));
    WaitUntilAvailable(o.pings, ledger);
    var err := ApplyMigrations(o, ledger);
    InitTraceSteps(o, before);
    if err != [] {
      return Failed(err);
    }
    return Ready(ExplDB(db));
  }

  /** Init's records, step by step, make up InitTrace. */
  lemma InitTraceSteps(o: Oracle, before: seq<Event>)
    requires o.open.Ok? && EventuallyAvailable(o.pings)
    ensures before + [Opened(Pool)] + PingTrace(o.pings) + MigrationTrace(o) == before + InitTrace(o)
  {
  }

  // ---------------------------------------------------------------------------
  // The release discipline of applyMigrations

  /** The trace of applyMigrations on each exit path, written out. */
  lemma MigrationTraceCases(o: Oracle)
    ensures Acquired(o) == 0 ==> MigrationTrace(o) == []
    ensures Acquired(o) == 1 ==> MigrationTrace(o) == [Opened(SourceDriver), Closed(SourceDriver)]
    ensures Acquired(o) == 2 ==>
      MigrationTrace(o) == [Opened(SourceDriver), Opened(Connection), Closed(Connection), Closed(SourceDriver)]
    ensures Acquired(o) == 3 ==>
      MigrationTrace(o) == [Opened(SourceDriver), Opened(Connection), Opened(DatabaseDriver),
                            Closed(Connection), Closed(SourceDriver)]
    ensures Acquired(o) == 4 ==>
      MigrationTrace(o) == [Opened(SourceDriver), Opened(Connection), Opened(DatabaseDriver), Opened(Migrator),
                            Closed(Connection), Closed(SourceDriver)]
  {
    assert |MigrationTrace(o)| == Acquired(o) + |DeferStack(o)|;
  }

  /** The resources opened in a trace, in order. */
  function OpenedIn(t: seq<Event>): seq<Resource>
  {
    if t == [] then [] else (if t[0].Opened? then [t[0].resource] else []) + OpenedIn(t[1..])
  }

  /** The resources closed in a trace, in order. */
  function ClosedIn(t: seq<Event>): seq<Resource>
  {
    if t == [] then [] else (if t[0].Closed? then [t[0].resource] else []) + ClosedIn(t[1..])
  }

  /** The resources among rs that applyMigrations acquires directly, in order. */
  function Owned(rs: seq<Resource>): seq<Resource>
  {
    if rs == [] then [] else (if OwnsDirectly(rs[0]) then [rs[0]] else []) + Owned(rs[1..])
  }

  function Reverse(rs: seq<Resource>): seq<Resource>
  {
    if rs == [] then [] else Reverse(rs[1..]) + [rs[0]]
  }

  lemma InAppend(a: seq<Event>, b: seq<Event>)
    ensures OpenedIn(a + b) == OpenedIn(a) + OpenedIn(b)
    ensures ClosedIn(a + b) == ClosedIn(a) + ClosedIn(b)
  {
    OpenedInAppend(a, b);
    ClosedInAppend(a, b);
  }

  lemma {:induction false} OpenedInAppend(a: seq<Event>, b: seq<Event>)
    ensures OpenedIn(a + b) == OpenedIn(a) + OpenedIn(b)
  {
    if a == [] {
      assert a + b == b;
    } else {
      var head := if a[0].Opened? then [a[0].resource] else [];
      assert (a + b)[0] == a[0] && (a + b)[1..] == a[1..] + b;
      OpenedInAppend(a[1..], b);
      assert OpenedIn(a + b) == head + (OpenedIn(a[1..]) + OpenedIn(b));
    }
  }

  lemma {:induction false} ClosedInAppend(a: seq<Event>, b: seq<Event>)
    ensures ClosedIn(a + b) == ClosedIn(a) + ClosedIn(b)
  {
    if a == [] {
      assert a + b == b;
    } else {
      var head := if a[0].Closed? then [a[0].resource] else [];
      assert (a + b)[0] == a[0] && (a + b)[1..] == a[1..] + b;
      ClosedInAppend(a[1..], b);
      assert ClosedIn(a + b) == head + (ClosedIn(a[1..]) + ClosedIn(b));
    }
  }

  lemma {:induction false} InOpensOf(rs: seq<Resource>)
    ensures OpenedIn(OpensOf(rs)) == rs && ClosedIn(OpensOf(rs)) == []
  {
    if rs != [] {
      assert OpensOf(rs)[1..] == OpensOf(rs[1..]);
      InOpensOf(rs[1..]);
    }
  }

  lemma {:induction false} InClosesOf(rs: seq<Resource>)
    ensures OpenedIn(ClosesOf(rs)) == [] && ClosedIn(ClosesOf(rs)) == rs
  {
    if rs != [] {
      assert ClosesOf(rs)[1..] == ClosesOf(rs[1..]);
      InClosesOf(rs[1..]);
    }
  }

  /** applyMigrations opens the acquisitions that succeed, in order, and closes what its
      deferred calls release, in the order they run. */
  lemma MigrationResources(o: Oracle)
    ensures OpenedIn(MigrationTrace(o)) == Acquisitions[..Acquired(o)]
    ensures ClosedIn(MigrationTrace(o)) == DeferStack(o)
  {
    InAppend(OpensOf(Acquisitions[..Acquired(o)]), ClosesOf(DeferStack(o)));
    InOpensOf(Acquisitions[..Acquired(o)]);
    InClosesOf(DeferStack(o));
  }

  lemma {:induction false} OwnedAppend(a: seq<Resource>, b: seq<Resource>)
    ensures Owned(a + b) == Owned(a) + Owned(b)
  {
    if a == [] {
      assert a + b == b;
    } else {
      var head := if OwnsDirectly(a[0]) then [a[0]] else [];
      assert (a + b)[0] == a[0] && (a + b)[1..] == a[1..] + b;
      OwnedAppend(a[1..], b);
      assert Owned(a + b) == head + (Owned(a[1..]) + Owned(b));
      assert Owned(a) == head + Owned(a[1..]);
    }
  }

  lemma {:induction false} OwnedNone(rs: seq<Resource>)
    requires forall i :: 0 <= i < |rs| ==> !OwnsDirectly(rs[i])
    ensures Owned(rs) == []
  {
    if rs != [] {
      OwnedNone(rs[1..]);
    }
  }

  /** The directly owned resources among the first n acquisitions, most recent first. */
  lemma OwnedAcquisitions(n: nat)
    requires n <= |Acquisitions|
    ensures Reverse(Owned(Acquisitions[..n]))
         == if n == 0 then [] else if n == 1 then [SourceDriver] else [Connection, SourceDriver]
  {
    var acq := Acquisitions[..n];
    if n == 0 {
      assert acq == [];
    } else if n == 1 {
      assert acq == [SourceDriver];
      assert Owned(acq) == [SourceDriver];
      assert Reverse([SourceDriver]) == [SourceDriver];
    } else {
      assert acq == [SourceDriver] + [Connection] + acq[2..];
      OwnedNone(acq[2..]);
      OwnedAppend([SourceDriver], [Connection]);
      OwnedAppend([SourceDriver] + [Connection], acq[2..]);
      assert Owned([SourceDriver]) == [SourceDriver];
      assert Owned([Connection]) == [Connection];
      assert Reverse([SourceDriver, Connection]) == [Connection, SourceDriver] by {
        assert [SourceDriver, Connection][1..] == [Connection];
        assert Reverse([Connection]) == [Connection];
      }
    }
  }

  /** The deferred closes are exactly the directly owned resources acquired so far, most
      recent first. */
  lemma DeferStackIsOwnedReversed(o: Oracle)
    ensures DeferStack(o) == Reverse(Owned(Acquisitions[..Acquired(o)]))
  {
    OwnedAcquisitions(Acquired(o));
  }

  /** On every exit path applyMigrations closes exactly the resources it opened directly,
      in the reverse of the order it opened them (deferred calls run last in, first out),
      and it opens nothing twice; so each of them is closed exactly once. */
  lemma MigrationClosesExactlyWhatItOwns(o: Oracle)
    ensures ClosedIn(MigrationTrace(o)) == Reverse(Owned(OpenedIn(MigrationTrace(o))))
    ensures forall i, j :: 0 <= i < j < |OpenedIn(MigrationTrace(o))| ==>
      OpenedIn(MigrationTrace(o))[i] != OpenedIn(MigrationTrace(o))[j]
  {
    MigrationResources(o);
    DeferStackIsOwnedReversed(o);
    AcquisitionsDistinct(Acquired(o));
  }

  /** No resource is acquired twice. */
  lemma AcquisitionsDistinct(n: nat)
    requires n <= |Acquisitions|
    ensures forall i, j :: 0 <= i < j < n ==> Acquisitions[..n][i] != Acquisitions[..n][j]
  {
    forall i, j | 0 <= i < j < n
      ensures Acquisitions[..n][i] != Acquisitions[..n][j]
    {
      assert Acquisitions[..n][i] == Acquisitions[i] && Acquisitions[..n][j] == Acquisitions[j];
    }
  }

  /** Nothing is closed before it is opened. */
  lemma MigrationClosesFollowOpens(o: Oracle)
    ensures forall i :: 0 <= i < |MigrationTrace(o)| && MigrationTrace(o)[i].Closed? ==>
      Opened(MigrationTrace(o)[i].resource) in MigrationTrace(o)[..i]
  {
    var t := MigrationTrace(o);
    var opens := OpensOf(Acquisitions[..Acquired(o)]);
    var closes := ClosesOf(DeferStack(o));
    assert t == opens + closes;
    forall i | 0 <= i < |t| && t[i].Closed?
      ensures Opened(t[i].resource) in t[..i]
    {
      assert i >= |opens|;
      var r := t[i].resource;
      assert r == DeferStack(o)[i - |opens|];
      var k := if r == SourceDriver then 0 else 1;
      assert k < Acquired(o) && Acquisitions[k] == r;
      assert t[..i][k] == opens[k] == Opened(r);
    }
  }

  /** If iofs.New fails nothing is opened or closed and its error is returned; once it
      succeeds the source driver is closed exactly once, as the last event on every exit path. */
  lemma SourceDriverReleasedOnEveryPath(o: Oracle)
    ensures o.source.Err? ==> MigrationTrace(o) == [] && MigrationErrors(o) == [o.source.error]
    ensures o.source.Ok? ==>
      && multiset(ClosedIn(MigrationTrace(o)))[SourceDriver] == 1
      && MigrationTrace(o)[|MigrationTrace(o)| - 1] == Closed(SourceDriver)
  {
    MigrationResources(o);
    if o.source.Ok? {
      var stack := DeferStack(o);
      assert stack[|stack| - 1] == SourceDriver;
      assert MigrationTrace(o)[|MigrationTrace(o)| - 1] == ClosesOf(stack)[|stack| - 1];
    }
  }

  /** Once db.Conn succeeds the borrowed connection is closed exactly once, immediately
      before the source driver; if db.Conn fails the connection is never opened or closed. */
  lemma ConnectionReleasedBeforeSourceDriver(o: Oracle)
    ensures o.source.Ok? && o.conn.Ok? ==>
      && ClosedIn(MigrationTrace(o)) == [Connection, SourceDriver]
      && |MigrationTrace(o)| >= 2
      && MigrationTrace(o)[|MigrationTrace(o)| - 2..] == [Closed(Connection), Closed(SourceDriver)]
    ensures o.source.Ok? && o.conn.Err? ==>
      Connection !in OpenedIn(MigrationTrace(o)) && Connection !in ClosedIn(MigrationTrace(o))
  {
    MigrationResources(o);
    if o.source.Ok? && o.conn.Ok? {
      var t := MigrationTrace(o);
      var opens := OpensOf(Acquisitions[..Acquired(o)]);
      assert t == opens + ClosesOf([Connection, SourceDriver]);
      assert t[|t| - 2..] == ClosesOf([Connection, SourceDriver]);
    }
  }

  /** The resources a Close of r releases: r itself and whatever its Close passes the call
      on to. The database driver's Close closes the connection it wraps; the migrator's
      closes the source driver and the database driver it was built from, and so the
      connection as well. */
  function Released(r: Resource): seq<Resource>
  {
    match r
    case DatabaseDriver => [DatabaseDriver, Connection]
    case Migrator => [Migrator, SourceDriver, DatabaseDriver, Connection]
    case _ => [r]
  }

  /** Everything the given Close calls release, passed-on closes included, in order. */
  function AllReleased(rs: seq<Resource>): seq<Resource>
  {
    if rs == [] then [] else Released(rs[0]) + AllReleased(rs[1..])
  }

  lemma {:induction false} AllReleasedAppend(a: seq<Resource>, b: seq<Resource>)
    ensures AllReleased(a + b) == AllReleased(a) + AllReleased(b)
  {
    if a == [] {
      assert a + b == b;
    } else {
      assert (a + b)[0] == a[0] && (a + b)[1..] == a[1..] + b;
      AllReleasedAppend(a[1..], b);
    }
  }

  /** Closing resources that are not wrappers passes nothing on. */
  lemma {:induction false} AllReleasedDirect(rs: seq<Resource>)
    requires forall i :: 0 <= i < |rs| ==> rs[i] != DatabaseDriver && rs[i] != Migrator
    ensures AllReleased(rs) == rs
  {
    if rs != [] {
      AllReleasedDirect(rs[1..]);
    }
  }

  /** The database driver and the migrator are never closed, the pool is not closed by
      applyMigrations, and, counting the closes a Close passes on, nothing is closed twice. */
  lemma WrappersAndPoolNeverClosed(o: Oracle)
    ensures DatabaseDriver !in ClosedIn(MigrationTrace(o))
    ensures Migrator !in ClosedIn(MigrationTrace(o))
    ensures Pool !in ClosedIn(MigrationTrace(o))
    ensures AllReleased(ClosedIn(MigrationTrace(o))) == ClosedIn(MigrationTrace(o))
    ensures forall i, j :: 0 <= i < j < |AllReleased(ClosedIn(MigrationTrace(o)))| ==>
      AllReleased(ClosedIn(MigrationTrace(o)))[i] != AllReleased(ClosedIn(MigrationTrace(o)))[j]
  {
    var stack := DeferStack(o);
    MigrationResources(o);
    assert stack == [] || stack == [SourceDriver] || stack == [Connection, SourceDriver];
    AllReleasedDirect(stack);
  }

  /** Why the wrappers are not closed: had applyMigrations also closed the database driver,
      the connection would be released twice; had it closed the migrator, both the
      connection and the source driver would be released twice. */
  lemma ClosingAWrapperClosesTwice(o: Oracle)
    requires Acquired(o) >= 3
    ensures AllReleased(ClosedIn(MigrationTrace(o)) + [DatabaseDriver])
         == [Connection, SourceDriver, DatabaseDriver, Connection]
    ensures AllReleased(ClosedIn(MigrationTrace(o)) + [Migrator])
         == [Connection, SourceDriver, Migrator, SourceDriver, DatabaseDriver, Connection]
  {
    var closed := ClosedIn(MigrationTrace(o));
    MigrationResources(o);
    assert closed == [Connection, SourceDriver];
    AllReleasedDirect(closed);
    AllReleasedAppend(closed, [DatabaseDriver]);
    AllReleasedAppend(closed, [Migrator]);
    assert AllReleased([DatabaseDriver]) == [DatabaseDriver, Connection];
    assert AllReleased([Migrator]) == [Migrator, SourceDriver, DatabaseDriver, Connection];
  }

  /** The error of the failing acquisition is the first error of the result, and the
      resource it was to produce is never opened. */
  lemma FailedAcquisitionReturned(o: Oracle)
    requires Acquired(o) < |Acquisitions|
    ensures |MigrationErrors(o)| >= 1
    ensures MigrationErrors(o)[0] == AcquisitionOutcomes(o)[Acquired(o)].error
    ensures Opened(Acquisitions[Acquired(o)]) !in MigrationTrace(o)
  {
    MigrationTraceCases(o);
  }

  /** Up answering ErrNoChange counts as success: the result is the same as when Up answers nil. */
  lemma NoChangeIsSuccess(o: Oracle)
    requires Acquired(o) == |Acquisitions| && o.up == Err(ErrNoChange)
    ensures MigrationErrors(o) == MigrationErrors(o.(up := Ok))
    ensures MigrationErrors(o) == CloseErrors(o, [Connection, SourceDriver])
  {
    var o' := o.(up := Ok);
    assert Acquired(o') == Acquired(o) == 4;
    assert DeferStack(o') == DeferStack(o) == [Connection, SourceDriver];
    assert ReturnedError(o) == ReturnedError(o') == [];
    CloseErrorsOfBoth(o);
    CloseErrorsOfBoth(o');
  }

  /** Any other error of Up is returned unchanged, ahead of any close error. */
  lemma UpErrorReturnedUnchanged(o: Oracle)
    requires Acquired(o) == |Acquisitions| && o.up.Err? && o.up.error != ErrNoChange
    ensures |MigrationErrors(o)| >= 1 && MigrationErrors(o)[0] == o.up.error
  {
  }

  /** A failing Close of a deferred call leaves its error in the result. */
  lemma CloseErrorsCarried(o: Oracle)
    ensures o.source.Ok? && o.sourceClose.Err? ==> o.sourceClose.error in MigrationErrors(o)
    ensures o.source.Ok? && o.conn.Ok? && o.connClose.Err? ==> o.connClose.error in MigrationErrors(o)
  {
    CloseErrorsOfBoth(o);
  }

  /** applyMigrations returns nil exactly when every acquisition succeeds, Up answers nil or
      ErrNoChange, and both deferred Close calls succeed. */
  lemma MigrationSucceedsIff(o: Oracle)
    ensures MigrationErrors(o) == [] <==>
      && Acquired(o) == |Acquisitions|
      && (o.up.Ok? || o.up.error == ErrNoChange)
      && o.sourceClose.Ok? && o.connClose.Ok?
  {
    CloseErrorsOfBoth(o);
  }

  // ---------------------------------------------------------------------------
  // Init

  /** Init fails with sqlx.Open's error when the pool cannot be opened, fails with the
      migration error when applyMigrations fails, and otherwise returns a handle over the
      pool opened for the given URL. */
  lemma InitResults(databaseURL: string, o: Oracle)
    ensures o.open.Err? ==> InitOutcome(databaseURL, o) == Failed([o.open.error])
    ensures o.open.Ok? && MigrationErrors(o) != [] ==> InitOutcome(databaseURL, o) == Failed(MigrationErrors(o))
    ensures InitOutcome(databaseURL, o).Ready? <==>
      && o.open.Ok?
      && Acquired(o) == |Acquisitions|
      && (o.up.Ok? || o.up.error == ErrNoChange)
      && o.sourceClose.Ok? && o.connClose.Ok?
    ensures InitOutcome(databaseURL, o).Ready? ==> InitOutcome(databaseURL, o).edb.db == DB(databaseURL)
  {
    MigrationSucceedsIff(o);
  }

  /** Init opens the pool, pings until the first ping that succeeds and no further, and only
      then starts applyMigrations. */
  lemma MigrationsFollowFirstSuccessfulPing(o: Oracle)
    requires o.open.Ok? && EventuallyAvailable(o.pings)
    ensures var k := FirstSuccess(o.pings) + 1;
      && |InitTrace(o)| > k
      && InitTrace(o)[0] == Opened(Pool)
      && (forall j :: 1 <= j < k ==> InitTrace(o)[j] == Pinged(false))
      && InitTrace(o)[k] == Pinged(true)
      && InitTrace(o)[k + 1..] == MigrationTrace(o)
      && (forall j :: k < j < |InitTrace(o)| ==> !InitTrace(o)[j].Pinged?)
  {
    var k := FirstSuccess(o.pings) + 1;
    var pings := PingTrace(o.pings);
    assert |pings| == k;
    var t := InitTrace(o);
    assert t == [Opened(Pool)] + pings + MigrationTrace(o);
    var m := MigrationTrace(o);
    forall j | 1 <= j < k
      ensures t[j] == Pinged(false)
    {
      assert t[j] == pings[j - 1];
    }
    assert t[k] == pings[k - 1];
    assert t[k + 1..] == m;
    MigrationTraceHasNoPings(o);
    forall j | k < j < |t|
      ensures !t[j].Pinged?
    {
      assert t[j] == m[j - k - 1];
    }
  }

  /** applyMigrations only opens and closes: it never pings. */
  lemma MigrationTraceHasNoPings(o: Oracle)
    ensures forall j :: 0 <= j < |MigrationTrace(o)| ==> !MigrationTrace(o)[j].Pinged?
  {
    var opens := OpensOf(Acquisitions[..Acquired(o)]);
    var closes := ClosesOf(DeferStack(o));
    forall j | 0 <= j < |MigrationTrace(o)|
      ensures !MigrationTrace(o)[j].Pinged?
    {
      if j < |opens| {
        assert MigrationTrace(o)[j] == opens[j];
      } else {
        assert MigrationTrace(o)[j] == closes[j - |opens|];
      }
    }
  }

  lemma {:induction false} InPingEvents(pings: seq<Outcome>)
    ensures OpenedIn(PingEvents(pings)) == [] && ClosedIn(PingEvents(pings)) == []
  {
    if pings != [] {
      assert PingEvents(pings)[1..] == PingEvents(pings[1..]);
      InPingEvents(pings[1..]);
    }
  }

  lemma {:induction false} ClosedInMembers(t: seq<Event>, r: Resource)
    ensures Closed(r) in t <==> r in ClosedIn(t)
    ensures Opened(r) in t <==> r in OpenedIn(t)
  {
    if t != [] {
      ClosedInMembers(t[1..], r);
      assert t == [t[0]] + t[1..];
    }
  }

  /** Init opens the pool first and never closes it, whatever happens; the other resources
      are opened and closed as applyMigrations opens and closes them. */
  lemma InitNeverClosesPool(o: Oracle)
    requires InitTerminates(o)
    ensures o.open.Err? ==> InitTrace(o) == []
    ensures o.open.Ok? ==> OpenedIn(InitTrace(o)) == [Pool] + OpenedIn(MigrationTrace(o))
    ensures o.open.Ok? ==> ClosedIn(InitTrace(o)) == ClosedIn(MigrationTrace(o))
    ensures Closed(Pool) !in InitTrace(o)
  {
    WrappersAndPoolNeverClosed(o);
    if o.open.Ok? {
      var pings := PingTrace(o.pings);
      InAppend([Opened(Pool)], pings);
      InAppend([Opened(Pool)] + pings, MigrationTrace(o));
      InPingEvents(o.pings[..FirstSuccess(o.pings) + 1]);
      assert OpenedIn([Opened(Pool)]) == [Pool];
      assert ClosedIn([Opened(Pool)]) == [];
    }
    ClosedInMembers(InitTrace(o), Pool);
  }

  /** When applyMigrations fails, Init returns the error but leaves the opened pool
      unclosed: nobody holds it any more. */
  lemma InitLeaksPoolOnMigrationFailure(databaseURL: string, o: Oracle)
    requires InitTerminates(o) && o.open.Ok? && MigrationErrors(o) != []
    ensures InitOutcome(databaseURL, o).Failed?
    ensures Pool in OpenedIn(InitTrace(o)) && Pool !in ClosedIn(InitTrace(o))
  {
    InitNeverClosesPool(o);
    ClosedInMembers(InitTrace(o), Pool);
  }

  /** Over the life of a handle that Init returns and ExplDB.Close ends, every resource is
      opened once, and the connection, the source driver and the pool are each closed once,
      in that order. */
  lemma PoolLifecycle(databaseURL: string, o: Oracle)
    requires InitTerminates(o) && InitOutcome(databaseURL, o).Ready?
    ensures OpenedIn(InitTrace(o) + [Closed(Pool)]) == [Pool, SourceDriver, Connection, DatabaseDriver, Migrator]
    ensures ClosedIn(InitTrace(o) + [Closed(Pool)]) == [Connection, SourceDriver, Pool]
  {
    var t := InitTrace(o);
    InitResults(databaseURL, o);
    assert o.open.Ok? && Acquired(o) == 4;
    InitNeverClosesPool(o);
    MigrationResources(o);
    assert Acquisitions[..4] == Acquisitions;
    assert OpenedIn(t) == [Pool] + Acquisitions;
    assert ClosedIn(t) == [Connection, SourceDriver];
    InAppend(t, [Closed(Pool)]);
    assert OpenedIn([Closed(Pool)]) == [];
    assert ClosedIn([Closed(Pool)]) == [Pool];
  }
}
