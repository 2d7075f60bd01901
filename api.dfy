/**
  The database API base class and its transaction handle (boson/db/api.py).

  The storage operations of the API are abstract in the repository; the model
  keeps only what the concrete code relies on: an `API` object that records
  every call made on it (`create_session`, `begin`, `commit`, `rollback`,
  `_save`, `_lazy_get`, `_lazy_get_list`) and answers lazy lookups through an
  oracle. On top of it sit the concrete parts: `transaction`, `_get_session`
  and `APITransaction`, whose open/closed life is also given as a pure state
  machine (`Step`, `Run`) with its one-ending property proved.
 */
module Api {
  import opened Wrappers
  import opened Values
  import opened Contexts

  /** A call made on the storage backend, with the arguments it received. */
  datatype Call =
    | CreateSessionCall(ctx: Context)
    | BeginCall(ctx: Context)
    | CommitCall(ctx: Context)
    | RollbackCall(ctx: Context)
    | SaveCall(ctx: Context, attrs: map<string, Datum>)
    | LazyGetCall(ctx: Context, attrs: map<string, Datum>, field: string, klass: string)
    | LazyGetListCall(ctx: Context, attrs: map<string, Datum>, field: string, klass: string)

  datatype ApiError = AttributeError(name: string) | ValueError(message: string)

  // ---------------------------------------------------------------------------
  // The transaction handle as a state machine

  /** What the code does to a handle: enter it, leave it (with or without an exception), commit, roll back. */
  datatype TxOp = EnterOp | ExitOp(raised: bool) | CommitOp | RollbackOp

  /** The backend calls a handle issues. */
  datatype TxAction = BeginAction | CommitAction | RollbackAction

  /** The outcome of one operation: the new `_closed`, the backend calls issued, whether `ValueError` was raised. */
  datatype TxStep = TxStep(closed: bool, actions: seq<TxAction>, refused: bool)

  /** `commit` or `rollback`: call the backend and close, unless already closed. */
  function Finish(closed: bool, action: TxAction): TxStep
  {
    if closed then TxStep(true, [], false) else TxStep(true, [action], false)
  }

  /**
    One operation on a handle built with the given `commit` and `rollback` flags.
    Only entering a closed handle is refused, a closed handle calls nothing, and
    an operation calls the backend at most once.
   */
  function Step(commitOnExit: bool, rollbackOnExit: bool, closed: bool, op: TxOp): (s: TxStep)
    ensures s.refused <==> op == EnterOp && closed
    ensures closed ==> s.actions == [] && s.closed
    ensures |s.actions| <= 1
    ensures s.actions == [BeginAction] <==> op == EnterOp && !closed
  {
    match op
    case EnterOp => if closed then TxStep(closed, [], true) else TxStep(closed, [BeginAction], false)
    case CommitOp => Finish(closed, CommitAction)
    case RollbackOp => Finish(closed, RollbackAction)
    case ExitOp(raised) =>
      if raised && rollbackOnExit then Finish(closed, RollbackAction)
      else if !raised && commitOnExit then Finish(closed, CommitAction)
      else TxStep(closed, [], false)
  }

  /** A sequence of operations, from a handle that is `closed` or not: at most one backend call per operation. */
  function Run(commitOnExit: bool, rollbackOnExit: bool, closed: bool, ops: seq<TxOp>): (s: TxStep)
    ensures |s.actions| <= |ops|
    ensures s.refused ==> EnterOp in ops
    decreases |ops|
  {
    if ops == [] then TxStep(closed, [], false)
    else
      var first := Step(commitOnExit, rollbackOnExit, closed, ops[0]);
      var rest := Run(commitOnExit, rollbackOnExit, first.closed, ops[1..]);
      TxStep(rest.closed, first.actions + rest.actions, first.refused || rest.refused)
  }

  /** How many commits and rollbacks a list of backend calls holds. */
  function Endings(actions: seq<TxAction>): nat
  {
    if actions == [] then 0
    else (if actions[0] == BeginAction then 0 else 1) + Endings(actions[1..])
  }

  lemma {:induction false} EndingsAppend(a: seq<TxAction>, b: seq<TxAction>)
    ensures Endings(a + b) == Endings(a) + Endings(b)
  {
    if a == [] {
      assert a + b == b;
    } else {
      assert (a + b)[0] == a[0] && (a + b)[1..] == a[1..] + b;
      EndingsAppend(a[1..], b);
    }
  }

  /** A single operation never reopens a handle, and it issues an ending exactly when it closes one. */
  lemma StepEnding(commitOnExit: bool, rollbackOnExit: bool, closed: bool, op: TxOp)
    ensures var s := Step(commitOnExit, rollbackOnExit, closed, op);
            && (closed ==> s.closed)
            && Endings(s.actions) + (if closed then 1 else 0) == (if s.closed then 1 else 0)
  {
    var s := Step(commitOnExit, rollbackOnExit, closed, op);
    assert s.actions == [] || s.actions == [BeginAction] || s.actions == [CommitAction] || s.actions == [RollbackAction];
  }

  /**
    Whatever a caller does with a handle, a closed handle stays closed, and the
    handle has issued exactly one `commit` or `rollback` to the backend if it
    ended closed and none if it is still open.
   */
  lemma {:induction false} OneEnding(commitOnExit: bool, rollbackOnExit: bool, closed: bool, ops: seq<TxOp>)
    ensures var s := Run(commitOnExit, rollbackOnExit, closed, ops);
            && (closed ==> s.closed)
            && Endings(s.actions) + (if closed then 1 else 0) == (if s.closed then 1 else 0)
    decreases |ops|
  {
    if ops != [] {
      var first := Step(commitOnExit, rollbackOnExit, closed, ops[0]);
      var rest := Run(commitOnExit, rollbackOnExit, first.closed, ops[1..]);
      StepEnding(commitOnExit, rollbackOnExit, closed, ops[0]);
      OneEnding(commitOnExit, rollbackOnExit, first.closed, ops[1..]);
      EndingsAppend(first.actions, rest.actions);
    }
  }

  /** Commit and rollback exclude each other: a new handle issues at most one of them, whatever is done to it. */
  lemma AtMostOneEnding(commitOnExit: bool, rollbackOnExit: bool, ops: seq<TxOp>)
    ensures Endings(Run(commitOnExit, rollbackOnExit, false, ops).actions) <= 1
  {
    OneEnding(commitOnExit, rollbackOnExit, false, ops);
  }

  /** Once closed, a handle calls nothing on the backend again. */
  lemma {:induction false} ClosedIsFinal(commitOnExit: bool, rollbackOnExit: bool, ops: seq<TxOp>)
    ensures Run(commitOnExit, rollbackOnExit, true, ops).actions == []
    ensures Run(commitOnExit, rollbackOnExit, true, ops).closed
    decreases |ops|
  {
    if ops != [] {
      ClosedIsFinal(commitOnExit, rollbackOnExit, ops[1..]);
    }
  }

  /** The backend method an action calls, with the handle's context. */
  function CallFor(ctx: Context, a: TxAction): Call
  {
    match a
    case BeginAction => BeginCall(ctx)
    case CommitAction => CommitCall(ctx)
    case RollbackAction => RollbackCall(ctx)
  }

  /** The backend calls for a handle's actions under context `ctx`: one per action, in order, each on `ctx`. */
  function Emit(ctx: Context, actions: seq<TxAction>): (calls: seq<Call>)
    ensures |calls| == |actions|
    ensures forall i :: 0 <= i < |actions| ==> calls[i] == CallFor(ctx, actions[i]) && calls[i].ctx == ctx
  {
    if actions == [] then []
    else [CallFor(ctx, actions[0])] + Emit(ctx, actions[1..])
  }

  // ---------------------------------------------------------------------------
  // The backend and the handle as objects

  /**
    A database API object. Its abstract operations record their calls; what a
    lazy lookup returns is up to the backend, given here by `answer`.
   */
  class API {
    var calls: seq<Call>
    const answer: Call -> Datum

    constructor (answer: Call -> Datum)
      ensures calls == [] && this.answer == answer
    {
      calls := [];
      this.answer := answer;
    }

    /** `create_session`: a new session each time. */
    method CreateSession(ctx: Context) returns (s: DbSession)
      modifies this
      ensures fresh(s)
      ensures calls == old(calls) + [CreateSessionCall(ctx)]
    {
      s := new DbSession();
      calls := calls + [CreateSessionCall(ctx)];
    }

    method Begin(ctx: Context)
      modifies this
      ensures calls == old(calls) + [BeginCall(ctx)]
    {
      calls := calls + [BeginCall(ctx)];
    }

    method Commit(ctx: Context)
      modifies this
      ensures calls == old(calls) + [CommitCall(ctx)]
    {
      calls := calls + [CommitCall(ctx)];
    }

    method Rollback(ctx: Context)
      modifies this
      ensures calls == old(calls) + [RollbackCall(ctx)]
    {
      calls := calls + [RollbackCall(ctx)];
    }

    /** `_save`: the backend receives the backing object as it stands. */
    method Save(ctx: Context, attrs: map<string, Datum>)
      modifies this
      ensures calls == old(calls) + [SaveCall(ctx, attrs)]
    {
      calls := calls + [SaveCall(ctx, attrs)];
    }

    /** `_lazy_get`: resolve a single reference stored in `field` of the backing object. */
    method LazyGet(ctx: Context, attrs: map<string, Datum>, field: string, klass: string) returns (d: Datum)
      modifies this
      ensures calls == old(calls) + [LazyGetCall(ctx, attrs, field, klass)]
      ensures d == answer(LazyGetCall(ctx, attrs, field, klass))
    {
      calls := calls + [LazyGetCall(ctx, attrs, field, klass)];
      d := answer(LazyGetCall(ctx, attrs, field, klass));
    }

    /** `_lazy_get_list`: resolve a list reference named `field`. */
    method LazyGetList(ctx: Context, attrs: map<string, Datum>, field: string, klass: string) returns (d: Datum)
      modifies this
      ensures calls == old(calls) + [LazyGetListCall(ctx, attrs, field, klass)]
      ensures d == answer(LazyGetListCall(ctx, attrs, field, klass))
    {
      calls := calls + [LazyGetListCall(ctx, attrs, field, klass)];
      d := answer(LazyGetListCall(ctx, attrs, field, klass));
    }

    /** `API.transaction`: a new open handle on this API carrying the given flags. */
    method Transaction(ctx: Context, commit: bool := true, rollback: bool := true) returns (t: APITransaction)
      ensures fresh(t)
      ensures t.dbapi == this && t.context == ctx
      ensures t.commitOnExit == commit && t.rollbackOnExit == rollback
      ensures !t.closed
    {
      t := new APITransaction(this, ctx, commit, rollback);
    }

    /**
      `_get_session` as written. Reading `context.session` runs the context's
      `session` property; when that yields `None`, the method creates a session
      and then fails assigning it, because the property has no setter; the new
      session is lost and the context still holds none.
     */
    method GetSessionAsWritten(ctx: Context, source: SessionSource) returns (r: Result<DbSession, ApiError>)
      modifies this, ctx`session, source
      ensures old(ctx.session) != null ==>
                r == Ok(old(ctx.session)) && calls == old(calls) && source.calls == old(source.calls)
      ensures old(ctx.session) == null && source.result != null ==>
                && r == Ok(source.result) && ctx.session == source.result
                && calls == old(calls) && source.calls == old(source.calls) + 1
      ensures old(ctx.session) == null && source.result == null ==>
                && r == Err(AttributeError("session"))
                && calls == old(calls) + [CreateSessionCall(ctx)]
                && source.calls == old(source.calls) + 1
                && ctx.session == null
    {
      var current := ctx.Session(source);
      if current == null {
        var created := CreateSession(ctx);
        r := Err(AttributeError("session"));
      } else {
        var again := ctx.Session(source);
        r := Ok(again);
      }
    }

    /**
      `_get_session` as its documentation describes it: create a session only
      when the context holds none, store it on the context, and return the
      stored session, so later calls return it without creating another.
     */
    method GetSession(ctx: Context, source: SessionSource) returns (s: DbSession)
      modifies this, ctx`session, source
      ensures ctx.session == s
      ensures old(ctx.session) != null ==>
                s == old(ctx.session) && calls == old(calls) && source.calls == old(source.calls)
      ensures old(ctx.session) == null && source.result != null ==>
                s == source.result && calls == old(calls) && source.calls == old(source.calls) + 1
      ensures old(ctx.session) == null && source.result == null ==>
                fresh(s) && calls == old(calls) + [CreateSessionCall(ctx)] && source.calls == old(source.calls) + 1
    {
      var current := ctx.Session(source);
      if current == null {
        var created := CreateSession(ctx);
        ctx.session := created;
      }
      var stored := ctx.Session(source);
      s := stored;
    }
  }

  /** `APITransaction`: a context manager over one backend transaction. */
  class APITransaction {
    const dbapi: API
    const context: Context
    /** `_commit`: commit when the `with` block completes normally. */
    const commitOnExit: bool
    /** `_rollback`: roll back when the `with` block raises. */
    const rollbackOnExit: bool
    /** `_closed`: committed or rolled back already. */
    var closed: bool

    constructor (dbapi: API, context: Context, commit: bool, rollback: bool)
      ensures this.dbapi == dbapi && this.context == context
      ensures commitOnExit == commit && rollbackOnExit == rollback
      ensures !closed
    {
      this.dbapi := dbapi;
      this.context := context;
      commitOnExit := commit;
      rollbackOnExit := rollback;
      closed := false;
    }

    /** `__enter__`: refuse a closed handle; otherwise begin on the backend and hand back this handle. */
    method Enter() returns (r: Result<APITransaction, ApiError>)
      modifies dbapi
      ensures old(closed) ==> r == Err(ValueError("transaction has already been closed"))
      ensures old(closed) ==> dbapi.calls == old(dbapi.calls)
      ensures !old(closed) ==> r == Ok(this) && dbapi.calls == old(dbapi.calls) + [BeginCall(context)]
      ensures var s := Step(commitOnExit, rollbackOnExit, old(closed), EnterOp);
              closed == s.closed && dbapi.calls == old(dbapi.calls) + Emit(context, s.actions) && (r.Err? <==> s.refused)
    {
      if closed {
        r := Err(ValueError("transaction has already been closed"));
        return;
      }
      dbapi.Begin(context);
      r := Ok(this);
    }

    /** `commit`: commit on the backend and close, unless already closed. */
    method Commit()
      modifies this, dbapi
      ensures closed
      ensures dbapi.calls == if old(closed) then old(dbapi.calls) else old(dbapi.calls) + [CommitCall(context)]
      ensures var s := Step(commitOnExit, rollbackOnExit, old(closed), CommitOp);
              closed == s.closed && dbapi.calls == old(dbapi.calls) + Emit(context, s.actions)
    {
      if closed {
        return;
      }
      dbapi.Commit(context);
      closed := true;
    }

    /** `rollback`: roll back on the backend and close, unless already closed. */
    method Rollback()
      modifies this, dbapi
      ensures closed
      ensures dbapi.calls == if old(closed) then old(dbapi.calls) else old(dbapi.calls) + [RollbackCall(context)]
      ensures var s := Step(commitOnExit, rollbackOnExit, old(closed), RollbackOp);
              closed == s.closed && dbapi.calls == old(dbapi.calls) + Emit(context, s.actions)
    {
      if closed {
        return;
      }
      dbapi.Rollback(context);
      closed := true;
    }

    /**
      `__exit__`: roll back if the block raised and rollback is enabled, commit
      if it did not raise and commit is enabled, otherwise do nothing; never
      swallow the exception.
     */
    method Exit(raised: bool) returns (handled: bool)
      modifies this, dbapi
      ensures !handled
      ensures raised && rollbackOnExit ==>
                closed && dbapi.calls == if old(closed) then old(dbapi.calls) else old(dbapi.calls) + [RollbackCall(context)]
      ensures !raised && commitOnExit ==>
                closed && dbapi.calls == if old(closed) then old(dbapi.calls) else old(dbapi.calls) + [CommitCall(context)]
      ensures (raised && !rollbackOnExit) || (!raised && !commitOnExit) ==>
                closed == old(closed) && dbapi.calls == old(dbapi.calls)
      ensures var s := Step(commitOnExit, rollbackOnExit, old(closed), ExitOp(raised));
              closed == s.closed && dbapi.calls == old(dbapi.calls) + Emit(context, s.actions)
    {
      if raised {
        if rollbackOnExit {
          Rollback();
        }
      } else {
        if commitOnExit {
          Commit();
        }
      }
      handled := false;
    }
  }
}
