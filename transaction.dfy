/**
 * Transactions and the per-call options: `Transactional` begins a
 * transaction, runs the caller's function with an option that routes
 * statements to the transaction, and then commits or rolls back; the
 * options `WithTransaction` and `WithInterceptors` set fields of an
 * `ExecOption`. The database calls (begin, commit, rollback) are inputs
 * given by the errors they return.
 */
module Transactions {
  import opened Wrappers
  import opened Interceptors

  /** An `Option` function, by what it sets. */
  datatype Setting<V> = WithTransaction(execer: Execer) | WithInterceptors(interceptors: seq<Stage<V>>)

  /** The context `WithInterceptors` leaves: the existing one, or the background one, with the list stored under the interceptor key. */
  function InterceptorCtx<V>(ctx: Option<Ctx<V>>, interceptors: seq<Stage<V>>): (r: Ctx<V>)
    ensures ExtraInterceptors(r) == interceptors
    ensures GetCacheInterceptor(Some(r)) == GetCacheInterceptor(ctx)
  {
    var base := if ctx.None? then Background() else ctx.value;
    Ctx(base.cache, HandlerList(interceptors))
  }

  /** Applies an option to an `ExecOption`: only the field it sets changes. */
  method Apply<V>(setting: Setting<V>, o: ExecOption<V>)
    modifies o
    ensures o.sqlStmt == old(o.sqlStmt) && o.args == old(o.args) && o.extension == old(o.extension)
    ensures setting.WithTransaction? ==> o.execer == setting.execer && o.ctx == old(o.ctx)
    ensures setting.WithInterceptors? ==>
      o.execer == old(o.execer) && o.ctx == Some(InterceptorCtx(old(o.ctx), setting.interceptors))
  {
    match setting {
      case WithTransaction(execer) =>
        o.execer := execer;
      case WithInterceptors(interceptors) =>
        var ctx := o.ctx;
        if ctx.None? {
          ctx := Some(Background());
        }
        o.ctx := Some(Ctx(ctx.value.cache, HandlerList(interceptors)));
    }
  }

  /**
   * Interceptors given with `WithInterceptors` run after the global ones and
   * before the slow-query stage, and a cache stage already on the context
   * keeps its place at the front.
   */
  lemma InterceptorsJoinChain<V>(ctx: Option<Ctx<V>>, interceptors: seq<Stage<V>>, execute: seq<Stage<V>>,
                                 pagination: Option<Stage<V>>, debug: Option<Stage<V>>, slowQuery: Option<Stage<V>>)
    ensures var c := InterceptorCtx(ctx, interceptors);
      StageOrder(GetCacheInterceptor(Some(c)), pagination, debug, execute, ExtraInterceptors(c), slowQuery)
      == StageOrder(GetCacheInterceptor(ctx), pagination, debug, execute, interceptors, slowQuery)
  {
  }

  /** How the caller's function ends: it returns an error or nil, or it panics with a value (given as its text). */
  datatype FnOutcome = Returned(err: Option<string>) | Panicked(value: string)

  /** What `Transactional` does against the database, in order. */
  datatype TxAction = Begin | CallFn(execer: Execer) | Rollback | Commit

  /** The actions of `Transactional`: nothing after a failed begin; otherwise the function, then commit or rollback. */
  function TxActions(tx: nat, begin: Option<string>, fnOut: FnOutcome): seq<TxAction>
  {
    if begin.Some? then [Begin]
    else if fnOut == Returned(None) then [Begin, CallFn(Transaction(tx)), Commit]
    else [Begin, CallFn(Transaction(tx)), Rollback]
  }

  /** The error `Transactional` returns, case by case. */
  function TxError(begin: Option<string>, fnOut: FnOutcome, rollbackErr: Option<string>, commitErr: Option<string>): Option<string>
  {
    if begin.Some? then begin
    else match fnOut
      case Returned(None) => commitErr
      case Returned(Some(e)) => if rollbackErr.Some? then rollbackErr else Some(e)
      case Panicked(v) => if rollbackErr.Some? then rollbackErr else Some("recovered from " + v)
  }

  /**
   * `Transactional`: the deferred function rolls back when the function
   * panicked or returned an error, commits otherwise, and an error of the
   * rollback or the commit replaces the result.
   */
  method Transactional(tx: nat, begin: Option<string>, fnOut: FnOutcome, rollbackErr: Option<string>, commitErr: Option<string>)
    returns (err: Option<string>, actions: seq<TxAction>)
    ensures actions == TxActions(tx, begin, fnOut)
    ensures err == TxError(begin, fnOut, rollbackErr, commitErr)
  {
    actions := [Begin];
    err := begin;
    if err.Some? {
      return;
    }
    actions := actions + [CallFn(Transaction(tx))];
    var recovered: Option<string> := None;
    match fnOut {
      case Returned(e) => err := e;
      case Panicked(v) => recovered := Some(v);
    }
    var e: Option<string> := None;
    if recovered.Some? || err.Some? {
      actions := actions + [Rollback];
      e := rollbackErr;
      if e.None? && recovered.Some? {
        e := Some("recovered from " + recovered.value);
      }
    } else {
      actions := actions + [Commit];
      e := commitErr;
    }
    if e.Some? {
      err := e;
    }
  }

  /** A failed begin is returned as it is, and the function never runs. */
  lemma BeginFailure(tx: nat, b: string, fnOut: FnOutcome, rollbackErr: Option<string>, commitErr: Option<string>)
    ensures TxError(Some(b), fnOut, rollbackErr, commitErr) == Some(b)
    ensures forall a :: a in TxActions(tx, Some(b), fnOut) ==> !a.CallFn? && a != Commit && a != Rollback
  {
  }

  /**
   * After a successful begin the function runs once, with the transaction
   * as its executor, and then exactly one of commit and rollback happens:
   * commit exactly when the function returned no error and did not panic.
   */
  lemma CommitOrRollback(tx: nat, fnOut: FnOutcome)
    ensures var a := TxActions(tx, None, fnOut);
      |a| == 3 && a[0] == Begin && a[1] == CallFn(Transaction(tx))
      && (a[2] == Commit <==> fnOut == Returned(None))
      && (a[2] == Rollback <==> fnOut != Returned(None))
  {
  }

  /** The transaction reports success exactly when it begins, the function succeeds and the commit succeeds. */
  lemma TxSucceedsIff(begin: Option<string>, fnOut: FnOutcome, rollbackErr: Option<string>, commitErr: Option<string>)
    ensures TxError(begin, fnOut, rollbackErr, commitErr).None? <==>
      begin.None? && fnOut == Returned(None) && commitErr.None?
  {
  }

  /** A failing rollback or commit replaces whatever error there was. */
  lemma EndErrorWins(fnOut: FnOutcome, rollbackErr: Option<string>, commitErr: Option<string>)
    ensures fnOut == Returned(None) && commitErr.Some? ==> TxError(None, fnOut, rollbackErr, commitErr) == commitErr
    ensures fnOut != Returned(None) && rollbackErr.Some? ==> TxError(None, fnOut, rollbackErr, commitErr) == rollbackErr
  {
  }

  /** A panic after a clean rollback is reported as a recovered-from error. */
  lemma PanicReported(v: string, commitErr: Option<string>)
    ensures TxError(None, Panicked(v), None, commitErr) == Some("recovered from " + v)
  {
  }
}
