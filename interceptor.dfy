/**
 * The execution pipeline: the interceptor stages registered globally or on a
 * call's context, the order in which they are chained, how each stage's
 * `next` continues with the rest of the chain, and the built-in pagination,
 * SQL-debug and slow-query stages.
 *
 * A handler returns a Go `any` and an `error`; `any` is the type parameter
 * `V` throughout. A stage is described by what it does with its `next`: it
 * forwards (calls `next` once and returns what it returns) or it answers
 * without calling `next`.
 */
module Interceptors {
  import opened Wrappers
  import opened Strs
  import opened Pages

  /** What a handler returns: a value and an error. */
  datatype Outcome<V> = Outcome(value: V, err: Option<string>)

  /** An interceptor, by what it does with its continuation. */
  datatype Stage<V> = Forward | Answer(out: Outcome<V>)

  /** The value stored under the interceptor key of a context: absent, one handler, a list of them, or a value of another type. */
  datatype CtxValue<V> = NoValue | OneHandler(h: Stage<V>) | HandlerList(hs: seq<Stage<V>>) | OtherValue

  /** A context, by the two values the pipeline looks up in it. */
  datatype Ctx<V> = Ctx(cache: Option<Stage<V>>, interceptors: CtxValue<V>)

  /** `context.Background()`: no values. */
  function Background<V>(): Ctx<V>
  {
    Ctx(None, NoValue)
  }

  /** Who executes the statement: the database or an open transaction. */
  datatype Execer = NoExecer | Database | Transaction(id: nat)

  /** The `Extension` of an option: nothing, a pagination request, or a value of another type. */
  datatype Extension = NoExtension | PageExtension(page: Paging) | OtherExtension

  /** The objects an extension lets a stage change. */
  function PageOf(ext: Extension): set<object>
  {
    if ext.PageExtension? then {ext.page} else {}
  }

  /** `ExecOption`: what one statement execution carries through the chain. */
  class ExecOption<V> {
    var sqlStmt: string
    var args: seq<V>
    var execer: Execer
    var extension: Extension
    var ctx: Option<Ctx<V>>

    constructor (sqlStmt: string, args: seq<V>, execer: Execer, extension: Extension, ctx: Option<Ctx<V>>)
      ensures this.sqlStmt == sqlStmt && this.args == args && this.execer == execer
      ensures this.extension == extension && this.ctx == ctx
    {
      this.sqlStmt := sqlStmt;
      this.args := args;
      this.execer := execer;
      this.extension := extension;
      this.ctx := ctx;
    }
  }

  /** `getCacheInterceptor`: the cache stage stored in the context, none for a nil context. */
  function GetCacheInterceptor<V>(ctx: Option<Ctx<V>>): (r: Option<Stage<V>>)
    ensures r.Some? <==> ctx.Some? && ctx.value.cache.Some?
    ensures r.Some? ==> r.value == ctx.value.cache.value
  {
    if ctx.None? then None else ctx.value.cache
  }

  /** The per-call interceptors: one handler, a list, or none when the value is absent or of another type. */
  function ExtraInterceptors<V>(ctx: Ctx<V>): seq<Stage<V>>
  {
    match ctx.interceptors
    case OneHandler(h) => [h]
    case HandlerList(hs) => hs
    case _ => []
  }

  /** The per-call lookup of `buildInterceptorChain`: by the dynamic type of the stored value. */
  method ExtraFrom<V>(ctx: Ctx<V>) returns (extra: seq<Stage<V>>)
    ensures extra == ExtraInterceptors(ctx)
  {
    extra := [];
    match ctx.interceptors {
      case OneHandler(h) => extra := extra + [h];
      case HandlerList(hs) => extra := hs;
      case _ =>
    }
  }

  /** A slot that may be empty, as a list of zero or one stage. */
  function Slot<V>(s: Option<Stage<V>>): (r: seq<Stage<V>>)
    ensures |r| == (if s.Some? then 1 else 0)
    ensures s.Some? ==> r[0] == s.value
  {
    if s.Some? then [s.value] else []
  }

  /** The stage order: cache, pagination, debug, the global list, the per-call list, slow query. */
  function StageOrder<V>(cache: Option<Stage<V>>, pagination: Option<Stage<V>>, debug: Option<Stage<V>>,
                         global: seq<Stage<V>>, extra: seq<Stage<V>>, slowQuery: Option<Stage<V>>): seq<Stage<V>>
  {
    Slot(cache) + Slot(pagination) + Slot(debug) + global + extra + Slot(slowQuery)
  }

  /** The chain is empty exactly when no slot is filled and both lists are empty. */
  lemma StageOrderEmpty<V>(cache: Option<Stage<V>>, pagination: Option<Stage<V>>, debug: Option<Stage<V>>,
                           global: seq<Stage<V>>, extra: seq<Stage<V>>, slowQuery: Option<Stage<V>>)
    ensures StageOrder(cache, pagination, debug, global, extra, slowQuery) == [] <==>
      cache.None? && pagination.None? && debug.None? && global == [] && extra == [] && slowQuery.None?
  {
    var r := StageOrder(cache, pagination, debug, global, extra, slowQuery);
    assert |r| == |Slot(cache)| + |Slot(pagination)| + |Slot(debug)| + |global| + |extra| + |Slot(slowQuery)|;
  }

  /**
   * Where each stage sits: the cache stage first, then pagination, then
   * debug, then the global list in registration order, then the per-call
   * list, and the slow-query stage last.
   */
  lemma StageOrderPositions<V>(cache: Option<Stage<V>>, pagination: Option<Stage<V>>, debug: Option<Stage<V>>,
                               global: seq<Stage<V>>, extra: seq<Stage<V>>, slowQuery: Option<Stage<V>>)
    ensures var r := StageOrder(cache, pagination, debug, global, extra, slowQuery);
      var p := |Slot(cache)|;
      var d := p + |Slot(pagination)|;
      var g := d + |Slot(debug)|;
      && |r| == g + |global| + |extra| + |Slot(slowQuery)|
      && (cache.Some? ==> r[0] == cache.value)
      && (pagination.Some? ==> r[p] == pagination.value)
      && (debug.Some? ==> r[d] == debug.value)
      && r[g..g + |global|] == global
      && r[g + |global|..g + |global| + |extra|] == extra
      && (slowQuery.Some? ==> r[|r| - 1] == slowQuery.value)
  {
    SixParts(Slot(cache), Slot(pagination), Slot(debug), global, extra, Slot(slowQuery));
  }

  /** Where each of six concatenated lists sits in the whole. */
  lemma SixParts<T>(a: seq<T>, b: seq<T>, c: seq<T>, g: seq<T>, e: seq<T>, z: seq<T>)
    ensures var r := a + b + c + g + e + z;
      var n := |a| + |b| + |c|;
      && |r| == n + |g| + |e| + |z|
      && (|a| == 1 ==> r[0] == a[0])
      && (|b| == 1 ==> r[|a|] == b[0])
      && (|c| == 1 ==> r[|a| + |b|] == c[0])
      && r[n..n + |g|] == g
      && r[n + |g|..n + |g| + |e|] == e
      && (|z| == 1 ==> r[|r| - 1] == z[0])
  {
    var head := a + b + c;
    var rest := g + e + z;
    var r := a + b + c + g + e + z;
    assert r == head + rest;
    assert r[|head|..] == rest;
    assert rest[..|g|] == g;
    assert rest[|g|..][..|e|] == e;
  }

  /** The global interceptor slots and list, which the setup functions assign. */
  class Registry<V> {
    var execute: seq<Stage<V>>
    var debug: Option<Stage<V>>
    var pagination: Option<Stage<V>>
    var slowQuery: Option<Stage<V>>

    /** Nothing registered. */
    constructor ()
      ensures execute == [] && debug.None? && pagination.None? && slowQuery.None?
    {
      execute := [];
      debug := None;
      pagination := None;
      slowQuery := None;
    }

    /** `AddInterceptors`: appended after those already registered. */
    method AddInterceptors(interceptors: seq<Stage<V>>)
      modifies this
      ensures execute == old(execute) + interceptors
      ensures debug == old(debug) && pagination == old(pagination) && slowQuery == old(slowQuery)
    {
      execute := execute + interceptors;
    }

    /** `SetPaginationInterceptor`; `SetupPaginationInterceptor` installs the built-in stage, which forwards. */
    method SetPaginationInterceptor(s: Option<Stage<V>>)
      modifies this
      ensures pagination == s
      ensures execute == old(execute) && debug == old(debug) && slowQuery == old(slowQuery)
    {
      pagination := s;
    }

    /** `SetSqlDebugInterceptor`; `SetupSqlDebugInterceptor` installs the built-in stage, which forwards. */
    method SetSqlDebugInterceptor(s: Option<Stage<V>>)
      modifies this
      ensures debug == s
      ensures execute == old(execute) && pagination == old(pagination) && slowQuery == old(slowQuery)
    {
      debug := s;
    }

    /** `SetSlowQueryLoggingInterceptor`; `SetupSlowQueryLoggingInterceptor` installs the built-in stage, which forwards. */
    method SetSlowQueryLoggingInterceptor(s: Option<Stage<V>>)
      modifies this
      ensures slowQuery == s
      ensures execute == old(execute) && pagination == old(pagination) && debug == old(debug)
    {
      slowQuery := s;
    }

    /** The chain `buildInterceptorChain` assembles for a context. */
    function ChainFor(ctx: Ctx<V>): seq<Stage<V>>
      reads this
    {
      StageOrder(GetCacheInterceptor(Some(ctx)), pagination, debug, execute, ExtraInterceptors(ctx), slowQuery)
    }

    /** `buildInterceptorChain`: the stages in their fixed order, absent slots skipped. */
    method BuildInterceptorChain(ctx: Ctx<V>) returns (r: seq<Stage<V>>)
      ensures r == ChainFor(ctx)
    {
      var extra := ExtraFrom(ctx);
      r := [];
      var cache := GetCacheInterceptor(Some(ctx));
      if cache.Some? {
        r := r + [cache.value];
      }
      assert r == Slot(cache);
      if pagination.Some? {
        r := r + [pagination.value];
      }
      assert r == Slot(cache) + Slot(pagination);
      if debug.Some? {
        r := r + [debug.value];
      }
      assert r == Slot(cache) + Slot(pagination) + Slot(debug);
      r := r + execute;
      r := r + extra;
      if slowQuery.Some? {
        r := r + [slowQuery.value];
      }
    }

    /**
     * `Invoke`: a nil context becomes the background context; with no stage
     * the handler runs directly, once; otherwise the chain runs with the
     * handler as its terminal, and an error comes back with the zero value.
     */
    method Invoke(option: ExecOption<V>, exec: Outcome<V>, zero: V) returns (r: Outcome<V>, trace: seq<Event>)
      modifies option
      ensures option.ctx == (if old(option.ctx).None? then Some(Background()) else old(option.ctx))
      ensures option.sqlStmt == old(option.sqlStmt) && option.args == old(option.args)
      ensures option.execer == old(option.execer) && option.extension == old(option.extension)
      ensures ChainFor(option.ctx.value) == [] ==> r == exec && trace == [TerminalRan]
      ensures ChainFor(option.ctx.value) != [] ==>
        var run := RunChain(ChainFor(option.ctx.value), exec);
        trace == run.trace && r == (if run.out.err.Some? then Outcome(zero, run.out.err) else run.out)
    {
      if option.ctx.None? {
        option.ctx := Some(Background());
      }
      var chain := BuildInterceptorChain(option.ctx.value);
      if chain == [] {
        r := exec;
        trace := [TerminalRan];
        return;
      }
      var run := RunChain(chain, exec);
      trace := run.trace;
      if run.out.err.Some? {
        r := Outcome(zero, run.out.err);
      } else {
        r := run.out;
      }
    }
  }

  /** The chain for a registry state and a context carries each configured stage exactly where the order puts it. */
  lemma ChainForEmpty<V>(execute: seq<Stage<V>>, pagination: Option<Stage<V>>, debug: Option<Stage<V>>,
                         slowQuery: Option<Stage<V>>, ctx: Ctx<V>)
    ensures StageOrder(GetCacheInterceptor(Some(ctx)), pagination, debug, execute, ExtraInterceptors(ctx), slowQuery) == [] <==>
      ctx.cache.None? && pagination.None? && debug.None? && execute == [] && ExtraInterceptors(ctx) == [] && slowQuery.None?
  {
    StageOrderEmpty(GetCacheInterceptor(Some(ctx)), pagination, debug, execute, ExtraInterceptors(ctx), slowQuery);
  }

  /** A handler as `getChainHandler` returns it: the terminal handler, or the one that runs stage `curr + 1`. */
  datatype Handler = Final | Next(curr: nat)

  /** `getChainHandler`: the terminal handler for the last stage, otherwise the continuation into the next stage. */
  function GetChainHandler(n: nat, curr: nat): (h: Handler)
    requires curr < n
    ensures h == Final <==> curr == n - 1
    ensures h.Next? ==> h.curr == curr && curr + 1 < n
  {
    if curr == n - 1 then Final else Next(curr)
  }

  /** What a run records: a stage entered, or the terminal handler run. */
  datatype Event = Entered(k: nat) | TerminalRan

  datatype Run<V> = Run(out: Outcome<V>, trace: seq<Event>)

  /** Stage `k` run with the handler `getChainHandler` gives it. */
  function RunStage<V>(stages: seq<Stage<V>>, k: nat, terminal: Outcome<V>): Run<V>
    requires k < |stages|
    decreases 2 * (|stages| - k)
  {
    match stages[k]
    case Answer(out) => Run(out, [Entered(k)])
    case Forward =>
      var next := CallHandler(stages, GetChainHandler(|stages|, k), terminal);
      Run(next.out, [Entered(k)] + next.trace)
  }

  /** Calling a handler: the terminal outcome, or stage `curr + 1` with its own handler. */
  function CallHandler<V>(stages: seq<Stage<V>>, h: Handler, terminal: Outcome<V>): Run<V>
    requires h.Next? ==> h.curr + 1 < |stages|
    decreases if h.Next? then 2 * (|stages| - h.curr - 1) + 1 else 0
  {
    match h
    case Final => Run(terminal, [TerminalRan])
    case Next(curr) => RunStage(stages, curr + 1, terminal)
  }

  /** `chainInterceptors`: the first stage with the handler for index 0. */
  function RunChain<V>(stages: seq<Stage<V>>, terminal: Outcome<V>): Run<V>
    requires |stages| > 0
  {
    RunStage(stages, 0, terminal)
  }

  /** The stages `k` to `n - 1` entered in order. */
  function Entries(k: nat, n: nat): (r: seq<Event>)
    requires k <= n
    ensures |r| == n - k && forall i :: 0 <= i < n - k ==> r[i] == Entered(k + i)
  {
    seq(n - k, i requires 0 <= i < n - k => Entered(k + i))
  }

  /**
   * When every stage from `k` on forwards, they run in order, each once, and
   * then the terminal handler runs exactly once and its outcome comes back.
   */
  lemma {:induction false} AllForward<V>(stages: seq<Stage<V>>, k: nat, terminal: Outcome<V>)
    requires k < |stages|
    requires forall i :: k <= i < |stages| ==> stages[i].Forward?
    ensures RunStage(stages, k, terminal) == Run(terminal, Entries(k, |stages|) + [TerminalRan])
    decreases |stages| - k
  {
    if k < |stages| - 1 {
      AllForward(stages, k + 1, terminal);
      assert [Entered(k)] + Entries(k + 1, |stages|) == Entries(k, |stages|);
    } else {
      assert Entries(k, |stages|) == [Entered(k)];
    }
  }

  /** A chain of forwarding stages runs the terminal handler exactly once, after every stage. */
  lemma ChainRunsTerminalOnce<V>(stages: seq<Stage<V>>, terminal: Outcome<V>)
    requires |stages| > 0
    requires forall i :: 0 <= i < |stages| ==> stages[i].Forward?
    ensures RunChain(stages, terminal).out == terminal
    ensures RunChain(stages, terminal).trace == Entries(0, |stages|) + [TerminalRan]
    ensures multiset(RunChain(stages, terminal).trace)[TerminalRan] == 1
  {
    AllForward(stages, 0, terminal);
    assert TerminalRan !in Entries(0, |stages|);
    assert multiset(Entries(0, |stages|))[TerminalRan] == 0;
  }

  /**
   * When stages `k` to `j - 1` forward and stage `j` answers, exactly the
   * stages `k` to `j` run, the terminal handler never does, and the answer
   * comes back.
   */
  lemma {:induction false} FirstAnswer<V>(stages: seq<Stage<V>>, k: nat, j: nat, terminal: Outcome<V>)
    requires k <= j < |stages| && stages[j].Answer?
    requires forall i :: k <= i < j ==> stages[i].Forward?
    ensures RunStage(stages, k, terminal) == Run(stages[j].out, Entries(k, j + 1))
    ensures TerminalRan !in RunStage(stages, k, terminal).trace
    decreases j - k
  {
    if k < j {
      FirstAnswer(stages, k + 1, j, terminal);
      assert [Entered(k)] + Entries(k + 1, j + 1) == Entries(k, j + 1);
    } else {
      assert Entries(k, k + 1) == [Entered(k)];
    }
  }

  /** Go's `/` on `int`: the quotient truncated toward zero. */
  function GoQuo(a: int, b: int): int
    requires b != 0
  {
    if (a >= 0) == (b > 0) then Abs(a) / Abs(b) else -(Abs(a) / Abs(b))
  }

  /** Go's `%` on `int`: the remainder takes the sign of the dividend. */
  function GoRem(a: int, b: int): int
    requires b != 0
  {
    a - b * GoQuo(a, b)
  }

  function Abs(a: int): nat
  {
    if a < 0 then -a else a
  }

  /** The page count the pagination stage stores: the quotient, plus one when there is a remainder. */
  function TotalPages(count: int, size: int): int
    requires size != 0
  {
    GoQuo(count, size) + (if GoRem(count, size) != 0 then 1 else 0)
  }

  /** For a non-negative count and a positive page size, the page count is the count divided by the size, rounded up. */
  lemma TotalPagesCeiling(count: int, size: int)
    requires count >= 0 && size > 0
    ensures TotalPages(count, size) >= 0
    ensures (TotalPages(count, size) - 1) * size < count <= TotalPages(count, size) * size
  {
    var q := count / size;
    var m := count % size;
    assert count == q * size + m && 0 <= m < size;
    assert GoQuo(count, size) == q;
    assert GoRem(count, size) == m;
    if m != 0 {
      assert (q + 1) * size == q * size + size;
    } else {
      assert (q - 1) * size == q * size - size;
    }
  }

  /** The text the pagination stage appends, as written: the order clauses, then "LIMIT size, (num-1)*size". */
  function PageTail(orders: seq<OrderItem>, size: int, num: int): string
  {
    (if |orders| != 0 then OrdersSql(orders) else "") + LimitClause(size, (num - 1) * size)
  }

  /** "LIMIT a, b", with no space in front. */
  function LimitClause(a: int, b: int): (r: string)
    ensures |r| >= 6 && r[..6] == "LIMIT "
  {
    "LIMIT " + (Itoa(a) + ", " + Itoa(b))
  }

  /** Whether the pagination stage rewrites the statement: a page extension, a statement starting "SELECT", a non-zero size and page number. */
  predicate PaginationApplies(sql: string, ext: Extension, pageNum: int)
    reads PageOf(ext)
  {
    ext.PageExtension? && HasPrefix(sql, "SELECT") && ext.page.pageSize != 0 && pageNum != 0
  }

  /**
   * The pagination stage. The page number and the count the count query
   * returns are inputs (the page request does not provide the former, and the
   * latter comes from the database); `next` is the rest of the chain as a
   * function of the statement it sees.
   */
  method PaginationInterceptor<V>(option: ExecOption<V>, pageNum: int, count: int, next: string -> Outcome<V>)
    returns (r: Outcome<V>)
    modifies option, PageOf(option.extension)
    ensures option.extension == old(option.extension) && option.args == old(option.args)
    ensures option.execer == old(option.execer) && option.ctx == old(option.ctx)
    ensures r == next(option.sqlStmt)
    ensures !old(PaginationApplies(option.sqlStmt, option.extension, pageNum)) ==>
      option.sqlStmt == old(option.sqlStmt) && unchanged(PageOf(option.extension))
    ensures old(PaginationApplies(option.sqlStmt, option.extension, pageNum)) ==>
      var p := option.extension.page;
      && option.sqlStmt == old(option.sqlStmt) + PageTail(old(p.orders), old(p.pageSize), pageNum)
      && p.pageSize == old(p.pageSize) && p.currentPage == old(p.currentPage) && p.orders == old(p.orders)
      && p.totalCount == count && p.totalPages == TotalPages(count, old(p.pageSize))
  {
    if option.extension.NoExtension? || !HasPrefix(option.sqlStmt, "SELECT") {
      r := next(option.sqlStmt);
      return;
    }
    if !option.extension.PageExtension? || option.extension.page.PageSize() == 0 || pageNum == 0 {
      r := next(option.sqlStmt);
      return;
    }
    var page := option.extension.page;
    var tail := WritePageTail(page, pageNum);
    option.sqlStmt := option.sqlStmt + tail;
    RecordTotals(page, count);
    r := next(option.sqlStmt);
  }

  /** The LIMIT text, preceded by the page's order clauses when it has any. */
  method WritePageTail(page: Paging, pageNum: int) returns (tail: string)
    ensures tail == PageTail(page.orders, page.pageSize, pageNum)
  {
    var size := page.PageSize();
    tail := LimitClause(size, (pageNum - 1) * size);
    if |page.Orders()| != 0 {
      var orders := SqlStmt(page.Orders());
      tail := orders + tail;
    }
  }

  /** Stores the count and the page count derived from it; the request itself is kept. */
  method RecordTotals(page: Paging, count: int)
    requires page.pageSize != 0
    modifies page
    ensures page.pageSize == old(page.pageSize) && page.currentPage == old(page.currentPage) && page.orders == old(page.orders)
    ensures page.totalCount == count && page.totalPages == TotalPages(count, page.pageSize)
  {
    page.SetTotalCount(count);
    var size := page.PageSize();
    var totalPage := GoQuo(count, size);
    if GoRem(count, size) != 0 {
      totalPage := totalPage + 1;
    }
    page.SetTotalPages(totalPage);
  }

  /** The pieces of the tails for page 1 of 10, ordered by `id` descending. */
  lemma TailPieces()
    ensures OrdersSql([OrderItem("id", true)]) == " ORDER BY id DESC" && OrdersSql([]) == ""
    ensures Itoa(10) == "10" && Itoa(0) == "0" && (1 - 1) * 10 == 0
  {
    assert [OrderItem("id", true)][..0] == [];
    assert NatToString(10) == NatToString(1) + "0";
  }

  /** As written, an ordered page request runs the last order clause into LIMIT ... */
  lemma PageTailRunsIn()
    ensures PageTail([OrderItem("id", true)], 10, 1) == " ORDER BY id DESCLIMIT 10, 0"
  {
    TailPieces();
  }

  /** ... and asks for offset `size` and `(num-1)*size` rows: page 1 of 10 reads no row. */
  lemma PageTailSwapped()
    ensures PageTail([], 10, 1) == "LIMIT 10, 0"
  {
    TailPieces();
  }

  /** The evidently intended tail: a space before LIMIT, then the offset of the page and the page size. */
  function IntendedPageTail(orders: seq<OrderItem>, size: int, num: int): string
  {
    OrdersSql(orders) + " " + LimitClause((num - 1) * size, size)
  }

  /** The intended tail for page 1 of 10 ordered by id: a separated LIMIT at offset 0. */
  lemma IntendedPageTailExample()
    ensures IntendedPageTail([OrderItem("id", true)], 10, 1) == " ORDER BY id DESC LIMIT 0, 10"
  {
    TailPieces();
  }

  /** As written, whenever there are orders, "LIMIT" directly follows the "C" of the last "DESC" or "ASC". */
  lemma PageTailNoSpace(orders: seq<OrderItem>, size: int, num: int)
    requires orders != []
    ensures var k := |OrdersSql(orders)|;
      k > 0 && PageTail(orders, size, num)[k - 1] == 'C' && PageTail(orders, size, num)[k..k + 6] == "LIMIT "
  {
    OrdersEndInC(orders);
    NoSpaceBeforeLimit(OrdersSql(orders), LimitClause(size, (num - 1) * size));
  }

  /** The order clauses end in the "C" of "DESC" or "ASC". */
  lemma OrdersEndInC(orders: seq<OrderItem>)
    requires orders != []
    ensures var o := OrdersSql(orders); |o| > 0 && o[|o| - 1] == 'C'
  {
    var last := orders[|orders| - 1];
    var c := OrderClause(last);
    assert OrdersSql(orders) == OrdersSql(orders[..|orders| - 1]) + c;
    assert c[|c| - 1] == 'C';
  }

  /** A limit clause right after a text ending in "C": the "C" is followed at once by "LIMIT ". */
  lemma NoSpaceBeforeLimit(o: string, l: string)
    requires |o| > 0 && o[|o| - 1] == 'C' && |l| >= 6 && l[..6] == "LIMIT "
    ensures (o + l)[|o| - 1] == 'C' && (o + l)[|o|..|o| + 6] == "LIMIT "
  {
    AfterPrefix(o, l, 6);
  }

  /** In the intended tail " LIMIT " always stands on its own right after the order clauses. */
  lemma IntendedLimitSeparated(orders: seq<OrderItem>, size: int, num: int)
    ensures var k := |OrdersSql(orders)|;
      IntendedPageTail(orders, size, num)[k..k + 7] == " LIMIT "
  {
    SpaceBeforeLimit(OrdersSql(orders), LimitClause((num - 1) * size, size));
  }

  /** A limit clause after a prefix and one space: the space and "LIMIT " follow the prefix. */
  lemma SpaceBeforeLimit(o: string, l: string)
    requires |l| >= 6 && l[..6] == "LIMIT "
    ensures (o + " " + l)[|o|..|o| + 7] == " LIMIT "
  {
    assert (" " + l)[..7] == " LIMIT " by {
      assert (" " + l)[..7] == " " + l[..6];
    }
    assert o + " " + l == o + (" " + l);
    AfterPrefix(o, " " + l, 7);
  }

  /** The `n` characters after a prefix are the first `n` of what follows it. */
  lemma AfterPrefix(a: string, b: string, n: nat)
    requires n <= |b|
    ensures (a + b)[|a|..|a| + n] == b[..n]
  {
  }

  /** The statement formatting of the debug stage: one log line for the statement, one for its parameters. */
  function DebugLines(sql: string, params: string): seq<string>
  {
    ["SQL        ==> " + sql, "PARAMETERS ==> " + params]
  }

  /** Every argument formatted. */
  function Formatted<V>(args: seq<V>, fmtArg: V -> string): (r: seq<string>)
    ensures |r| == |args| && forall i :: 0 <= i < |args| ==> r[i] == fmtArg(args[i])
  {
    seq(|args|, i requires 0 <= i < |args| => fmtArg(args[i]))
  }

  /**
   * The SQL-debug stage: logs the statement and the formatted arguments
   * separated by ", ", then forwards. How one argument is formatted (by its
   * dynamic type) is the input `fmtArg`.
   */
  method DebugInterceptor<V>(option: ExecOption<V>, fmtArg: V -> string, next: string -> Outcome<V>)
    returns (r: Outcome<V>, logs: seq<string>)
    ensures logs == DebugLines(option.sqlStmt, Join(Formatted(option.args, fmtArg), ", "))
    ensures r == next(option.sqlStmt)
  {
    logs := ["SQL        ==> " + option.sqlStmt];
    var b := "";
    var parts := Formatted(option.args, fmtArg);
    for i := 0 to |option.args|
      invariant b == JoinedUpTo(parts, ", ", i)
    {
      JoinedStep(parts, ", ", i);
      b := b + fmtArg(option.args[i]);
      if i != |option.args| - 1 {
        b := b + ", ";
      }
    }
    JoinedAll(parts, ", ");
    logs := logs + ["PARAMETERS ==> " + b];
    r := next(option.sqlStmt);
  }

  /** One slow-query report: the elapsed milliseconds and the statement. */
  datatype SlowLog = SlowLog(used: int, sql: string)

  /**
   * The slow-query stage, given the milliseconds the rest of the chain took:
   * an error comes back at once; otherwise the statement is reported when the
   * time exceeds the limit, and the outcome comes back.
   */
  function SlowQuery<V>(limit: int, used: int, sql: string, nextOut: Outcome<V>): (r: (Outcome<V>, seq<SlowLog>))
    ensures r.0 == nextOut
    ensures |r.1| <= 1
    ensures r.1 != [] <==> nextOut.err.None? && used > limit
    ensures r.1 != [] ==> r.1[0] == SlowLog(used, sql)
  {
    if nextOut.err.Some? then (nextOut, [])
    else if used > limit then (Outcome(nextOut.value, None), [SlowLog(used, sql)])
    else (Outcome(nextOut.value, None), [])
  }

  /** A statement is reported at most once, and never for a time within the limit. */
  lemma SlowQueryWithinLimit<V>(limit: int, used: int, sql: string, nextOut: Outcome<V>)
    requires used <= limit
    ensures SlowQuery(limit, used, sql, nextOut).1 == []
    ensures SlowQuery(limit, used, sql, nextOut).0 == nextOut
  {
  }
}
