/** Rebinding the Go `context.Context` of a go-kit context logger. */
module LogContext {
  import opened KitValues

  /** A `context.Context`, known by identity. */
  datatype Ctx = Ctx(id: nat)

  /** A go-kit `Logger` value, by dynamic type: the `*context` decorator
      with its fields (the bound key/values, the suffix key/values `sKeyvals`,
      whether either holds a Valuer, and the Go context, nil as `None`),
      or any other logger, known by identity. */
  datatype Logger =
    | Context(logger: Logger, keyvals: seq<Value>, sKeyvals: seq<Value>,
              hasValuer: bool, sHasValuer: bool, ctx: Option<Ctx>)
    | Other(id: nat)

  /** `newContext` on a logger that is not a `*context` (the only use
      `WithContext` makes of it): a fresh decorator around the logger, with
      nothing bound and no Go context. */
  function NewContext(l: Logger): (c: Logger)
    requires !l.Context?
    ensures c.Context? && c.logger == l && c.ctx == None
  {
    Context(l, [], [], false, false, None)
  }

  /** `WithContext`: a decorator whose Go context is `ctx`. From a
      `*context` every other field is copied unchanged; any other logger is
      wrapped first. */
  function WithContext(ctx: Ctx, l: Logger): (r: Logger)
    ensures r.Context? && r.ctx == Some(ctx)
    ensures l.Context? ==>
      r.logger == l.logger && r.keyvals == l.keyvals && r.sKeyvals == l.sKeyvals
      && r.hasValuer == l.hasValuer && r.sHasValuer == l.sHasValuer
    ensures !l.Context? ==> NewContext(l).Context? && r == NewContext(l).(ctx := Some(ctx))
  {
    match l
    case Context(inner, keyvals, sKeyvals, hasValuer, sHasValuer, _) =>
      Context(inner, keyvals, sKeyvals, hasValuer, sHasValuer, Some(ctx))
    case Other(_) =>
      var ret := NewContext(l);
      ret.(ctx := Some(ctx))
  }

  /** On a context decorator, the Go context is the only field that
      differs between the input and the result. */
  lemma WithContextOnlyChangesCtx(ctx: Ctx, l: Logger)
    requires l.Context?
    ensures WithContext(ctx, l).Context? && WithContext(ctx, l).(ctx := l.ctx) == l
  {
  }

  /** The wrapped logger of the result: the input's own inner logger, or
      the input itself when it was not a context decorator. */
  lemma WithContextInner(ctx: Ctx, l: Logger)
    ensures WithContext(ctx, l).logger == if l.Context? then l.logger else l
  {
  }

  /** Rebinding twice keeps only the last context and keeps the bound
      key/values of the first binding. */
  lemma RebindTwice(c1: Ctx, c2: Ctx, l: Logger)
    ensures WithContext(c2, WithContext(c1, l)) == WithContext(c2, l)
    ensures WithContext(c2, WithContext(c1, l)).keyvals == WithContext(c1, l).keyvals
  {
  }
}
