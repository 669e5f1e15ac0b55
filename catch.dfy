/**
 * The synchronous path of `func_catch` (util/src/func.ts): a wrapper that
 * runs a function and turns its return or its throw into the pair
 * `[error, value]`, with one of the two slots `undefined`.
 *
 * Errors are JavaScript values of one type `E` (the source's `unknown`);
 * the optional error parser maps such a value to another.
 */
module Catch {
  import opened Outcomes

  /** The pair `[error, value]` that the wrapper returns. */
  datatype Caught<R, E> = Caught(error: Option<E>, value: Option<R>)

  /** A `func_catch` wrapper: the wrapped function and the optional `errorParser`. */
  datatype Wrapper<!Ctx, !Args, R, !E> = Wrapper(fn: (Ctx, Args) -> Outcome<R, E>, errorParser: Option<E -> E>)

  /** `errorParser ? errorParser(err) : err`. */
  function ParseError<E>(errorParser: Option<E -> E>, err: E): E
  {
    match errorParser
    case Some(parse) => parse(err)
    case None => err
  }

  /** An outcome with its thrown error passed through the parser and its value untouched. */
  function ParseThrow<R, E>(errorParser: Option<E -> E>, o: Outcome<R, E>): Outcome<R, E>
  {
    match o
    case Ok(r) => Ok(r)
    case Throw(err) => Throw(ParseError(errorParser, err))
  }

  /** A pair with exactly one slot defined. */
  predicate OneSlot<R, E>(c: Caught<R, E>)
  {
    c.error.Some? != c.value.Some?
  }

  /** Reading a pair back: return its value, or rethrow its error. */
  function Rethrow<R, E>(c: Caught<R, E>): Outcome<R, E>
    requires OneSlot(c)
  {
    if c.value.Some? then Ok(c.value.value) else Throw(c.error.value)
  }

  /**
   * Calling the wrapper with a `this` and arguments: a normal return `res`
   * gives `[undefined, res]`, a throw `err` gives `[parsed err, undefined]`.
   * The pair always has one slot defined, and reading it back gives the
   * function's own outcome with the error parsed.
   */
  function Invoke<Ctx, Args, R, E>(w: Wrapper<Ctx, Args, R, E>, ctx: Ctx, args: Args): (c: Caught<R, E>)
    ensures OneSlot(c)
    ensures c.error.Some? <==> w.fn(ctx, args).Throw?
    ensures Rethrow(c) == ParseThrow(w.errorParser, w.fn(ctx, args))
  {
    match w.fn(ctx, args)
    case Ok(res) => Caught(None, Some(res))
    case Throw(err) => Caught(Some(ParseError(w.errorParser, err)), None)
  }

  /** Without an error parser, catching and then rethrowing gives back exactly what the function did. */
  lemma NoParserRoundTrip<Ctx, Args, R, E>(w: Wrapper<Ctx, Args, R, E>, ctx: Ctx, args: Args)
    requires w.errorParser.None?
    ensures Rethrow(Invoke(w, ctx, args)) == w.fn(ctx, args)
  {
  }

  /**
   * `catchType(errorParser)`: a new wrapper over the same function with the
   * new parser, which replaces the old one rather than composing with it.
   * Values are returned unchanged; errors go through the new parser only.
   */
  function CatchType<Ctx(!new), Args(!new), R, E>(w: Wrapper<Ctx, Args, R, E>, errorParser: Option<E -> E>): (w': Wrapper<Ctx, Args, R, E>)
    ensures forall ctx, args :: Invoke(w', ctx, args).value == Invoke(w, ctx, args).value
    ensures forall ctx, args :: Rethrow(Invoke(w', ctx, args)) == ParseThrow(errorParser, w.fn(ctx, args))
  {
    Wrapper(w.fn, errorParser)
  }
}
