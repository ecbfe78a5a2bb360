/** The closure compiler (`AstAnalyzerAdapter`) and the factory compiler that
    wraps it. The abstract syntax tree analyser it delegates to belongs to an
    external library, so its answer for a closure is given as a function. */
module FactoryCompilation {
  import opened Wrappers
  import opened Errors

  /** An opaque PHP closure. */
  datatype Closure = Closure(handle: nat)

  /** An opaque PHP value captured by a closure. */
  datatype Value = Value(handle: nat)

  /** What the analyser reports for a closure: its source text and the
      variables it captures with `use (...)`, by name. */
  datatype Analysis = Analysis(code: string, context: map<string, Value>)

  /** The adapter holds the analyser it was constructed with and nothing
      else; being an immutable value, no call can replace it. The analyser
      either reports on a closure or throws. */
  datatype AstAnalyzerAdapter = AstAnalyzerAdapter(analyze: Closure -> Result<Analysis, Throwable>)

  /** The message of the exception thrown for a closure with context. */
  const ContextMessage: string := "Closures with context are not compilable"

  /** The exception thrown for a closure with context: a fresh
      `\LogicException` with the default code and no previous exception. */
  const ClosureWithContext: Throwable := LogicException(ContextMessage, 0, None)

  /** Reference definition of compilability: a closure compiles to `code`
      exactly when it captures nothing and `code` is its analysed source. */
  predicate CompilesTo(analysis: Analysis, code: string) {
    analysis.context == map[] && analysis.code == code
  }

  /** `AstAnalyzerAdapter::__invoke`: one analysis, whose exception passes
      through unchanged; then the source text when the captured context is
      empty and a `LogicException` otherwise. */
  function Invoke(adapter: AstAnalyzerAdapter, closure: Closure): (r: Result<string, Throwable>)
    ensures r.Success? <==> adapter.analyze(closure).Success? && adapter.analyze(closure).value.context == map[]
    ensures r.Success? ==> CompilesTo(adapter.analyze(closure).value, r.value)
    ensures adapter.analyze(closure).Failure? ==> r == Failure(adapter.analyze(closure).error)
    ensures adapter.analyze(closure).Success? && r.Failure? ==> r.error == ClosureWithContext
  {
    match adapter.analyze(closure)
    case Failure(e) => Failure(e)
    case Success(analysis) =>
      if |analysis.context| == 0 then Success(analysis.code) else Failure(ClosureWithContext)
  }

  /** The adapter returns `code` for a closure exactly when the analysis
      succeeds and the reference definition says the closure compiles to
      `code`. */
  lemma InvokeMatchesCompilesTo(adapter: AstAnalyzerAdapter, closure: Closure, code: string)
    ensures Invoke(adapter, closure) == Success(code)
            <==> adapter.analyze(closure).Success? && CompilesTo(adapter.analyze(closure).value, code)
  {
  }

  /** A single captured variable, whatever its name and value, makes the
      closure uncompilable: no string is ever returned for it. */
  lemma CapturedVariableRejected(adapter: AstAnalyzerAdapter, closure: Closure, name: string)
    requires adapter.analyze(closure).Success?
    requires name in adapter.analyze(closure).value.context
    ensures Invoke(adapter, closure) == Failure(ClosureWithContext)
    ensures forall code :: Invoke(adapter, closure) != Success(code)
  {
  }

  /** The outcome depends on the analysis only through its code and whether
      the context is empty: the captured names and values are irrelevant. */
  lemma OnlyContextEmptinessMatters(a1: AstAnalyzerAdapter, c1: Closure, a2: AstAnalyzerAdapter, c2: Closure)
    requires a1.analyze(c1).Success? && a2.analyze(c2).Success?
    requires a1.analyze(c1).value.code == a2.analyze(c2).value.code
    requires (a1.analyze(c1).value.context == map[]) <==> (a2.analyze(c2).value.context == map[])
    ensures Invoke(a1, c1) == Invoke(a2, c2)
  {
  }

  /** An opaque value handed out by the delegate factory map as a factory:
      a closure, a callable array, an invokable object, ... `callable` tells
      whether PHP accepts it where a `callable` parameter is declared. */
  datatype Factory = Factory(handle: nat, callable: bool)

  /** The factory compiler, built around a closure compiler. How it tells
      the kinds of factory apart is not part of this model. */
  datatype Compiler = Compiler(closures: AstAnalyzerAdapter)

}
