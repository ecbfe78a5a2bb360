/** `CompiledFactoryMap`: a factory map that compiles the factories of a
    delegate map into one PHP file and afterwards loads them from that file. */
module Compilation {
  import opened Wrappers
  import opened Errors
  import opened FactoryCompilation
  import opened Storage

  /** One element of the array the delegate returns: an id and its factory. */
  datatype Binding = Binding(id: string, factory: Factory)

  /** No id occurs twice, as in every PHP array. */
  predicate DistinctIds(bindings: seq<Binding>) {
    forall i, j :: 0 <= i < j < |bindings| ==> bindings[i].id != bindings[j].id
  }

  /** A PHP array of factories, in iteration order. */
  type Bindings = s: seq<Binding> | DistinctIds(s) witness []

  /** The delegate factory map, represented by what its `factories()` gives:
      the array of factories, or the exception it throws. */
  datatype FactoryMap = FactoryMap(factories: Result<Bindings, Throwable>)

  /** The collaborators whose code is not part of this model:
      - `analyzer`: what `new AstAnalyzer` reports for each closure;
      - `compile`: `Compiler::__invoke`, which either returns the source of a
        factory or throws;
      - `arrayStr`: `Utils::ArrayStr`, the PHP literal of an array of
        compiled factories;
      - `notCallableMessage`: the wording of the `TypeError` PHP raises when
        a non-callable value is passed to `compiled()`. */
  datatype Env = Env(
    analyzer: Closure -> Result<Analysis, Throwable>,
    compile: (Compiler, Factory) -> Result<string, Throwable>,
    arrayStr: seq<Entry> -> string,
    notCallableMessage: Factory -> string)

  /** The object's fields. `compiler` is `None` until a factory reaches the
      body of `compiled()`. */
  datatype CompiledFactoryMap = CompiledFactoryMap(
    delegate: FactoryMap,
    cache: bool,
    path: string,
    compiler: Option<Compiler>)

  /** What one call to `factories()` produces: the returned array or the
      exception thrown, the object and the filesystem afterwards, and whether
      the delegate's `factories()` was called. */
  datatype Outcome = Outcome(
    result: Result<seq<Entry>, Throwable>,
    self: CompiledFactoryMap,
    fs: FileSystem,
    delegateQueried: bool)

  /** Why compiling the delegate's array stopped: the id whose factory threw
      and what it threw. */
  datatype CompileFailure = CompileFailure(id: string, cause: Throwable)

  /** The constructor: the compiler starts out `null`. */
  function New(delegate: FactoryMap, cache: bool, path: string): (m: CompiledFactoryMap)
    ensures m.compiler.None?
    ensures m.delegate == delegate && m.cache == cache && m.path == path
  {
    CompiledFactoryMap(delegate, cache, path, None)
  }

  /** The compiler `compiled()` creates on first use. */
  function NewCompiler(env: Env): Compiler {
    Compiler(AstAnalyzerAdapter(env.analyzer))
  }

  /** The compiler a compilation uses: the stored one, or a new one when
      none has been created yet. */
  function CompilerInUse(env: Env, compiler: Option<Compiler>): Compiler {
    if compiler.Some? then compiler.value else NewCompiler(env)
  }

  /** What compiling one factory with compiler `c` gives: the `TypeError` of
      the `callable` parameter check, or the compiler's answer. */
  function Attempt(env: Env, c: Compiler, factory: Factory): Result<string, Throwable> {
    if factory.callable then env.compile(c, factory) else Failure(TypeError(env.notCallableMessage(factory)))
  }

  /** `compiled()`: PHP checks that the argument is callable on entry; then
      the compiler is created if there is none yet, kept, and used. Returns
      the outcome and the stored compiler afterwards. */
  function Compiled(env: Env, compiler: Option<Compiler>, factory: Factory)
    : (r: (Result<string, Throwable>, Option<Compiler>))
    ensures r.0 == Attempt(env, CompilerInUse(env, compiler), factory)
    ensures factory.callable ==> r.1 == Some(CompilerInUse(env, compiler))
    ensures !factory.callable ==> r.1 == compiler
  {
    if !factory.callable then (Failure(TypeError(env.notCallableMessage(factory))), compiler)
    else
      var c := CompilerInUse(env, compiler);
      (env.compile(c, factory), Some(c))
  }

  /** Every factory of `bindings` compiles with compiler `c`. */
  predicate AllCompile(env: Env, c: Compiler, bindings: seq<Binding>) {
    forall i :: 0 <= i < |bindings| ==> Attempt(env, c, bindings[i].factory).Success?
  }

  /** `k` is the first index, in the delegate's order, whose factory fails. */
  predicate FirstFailureAt(env: Env, c: Compiler, bindings: seq<Binding>, k: int) {
    && 0 <= k < |bindings|
    && Attempt(env, c, bindings[k].factory).Failure?
    && forall j :: 0 <= j < k ==> Attempt(env, c, bindings[j].factory).Success?
  }

  /** Some factory among the first `n` is callable, so it reaches the body
      of `compiled()`. */
  predicate SomeCallable(bindings: seq<Binding>, n: int) {
    exists j :: 0 <= j < n && j < |bindings| && bindings[j].factory.callable
  }

  /** The entries obtained when every factory compiles: the delegate's ids,
      in order, each with its compiled source. */
  predicate CompiledAs(env: Env, c: Compiler, bindings: seq<Binding>, entries: seq<Entry>)
    requires AllCompile(env, c, bindings)
  {
    && |entries| == |bindings|
    && forall i :: 0 <= i < |bindings| ==>
         entries[i] == Entry(bindings[i].id, Attempt(env, c, bindings[i].factory).value)
  }

  /** The `foreach` loop of `factories()`: compile each factory in order and
      stop at the first one that throws. Returns the compiled entries or the
      failure, with the stored compiler afterwards. */
  function CompileEach(env: Env, compiler: Option<Compiler>, bindings: seq<Binding>)
    : (r: (Result<seq<Entry>, CompileFailure>, Option<Compiler>))
    ensures r.1 == compiler || r.1 == Some(CompilerInUse(env, compiler))
    ensures r.0.Success? <==> AllCompile(env, CompilerInUse(env, compiler), bindings)
    ensures r.0.Success? ==>
              && CompiledAs(env, CompilerInUse(env, compiler), bindings, r.0.value)
              && (r.1.Some? <==> compiler.Some? || SomeCallable(bindings, |bindings|))
    ensures r.0.Failure? ==>
              exists k :: FirstFailureAt(env, CompilerInUse(env, compiler), bindings, k)
                       && r.0.error == CompileFailure(bindings[k].id, Attempt(env, CompilerInUse(env, compiler), bindings[k].factory).error)
                       && (r.1.Some? <==> compiler.Some? || SomeCallable(bindings, k + 1))
    decreases |bindings|
  {
    if |bindings| == 0 then (Success([]), compiler)
    else
      var (head, c) := Compiled(env, compiler, bindings[0].factory);
      match head
      case Failure(e) =>
        assert FirstFailureAt(env, CompilerInUse(env, compiler), bindings, 0);
        assert bindings[0].factory.callable ==> SomeCallable(bindings, 1);
        (Failure(CompileFailure(bindings[0].id, e)), c)
      case Success(code) =>
        var cu := CompilerInUse(env, compiler);
        assert c == Some(cu) && CompilerInUse(env, c) == cu;
        var (rest, c') := CompileEach(env, c, bindings[1..]);
        match rest
        case Failure(f) =>
          ghost var k :| FirstFailureAt(env, cu, bindings[1..], k)
                         && f == CompileFailure(bindings[1..][k].id, Attempt(env, cu, bindings[1..][k].factory).error);
          assert FirstFailureAt(env, cu, bindings, k + 1);
          assert SomeCallable(bindings, k + 2);
          (Failure(f), c')
        case Success(entries) =>
          assert AllCompile(env, cu, bindings) by {
            forall i | 0 <= i < |bindings|
              ensures Attempt(env, cu, bindings[i].factory).Success?
            {
              if i > 0 { assert bindings[i] == bindings[1..][i - 1]; }
            }
          }
          assert SomeCallable(bindings, |bindings|);
          (Success([Entry(bindings[0].id, code)] + entries), c')
  }

  /** The message of the exception for an unwritable path. */
  function NotWritableMessage(path: string): string {
    "Container compilation file path is not writable (" + path + ")"
  }

  /** The message of the exception for a factory that does not compile. */
  function CompileFailedMessage(id: string): string {
    "Failed to compile the container factory associated with id '" + id + "'"
  }

  /** The existing compiled file is trusted: caching is on and it exists. */
  predicate TrustsExisting(m: CompiledFactoryMap, fs: FileSystem) {
    m.cache && fs.file.Some?
  }

  /** `factories()`. When the existing file is not trusted, the path must be
      writable, then the delegate is queried once, every factory is compiled,
      and only if all of them compile is the file written. The result is
      what loading the file gives. */
  function Factories(env: Env, m: CompiledFactoryMap, fs: FileSystem): (o: Outcome)
    // The object's configuration never changes; a created compiler is kept,
    // and a compiler can only be created while the delegate's array is compiled.
    ensures o.self.delegate == m.delegate && o.self.cache == m.cache && o.self.path == m.path
    ensures o.self.compiler == m.compiler || o.self.compiler == Some(CompilerInUse(env, m.compiler))
    ensures !o.delegateQueried || m.delegate.factories.Failure? ==> o.self == m
    // The delegate is queried exactly when regenerating onto a writable path.
    ensures o.delegateQueried <==> !TrustsExisting(m, fs) && PathWritable(fs)
    // A trusted file is loaded as it is.
    ensures TrustsExisting(m, fs) ==> o.result == fs.file.value.loaded && o.fs == fs
    // Regenerating onto an unwritable path throws before anything else.
    ensures !TrustsExisting(m, fs) && !PathWritable(fs) ==>
              o.result == Failure(RuntimeException(NotWritableMessage(m.path))) && o.fs == fs
    // Any exception leaves the file exactly as it was.
    ensures o.result.Failure? ==> o.fs == fs
    // An exception of the delegate passes through unchanged.
    ensures o.delegateQueried && m.delegate.factories.Failure? ==>
              o.result == Failure(m.delegate.factories.error)
    // All-or-nothing: the file is written exactly when every factory compiles.
    ensures o.delegateQueried && m.delegate.factories.Success? ==>
              (o.result.Success? <==> AllCompile(env, CompilerInUse(env, m.compiler), m.delegate.factories.value))
    ensures o.delegateQueried && m.delegate.factories.Success? && o.result.Success? ==>
              && CompiledAs(env, CompilerInUse(env, m.compiler), m.delegate.factories.value, o.result.value)
              && o.fs == Write(fs, Render(env.arrayStr, o.result.value), o.result.value)
              && (o.self.compiler.Some? <==> m.compiler.Some? || SomeCallable(m.delegate.factories.value, |m.delegate.factories.value|))
    // The failure names the first failing id and wraps what it threw.
    ensures o.delegateQueried && m.delegate.factories.Success? && o.result.Failure? ==>
              var factories := m.delegate.factories.value;
              exists k :: FirstFailureAt(env, CompilerInUse(env, m.compiler), factories, k)
                       && o.result.error == LogicException(
                            CompileFailedMessage(factories[k].id), 0,
                            Some(Attempt(env, CompilerInUse(env, m.compiler), factories[k].factory).error))
                       && (o.self.compiler.Some? <==> m.compiler.Some? || SomeCallable(factories, k + 1))
  {
    if !m.cache || fs.file.None? then
      if !PathWritable(fs) then
        Outcome(Failure(RuntimeException(NotWritableMessage(m.path))), m, fs, false)
      else
        match m.delegate.factories
        case Failure(e) => Outcome(Failure(e), m, fs, true)
        case Success(factories) =>
          var (compiled, compiler) := CompileEach(env, m.compiler, factories);
          var m' := m.(compiler := compiler);
          match compiled
          case Failure(f) =>
            Outcome(Failure(LogicException(CompileFailedMessage(f.id), 0, Some(f.cause))), m', fs, true)
          case Success(entries) =>
            var fs' := Write(fs, Render(env.arrayStr, entries), entries);
            Outcome(fs'.file.value.loaded, m', fs', true)
    else
      Outcome(fs.file.value.loaded, m, fs, false)
  }

}
