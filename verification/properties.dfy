/** Properties of `CompiledFactoryMap::factories()` over single calls and
    over sequences of calls on the same object. */
module CompilationProperties {
  import opened Wrappers
  import opened Errors
  import opened FactoryCompilation
  import opened Storage
  import opened Compilation

  /** A trusted file is used as it is: the delegate is not queried, nothing
      is written, and the array is the one the existing file returns. */
  lemma TrustedFileIsLoaded(env: Env, m: CompiledFactoryMap, fs: FileSystem)
    requires m.cache && fs.file.Some?
    ensures var o := Factories(env, m, fs);
            && !o.delegateQueried
            && o.fs == fs
            && o.result == fs.file.value.loaded
  {
  }

  /** The delegate is queried exactly when caching is off or no file exists,
      provided the path is writable; so with caching off an existing file is
      always regenerated. */
  lemma RegeneratesIffNotTrusted(env: Env, m: CompiledFactoryMap, fs: FileSystem)
    requires PathWritable(fs)
    ensures Factories(env, m, fs).delegateQueried <==> (!m.cache || fs.file.None?)
  {
  }

  /** `isPathWritable` decides regeneration: when the file is not trusted,
      the call throws the not-writable `RuntimeException` without querying
      the delegate exactly when the file exists and is not writable, or does
      not exist and its directory is not writable. */
  lemma WritabilityDecides(env: Env, m: CompiledFactoryMap, fs: FileSystem)
    requires !TrustsExisting(m, fs)
    ensures var o := Factories(env, m, fs);
            var unwritable := (fs.file.Some? && !fs.file.value.writable) || (fs.file.None? && !fs.dirWritable);
            && (!o.delegateQueried <==> unwritable)
            && (o.result == Failure(RuntimeException(NotWritableMessage(m.path))) && !o.delegateQueried <==> unwritable)
  {
  }

  /** The two unwritable situations: a missing file in a read-only directory,
      and an existing read-only file that must be regenerated. Both throw a
      `RuntimeException` naming the path, without querying the delegate or
      writing anything. */
  lemma UnwritablePathRaises(env: Env, m: CompiledFactoryMap, fs: FileSystem)
    requires (fs.file.None? && !fs.dirWritable) || (!m.cache && fs.file.Some? && !fs.file.value.writable)
    ensures var o := Factories(env, m, fs);
            && o.result == Failure(RuntimeException(NotWritableMessage(m.path)))
            && !o.delegateQueried
            && o.fs == fs
  {
  }

  /** A factory that does not compile: a `LogicException` is thrown, and the
      file is not created when it was missing and left as it was otherwise. */
  lemma UncompilableKeepsFile(env: Env, m: CompiledFactoryMap, fs: FileSystem, i: int)
    requires !(m.cache && fs.file.Some?) && PathWritable(fs)
    requires m.delegate.factories.Success?
    requires 0 <= i < |m.delegate.factories.value|
    requires Attempt(env, CompilerInUse(env, m.compiler), m.delegate.factories.value[i].factory).Failure?
    ensures var o := Factories(env, m, fs);
            && o.result.Failure? && o.result.error.LogicException?
            && o.fs == fs
            && (fs.file.None? ==> o.fs.file.None?)
  {
  }

  /** A factory that is not callable is rejected by the `callable` parameter
      check of `compiled()` before the compiler is created: when it comes
      first, the call throws a `LogicException` wrapping that `TypeError` and
      the compiler stays unset. */
  lemma NonCallableFirstLeavesCompilerUnset(env: Env, m: CompiledFactoryMap, fs: FileSystem)
    requires !(m.cache && fs.file.Some?) && PathWritable(fs)
    requires m.compiler.None?
    requires m.delegate.factories.Success? && |m.delegate.factories.value| > 0
    requires !m.delegate.factories.value[0].factory.callable
    ensures var o := Factories(env, m, fs);
            var first := m.delegate.factories.value[0];
            && o.result == Failure(LogicException(CompileFailedMessage(first.id), 0,
                                                  Some(TypeError(env.notCallableMessage(first.factory)))))
            && o.self.compiler.None?
            && o.fs == fs
  {
  }

  /** An exception thrown by the delegate's `factories()` passes through
      unchanged: nothing is compiled or written and the object is unchanged. */
  lemma DelegateExceptionPropagates(env: Env, m: CompiledFactoryMap, fs: FileSystem)
    requires !(m.cache && fs.file.Some?) && PathWritable(fs)
    requires m.delegate.factories.Failure?
    ensures var o := Factories(env, m, fs);
            && o.result == Failure(m.delegate.factories.error)
            && o.delegateQueried
            && o.fs == fs
            && o.self == m
  {
  }

  /** On success after regeneration the file holds the rendered array of the
      delegate's ids, in order, and the call returns what loading it yields. */
  lemma RegeneratedFileMatchesDelegate(env: Env, m: CompiledFactoryMap, fs: FileSystem)
    requires !(m.cache && fs.file.Some?) && PathWritable(fs)
    requires m.delegate.factories.Success?
    requires AllCompile(env, CompilerInUse(env, m.compiler), m.delegate.factories.value)
    ensures var o := Factories(env, m, fs);
            var factories := m.delegate.factories.value;
            && o.result.Success?
            && |o.result.value| == |factories|
            && (forall i :: 0 <= i < |factories| ==> o.result.value[i].id == factories[i].id)
            && (forall i, j :: 0 <= i < j < |o.result.value| ==> o.result.value[i].id != o.result.value[j].id)
            && o.fs.file.Some?
            && o.fs.file.value.text == Render(env.arrayStr, o.result.value)
            && o.fs.file.value.loaded == o.result
  {
  }

  /** An empty delegate array still produces a file, one returning an empty
      array, and no compiler is created. */
  lemma EmptyDelegateWritesEmptyArray(env: Env, m: CompiledFactoryMap, fs: FileSystem)
    requires !(m.cache && fs.file.Some?) && PathWritable(fs)
    requires m.delegate.factories == Success([])
    ensures var o := Factories(env, m, fs);
            && o.result == Success([])
            && o.fs.file == Some(File(true, Render(env.arrayStr, []), Success([])))
            && o.self.compiler == m.compiler
  {
  }

  /** The code has no special case for an empty path: PHP reports that `''`
      does not exist and that its directory, `dirname('')`, is not writable,
      so the call throws instead of passing the delegate's array through. */
  lemma EmptyPathIsNotBypassed(env: Env, m: CompiledFactoryMap, fs: FileSystem)
    requires m.path == "" && fs.file.None? && !fs.dirWritable
    ensures var o := Factories(env, m, fs);
            && o.result == Failure(RuntimeException("Container compilation file path is not writable ()"))
            && !o.delegateQueried
  {
    assert NotWritableMessage("") == "Container compilation file path is not writable ()";
  }

  /** With caching on, once a call has succeeded the next call on the
      resulting object and filesystem is a cache hit returning the same array. */
  lemma SecondCallHitsCache(env: Env, m: CompiledFactoryMap, fs: FileSystem)
    requires m.cache
    requires Factories(env, m, fs).result.Success?
    ensures var o1 := Factories(env, m, fs);
            var o2 := Factories(env, o1.self, o1.fs);
            && TrustsExisting(o1.self, o1.fs)
            && !o2.delegateQueried
            && o2.result == o1.result
            && o2.fs == o1.fs
            && o2.self == o1.self
  {
  }

  /** The outcome of `n + 1` successive calls on the same object, each call
      finding the filesystem the previous one left. */
  function Calls(env: Env, m: CompiledFactoryMap, fs: FileSystem, n: nat): Outcome
    decreases n
  {
    var o := Factories(env, m, fs);
    if n == 0 then o else Calls(env, o.self, o.fs, n - 1)
  }

  /** Idempotence: with caching on, after a first successful call every later
      call returns the same array, queries nothing and rewrites nothing. */
  lemma {:induction false} RepeatedCallsAreStable(env: Env, m: CompiledFactoryMap, fs: FileSystem, n: nat)
    requires m.cache
    requires Factories(env, m, fs).result.Success?
    ensures var first := Factories(env, m, fs);
            var last := Calls(env, m, fs, n);
            && last.result == first.result
            && last.fs == first.fs
            && (n > 0 ==> !last.delegateQueried)
    decreases n
  {
    var first := Factories(env, m, fs);
    if n > 0 {
      SecondCallHitsCache(env, m, fs);
      if n > 1 {
        RepeatedCallsAreStable(env, first.self, first.fs, n - 1);
      }
    }
  }

  /** Runs one call per filesystem state in `states` (each the state a call
      finds, whoever changed it in between) and returns the final object and
      the number of compilers created along the way. */
  function Run(env: Env, m: CompiledFactoryMap, states: seq<FileSystem>): (CompiledFactoryMap, nat)
    decreases |states|
  {
    if |states| == 0 then (m, 0)
    else
      var o := Factories(env, m, states[0]);
      var created := if m.compiler.None? && o.self.compiler.Some? then 1 else 0;
      var (last, more) := Run(env, o.self, states[1..]);
      (last, created + more)
  }

  /** The compiler is created lazily, at most once over the object's whole
      life, and once created it is kept and never reset. */
  lemma {:induction false} CompilerCreatedAtMostOnce(env: Env, m: CompiledFactoryMap, states: seq<FileSystem>)
    ensures Run(env, m, states).1 <= (if m.compiler.None? then 1 else 0)
    ensures m.compiler.Some? ==> Run(env, m, states).0.compiler == m.compiler
    ensures Run(env, m, states).0.compiler.Some? ==> Run(env, m, states).0.compiler == Some(CompilerInUse(env, m.compiler))
    decreases |states|
  {
    if |states| > 0 {
      var o := Factories(env, m, states[0]);
      CompilerCreatedAtMostOnce(env, o.self, states[1..]);
    }
  }

  /** Starting from the constructor, at most one compiler is ever created
      and it is the one `compiled()` builds. */
  lemma FromConstructionOneCompiler(env: Env, delegate: FactoryMap, cache: bool, path: string, states: seq<FileSystem>)
    ensures var r := Run(env, New(delegate, cache, path), states);
            && r.1 <= 1
            && (r.0.compiler.Some? ==> r.0.compiler == Some(NewCompiler(env)))
  {
    CompilerCreatedAtMostOnce(env, New(delegate, cache, path), states);
  }

}
