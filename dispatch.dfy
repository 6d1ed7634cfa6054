/**
 * The five command handlers of `RunnerProgram.Main`: load the assembly,
 * resolve the target, build the options, call the exploration engine once and
 * report its statistics once, returning early on every failure.
 *
 * What the handlers call but this layer does not define (the assembly loader,
 * the `ResolveType`/`ResolveMethod`/`ResolveNamespace` extension methods of
 * the utilities library, and the engine) is given as a `Host`. Every
 * observable effect of a handler is an `Event` in the trace it returns.
 */
module Dispatch {
  import opened Wrappers
  import opened Text
  import opened Reflection

  /** The engine configuration a handler builds (`VSharpOptions`); enumerations are given by ordinal. */
  datatype Options = Options(
    timeout: int,
    solverTimeout: int,
    outputDirectory: string,
    renderTests: bool,
    searchStrategy: nat,
    verbosity: nat,
    recursionThreshold: nat,
    explorationMode: nat,
    pathToModel: string)

  /** The options every command shares, as the command line delivers them. */
  datatype CommonArgs = CommonArgs(
    timeout: int,
    pathToModel: string,
    solverTimeout: int,
    output: string,
    renderTests: bool,
    runTests: bool,
    strategy: nat,
    verbosity: nat,
    recursionThreshold: nat,
    explorationMode: nat)

  /** What the engine is asked to explore; an entry point's arguments are null when they are to be synthesised. */
  datatype Target =
    | EntryPoint(assembly: Assembly, args: Option<seq<string>>)
    | AllPublicMethods(assembly: Assembly)
    | SingleType(typ: TypeRef)
    | SingleMethod(methodRef: MethodRef)
    | Namespace(types: seq<TypeRef>)

  /** The two engine entry points: generate tests, or generate and run them. */
  datatype Call = Cover(target: Target, options: Options) | CoverAndRun(target: Target, options: Options)

  /** The statistics the engine returns; their content belongs to the engine. */
  datatype Statistics = Statistics(summary: string)

  datatype LoadOutcome = Loaded(assembly: Assembly) | LoadFailed(message: string)

  /** The failures a handler writes to standard error before it returns. */
  datatype RunnerError =
    | CannotLoadAssembly(path: string, message: string)
    | TypeNotFound(className: string, location: string)
    | MethodTokenNotFound(token: int, location: string)
    | MethodNameNotFound(methodName: string, location: string)
    | NoTypesInNamespace(namespaceName: string)

  /** A diagnostic line, an engine call, or the report `PostProcess` renders. */
  datatype Event = Diagnostic(error: RunnerError) | Engine(call: Call) | Report(statistics: Statistics)

  /**
   * What the handlers call but this layer does not define: the loader, the
   * utilities' resolvers, `FileSystemInfo.FullName` (the absolute, normalised
   * form of a path, used for the assembly path and the output directory) and
   * the engine.
   */
  datatype Host = Host(
    load: string -> LoadOutcome,
    resolveType: (Assembly, string) -> Option<TypeRef>,
    resolveMethodByToken: (Assembly, int) -> Option<MethodRef>,
    resolveMethodByName: (Assembly, string) -> Option<MethodRef>,
    resolveNamespace: (Assembly, string) -> seq<TypeRef>,
    fullPath: string -> string,
    engine: Call -> Statistics)

  /** The number of engine calls in a trace. */
  function EngineCalls(trace: seq<Event>): nat {
    if |trace| == 0 then 0 else (if trace[0].Engine? then 1 else 0) + EngineCalls(trace[1..])
  }

  /** The number of reports in a trace. */
  function Reports(trace: seq<Event>): nat {
    if |trace| == 0 then 0 else (if trace[0].Report? then 1 else 0) + Reports(trace[1..])
  }

  /**
   * The shape every successful handler ends in: exactly one engine call,
   * `CoverAndRun` when the run flag is set and `Cover` otherwise, then exactly
   * one report of the statistics that call produced.
   */
  ghost predicate DispatchedOnce(trace: seq<Event>, host: Host, runTests: bool, target: Target, options: Options) {
    var call := if runTests then CoverAndRun(target, options) else Cover(target, options);
    trace == [Engine(call), Report(host.engine(call))]
  }

  /** A failed handler: one diagnostic, nothing else. */
  ghost predicate FailedWith(trace: seq<Event>, error: RunnerError) {
    trace == [Diagnostic(error)]
  }

  /** A dispatched trace has one engine call, of the kind the run flag selects, and one report. */
  lemma DispatchedCounts(trace: seq<Event>, host: Host, runTests: bool, target: Target, options: Options)
    requires DispatchedOnce(trace, host, runTests, target, options)
    ensures EngineCalls(trace) == 1 && Reports(trace) == 1
    ensures trace[0].call.target == target && (trace[0].call.CoverAndRun? <==> runTests)
  {
    var tail := trace[1..];
    assert tail == [trace[1]] && tail[1..] == [];
    assert EngineCalls(tail) == 0 && Reports(tail) == 1;
  }

  /** A failed handler reaches neither the engine nor the report. */
  lemma FailedCounts(trace: seq<Event>, error: RunnerError)
    requires FailedWith(trace, error)
    ensures EngineCalls(trace) == 0 && Reports(trace) == 0
  {
    assert trace[1..] == [];
  }

  /**
   * `new VSharpOptions(...)` from the shared command-line values. The output
   * directory is `output.FullName`, the path the host normalises; the run flag
   * is not part of the options.
   */
  function BuildOptions(host: Host, args: CommonArgs): Options {
    Options(args.timeout, args.solverTimeout, host.fullPath(args.output), args.renderTests, args.strategy,
            args.verbosity, args.recursionThreshold, args.explorationMode, args.pathToModel)
  }

  /**
   * `TryLoadAssembly(assemblyPath)`: the assembly loaded from the path's
   * `FullName`, or null and one diagnostic naming that full path and the
   * failure's message.
   */
  method TryLoadAssembly(host: Host, path: string) returns (assembly: Option<Assembly>, diagnostics: seq<Event>)
    ensures assembly.Some? <==> host.load(host.fullPath(path)).Loaded?
    ensures assembly.Some? ==> assembly.value == host.load(host.fullPath(path)).assembly && diagnostics == []
    ensures assembly.None? ==>
              FailedWith(diagnostics, CannotLoadAssembly(host.fullPath(path), host.load(host.fullPath(path)).message))
  {
    var full := host.fullPath(path);
    match host.load(full)
    case Loaded(a) =>
      assembly, diagnostics := Some(a), [];
    case LoadFailed(message) =>
      assembly, diagnostics := None, [Diagnostic(CannotLoadAssembly(full, message))];
  }

  /** The entry-point command: explore `Main` with the given arguments, or with synthesised ones under `--unknown-args`. */
  method EntryPointHandler(host: Host, assemblyPath: string, args: seq<string>, unknownArgs: bool, common: CommonArgs)
    returns (trace: seq<Event>)
    ensures host.load(host.fullPath(assemblyPath)).LoadFailed? ==>
              FailedWith(trace, CannotLoadAssembly(host.fullPath(assemblyPath), host.load(host.fullPath(assemblyPath)).message))
    ensures host.load(host.fullPath(assemblyPath)).Loaded? ==>
              DispatchedOnce(trace, host, common.runTests,
                             EntryPoint(host.load(host.fullPath(assemblyPath)).assembly, if unknownArgs then None else Some(args)),
                             BuildOptions(host, common))
    ensures EngineCalls(trace) == 0 <==> host.load(host.fullPath(assemblyPath)).LoadFailed?
  {
    var assembly, diagnostics := TryLoadAssembly(host, assemblyPath);
    var inputArgs := if unknownArgs then None else Some(args);
    var options := BuildOptions(host, common);
    if assembly.None? {
      FailedCounts(diagnostics, diagnostics[0].error);
      return diagnostics;
    }
    var target := EntryPoint(assembly.value, inputArgs);
    if common.runTests {
      var call := CoverAndRun(target, options);
      var statistics := host.engine(call);
      trace := [Engine(call), Report(statistics)];
    } else {
      var call := Cover(target, options);
      trace := [Engine(call), Report(host.engine(call))];
    }
    DispatchedCounts(trace, host, common.runTests, target, options);
  }

  /** The all-public-methods command: explore every public method of every public type. */
  method AllPublicMethodsHandler(host: Host, assemblyPath: string, singleFile: bool, common: CommonArgs)
    returns (trace: seq<Event>)
    ensures host.load(host.fullPath(assemblyPath)).LoadFailed? ==>
              FailedWith(trace, CannotLoadAssembly(host.fullPath(assemblyPath), host.load(host.fullPath(assemblyPath)).message))
    ensures host.load(host.fullPath(assemblyPath)).Loaded? ==>
              DispatchedOnce(trace, host, common.runTests, AllPublicMethods(host.load(host.fullPath(assemblyPath)).assembly), BuildOptions(host, common))
    ensures EngineCalls(trace) == 0 <==> host.load(host.fullPath(assemblyPath)).LoadFailed?
  {
    var assembly, diagnostics := TryLoadAssembly(host, assemblyPath);
    var options := BuildOptions(host, common);
    if assembly.None? {
      FailedCounts(diagnostics, diagnostics[0].error);
      return diagnostics;
    }
    var target := AllPublicMethods(assembly.value);
    if common.runTests {
      var call := CoverAndRun(target, options);
      var statistics := host.engine(call);
      trace := [Engine(call), Report(statistics)];
    } else {
      var call := Cover(target, options);
      trace := [Engine(call), Report(host.engine(call))];
    }
    DispatchedCounts(trace, host, common.runTests, target, options);
  }

  /** The type command: explore the public methods of the type the utilities' `ResolveType` finds. */
  method TypeHandler(host: Host, className: string, assemblyPath: string, common: CommonArgs)
    returns (trace: seq<Event>)
    ensures host.load(host.fullPath(assemblyPath)).LoadFailed? ==>
              FailedWith(trace, CannotLoadAssembly(host.fullPath(assemblyPath), host.load(host.fullPath(assemblyPath)).message))
    ensures host.load(host.fullPath(assemblyPath)).Loaded? ==>
              var assembly := host.load(host.fullPath(assemblyPath)).assembly;
              match host.resolveType(assembly, className)
              case None => FailedWith(trace, TypeNotFound(className, assembly.location))
              case Some(t) => DispatchedOnce(trace, host, common.runTests, SingleType(t), BuildOptions(host, common))
    ensures EngineCalls(trace) == 0 <==>
              host.load(host.fullPath(assemblyPath)).LoadFailed? || host.resolveType(host.load(host.fullPath(assemblyPath)).assembly, className).None?
  {
    var assembly, diagnostics := TryLoadAssembly(host, assemblyPath);
    if assembly.None? {
      FailedCounts(diagnostics, diagnostics[0].error);
      return diagnostics;
    }
    var typ := host.resolveType(assembly.value, className);
    if typ.None? {
      trace := [Diagnostic(TypeNotFound(className, assembly.value.location))];
      FailedCounts(trace, trace[0].error);
      return;
    }
    var options := BuildOptions(host, common);
    var target := SingleType(typ.value);
    if common.runTests {
      var call := CoverAndRun(target, options);
      var statistics := host.engine(call);
      trace := [Engine(call), Report(statistics)];
    } else {
      var call := Cover(target, options);
      trace := [Engine(call), Report(host.engine(call))];
    }
    DispatchedCounts(trace, host, common.runTests, target, options);
  }

  /**
   * The method command: a name that parses as an Int32 is looked up as a
   * metadata token, any other as a method name.
   */
  method MethodHandler(host: Host, methodName: string, assemblyPath: string, common: CommonArgs)
    returns (trace: seq<Event>)
    ensures host.load(host.fullPath(assemblyPath)).LoadFailed? ==>
              FailedWith(trace, CannotLoadAssembly(host.fullPath(assemblyPath), host.load(host.fullPath(assemblyPath)).message))
    ensures host.load(host.fullPath(assemblyPath)).Loaded? && ParseInt32(methodName).Some? ==>
              var assembly := host.load(host.fullPath(assemblyPath)).assembly;
              var token := ParseInt32(methodName).value;
              match host.resolveMethodByToken(assembly, token)
              case None => FailedWith(trace, MethodTokenNotFound(token, assembly.location))
              case Some(m) => DispatchedOnce(trace, host, common.runTests, SingleMethod(m), BuildOptions(host, common))
    ensures host.load(host.fullPath(assemblyPath)).Loaded? && ParseInt32(methodName).None? ==>
              var assembly := host.load(host.fullPath(assemblyPath)).assembly;
              match host.resolveMethodByName(assembly, methodName)
              case None => FailedWith(trace, MethodNameNotFound(methodName, assembly.location))
              case Some(m) => DispatchedOnce(trace, host, common.runTests, SingleMethod(m), BuildOptions(host, common))
    ensures EngineCalls(trace) <= 1 && Reports(trace) == EngineCalls(trace)
  {
    var assembly, diagnostics := TryLoadAssembly(host, assemblyPath);
    if assembly.None? {
      FailedCounts(diagnostics, diagnostics[0].error);
      return diagnostics;
    }
    var resolved: Option<MethodRef>;
    var parsed := ParseInt32(methodName);
    if parsed.Some? {
      var methodToken := parsed.value;
      resolved := host.resolveMethodByToken(assembly.value, methodToken);
      if resolved.None? {
        trace := [Diagnostic(MethodTokenNotFound(methodToken, assembly.value.location))];
        FailedCounts(trace, trace[0].error);
        return;
      }
    } else {
      resolved := host.resolveMethodByName(assembly.value, methodName);
      if resolved.None? {
        trace := [Diagnostic(MethodNameNotFound(methodName, assembly.value.location))];
        FailedCounts(trace, trace[0].error);
        return;
      }
    }
    var options := BuildOptions(host, common);
    var target := SingleMethod(resolved.value);
    if common.runTests {
      var call := CoverAndRun(target, options);
      var statistics := host.engine(call);
      trace := [Engine(call), Report(statistics)];
    } else {
      var call := Cover(target, options);
      trace := [Engine(call), Report(host.engine(call))];
    }
    DispatchedCounts(trace, host, common.runTests, target, options);
  }

  /** The namespace command: explore the types the utilities' `ResolveNamespace` lists, unless there are none. */
  method NamespaceHandler(host: Host, namespaceName: string, assemblyPath: string, common: CommonArgs)
    returns (trace: seq<Event>)
    ensures host.load(host.fullPath(assemblyPath)).LoadFailed? ==>
              FailedWith(trace, CannotLoadAssembly(host.fullPath(assemblyPath), host.load(host.fullPath(assemblyPath)).message))
    ensures host.load(host.fullPath(assemblyPath)).Loaded? ==>
              var types := host.resolveNamespace(host.load(host.fullPath(assemblyPath)).assembly, namespaceName);
              if |types| == 0 then FailedWith(trace, NoTypesInNamespace(namespaceName))
              else DispatchedOnce(trace, host, common.runTests, Namespace(types), BuildOptions(host, common))
    ensures EngineCalls(trace) == 0 <==>
              host.load(host.fullPath(assemblyPath)).LoadFailed? || |host.resolveNamespace(host.load(host.fullPath(assemblyPath)).assembly, namespaceName)| == 0
  {
    var assembly, diagnostics := TryLoadAssembly(host, assemblyPath);
    if assembly.None? {
      FailedCounts(diagnostics, diagnostics[0].error);
      return diagnostics;
    }
    var namespaceTypes := host.resolveNamespace(assembly.value, namespaceName);
    if |namespaceTypes| == 0 {
      trace := [Diagnostic(NoTypesInNamespace(namespaceName))];
      FailedCounts(trace, trace[0].error);
      return;
    }
    var options := BuildOptions(host, common);
    var target := Namespace(namespaceTypes);
    if common.runTests {
      var call := CoverAndRun(target, options);
      var statistics := host.engine(call);
      trace := [Engine(call), Report(statistics)];
    } else {
      var call := Cover(target, options);
      trace := [Engine(call), Report(host.engine(call))];
    }
    DispatchedCounts(trace, host, common.runTests, target, options);
  }
}
