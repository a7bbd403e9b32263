/**
 * Running JavaScript on the server: `code_for` finds a script in the
 * script directories and caches it in the global `LOADED_SCRIPTS`, and
 * `execute` sends an `$eval` command and checks its status.
 *
 * The file system is a map from path to contents and the database command
 * is a function from the command document to the server's reply.
 */
module Execution {
  import opened Wrappers
  import opened Values
  import opened RubyErrors
  import opened Criteria

  /** A script name as callers pass it: a symbol or a string. */
  datatype ScriptName = SymName(name: string) | TextName(text: string)

  /** `script_name.to_s`. */
  function ToS(n: ScriptName): (s: string)
    ensures n.SymName? ==> s == n.name
    ensures n.TextName? ==> s == n.text
  {
    match n
    case SymName(s) => s
    case TextName(s) => s
  }

  /** Path to contents of every existing file. */
  type FileSystem = map<string, string>

  /** An exception raised by this module: its class and message. */
  datatype Raised = Raised(klass: ErrorClass, message: string)

  /** `"#{script_name}.js"`. */
  function ScriptFile(name: string): string
  {
    name + ".js"
  }

  /** `File.join(dir, file)` for a relative file name: one `/` between the two parts. */
  function Join(dir: string, file: string): (path: string)
    ensures |dir| > 0 && dir[|dir| - 1] == '/' ==> path == dir + file
    ensures (|dir| == 0 || dir[|dir| - 1] != '/') ==> path == dir + "/" + file
  {
    if |dir| > 0 && dir[|dir| - 1] == '/' then dir + file else dir + "/" + file
  }

  /** Whether `File.exists?(File.join(dir, file))`. */
  predicate HasFile(fs: FileSystem, dir: string, file: string)
  {
    Join(dir, file) in fs
  }

  /** The position of the first directory, from `from` on, holding `file` (`script_dirs.find`). */
  function FirstDirFrom(dirs: seq<string>, fs: FileSystem, file: string, from: nat): (r: Option<nat>)
    requires from <= |dirs|
    ensures r.Some? ==> from <= r.value < |dirs| && HasFile(fs, dirs[r.value], file)
    ensures r.Some? ==> forall j {:trigger HasFile(fs, dirs[j], file)} :: from <= j < r.value ==> !HasFile(fs, dirs[j], file)
    ensures r.None? ==> forall j {:trigger HasFile(fs, dirs[j], file)} :: from <= j < |dirs| ==> !HasFile(fs, dirs[j], file)
    decreases |dirs| - from
  {
    if from == |dirs| then None
    else if HasFile(fs, dirs[from], file) then Some(from)
    else FirstDirFrom(dirs, fs, file, from + 1)
  }

  function FirstDir(dirs: seq<string>, fs: FileSystem, file: string): Option<nat>
  {
    FirstDirFrom(dirs, fs, file, 0)
  }

  /** The message of the `ScriptNotFound` error. */
  function NotFoundMessage(name: string): string
  {
    "Unable to find script " + name
  }

  /** What `code_for(name)` returns: the cached code if there is some, else the file's contents; `ScriptNotFound` if no directory has the file. */
  function LoadCode(dirs: seq<string>, fs: FileSystem, loaded: map<string, string>, name: ScriptName): (r: Result<string, Raised>)
    ensures r.Failure? <==> forall j {:trigger HasFile(fs, dirs[j], ScriptFile(ToS(name)))} :: 0 <= j < |dirs| ==> !HasFile(fs, dirs[j], ScriptFile(ToS(name)))
    ensures r.Failure? ==> r.error == Raised(ScriptNotFound, "Unable to find script " + ToS(name))
    ensures r.Success? && ToS(name) in loaded ==> r.value == loaded[ToS(name)]
    ensures r.Success? && ToS(name) !in loaded ==>
      exists i {:trigger HasFile(fs, dirs[i], ScriptFile(ToS(name)))} :: 0 <= i < |dirs| && HasFile(fs, dirs[i], ScriptFile(ToS(name))) &&
        r.value == fs[Join(dirs[i], ScriptFile(ToS(name)))] &&
        forall j {:trigger HasFile(fs, dirs[j], ScriptFile(ToS(name)))} :: 0 <= j < i ==> !HasFile(fs, dirs[j], ScriptFile(ToS(name)))
  {
    var key := ToS(name);
    match FirstDir(dirs, fs, ScriptFile(key))
    case None => Failure(Raised(ScriptNotFound, NotFoundMessage(key)))
    case Some(i) =>
      Success(if key in loaded then loaded[key] else fs[Join(dirs[i], ScriptFile(key))])
  }

  /** `LOADED_SCRIPTS` after `code_for(name)`: the file's code stored under the name only if there was none. */
  function CacheAfter(dirs: seq<string>, fs: FileSystem, loaded: map<string, string>, name: ScriptName): (cache: map<string, string>)
    ensures loaded.Keys <= cache.Keys <= loaded.Keys + {ToS(name)}
    ensures forall k :: k in loaded ==> cache[k] == loaded[k]
    ensures ToS(name) in cache <==> ToS(name) in loaded || exists j {:trigger HasFile(fs, dirs[j], ScriptFile(ToS(name)))} :: 0 <= j < |dirs| && HasFile(fs, dirs[j], ScriptFile(ToS(name)))
  {
    var key := ToS(name);
    match FirstDir(dirs, fs, ScriptFile(key))
    case None => loaded
    case Some(i) =>
      if key in loaded then loaded else loaded[key := fs[Join(dirs[i], ScriptFile(key))]]
  }

  /** The global `LOADED_SCRIPTS` hash, shared by every class that includes the module. */
  class ScriptCache {
    var loaded: map<string, string>

    constructor ()
      ensures loaded == map[]
    {
      loaded := map[];
    }
  }

  /**
   * A class that includes `MongoScript::Execution`: its `script_dirs` and
   * the shared cache. `sent` records, for the proofs, every command sent to
   * the database.
   */
  class Host {
    var scriptDirs: seq<string>
    const cache: ScriptCache
    ghost var sent: seq<Command>

    /** Inclusion starts `script_dirs` with the gem's own script directory. */
    constructor (gemPath: string, cache: ScriptCache)
      ensures scriptDirs == [gemPath] && this.cache == cache && sent == []
    {
      scriptDirs := [gemPath];
      this.cache := cache;
      sent := [];
    }

    /** `code_for(script_name)`. */
    method CodeFor(name: ScriptName, fs: FileSystem) returns (r: Result<string, Raised>)
      modifies cache
      ensures r == LoadCode(scriptDirs, fs, old(cache.loaded), name)
      ensures cache.loaded == CacheAfter(scriptDirs, fs, old(cache.loaded), name)
    {
      var key := ToS(name);
      var file := ScriptFile(key);
      var i := 0;
      while i < |scriptDirs| && !HasFile(fs, scriptDirs[i], file)
        invariant 0 <= i <= |scriptDirs|
        invariant FirstDirFrom(scriptDirs, fs, file, i) == FirstDir(scriptDirs, fs, file)
      {
        i := i + 1;
      }
      if i == |scriptDirs| {
        return Failure(Raised(ScriptNotFound, NotFoundMessage(key)));
      }
      var code := fs[Join(scriptDirs[i], file)];
      if key !in cache.loaded {
        cache.loaded := cache.loaded[key := code];
      }
      r := Success(cache.loaded[key]);
    }

    /** `execute_readonly_routine(script_name, *args)`. */
    method ExecuteReadonlyRoutine(name: ScriptName, args: seq<Criterion>, fs: FileSystem, server: Command -> map<string, Value>)
      returns (r: Result<Value, Raised>)
      modifies this, cache
      ensures scriptDirs == old(scriptDirs)
      ensures r == ReadonlyRoutine(scriptDirs, fs, old(cache.loaded), server, name, args)
      ensures cache.loaded == CacheAfter(scriptDirs, fs, old(cache.loaded), name)
      ensures var code := LoadCode(scriptDirs, fs, old(cache.loaded), name);
        sent == if code.Success? then old(sent) + [EvalCommand(code.value, args, ReadonlyOptions)] else old(sent)
    {
      var code := CodeFor(name, fs);
      if code.Failure? {
        return Failure(code.error);
      }
      sent := sent + [EvalCommand(code.value, args, ReadonlyOptions)];
      r := ExecuteReadonlyCode(server, code.value, args);
    }

    /** `execute_readwrite_routine(script_name, *args)`. */
    method ExecuteReadwriteRoutine(name: ScriptName, args: seq<Criterion>, fs: FileSystem, server: Command -> map<string, Value>)
      returns (r: Result<Value, Raised>)
      modifies this, cache
      ensures scriptDirs == old(scriptDirs)
      ensures r == ReadwriteRoutine(scriptDirs, fs, old(cache.loaded), server, name, args)
      ensures cache.loaded == CacheAfter(scriptDirs, fs, old(cache.loaded), name)
      ensures var code := LoadCode(scriptDirs, fs, old(cache.loaded), name);
        sent == if code.Success? then old(sent) + [EvalCommand(code.value, args, map[])] else old(sent)
    {
      var code := CodeFor(name, fs);
      if code.Failure? {
        return Failure(code.error);
      }
      sent := sent + [EvalCommand(code.value, args, map[])];
      r := ExecuteReadwriteCode(server, code.value, args);
    }
  }

  /** A member of the `$eval` command document. */
  datatype CommandValue = Code(code: string) | Arguments(args: seq<Resolved>) | Setting(value: Value)

  /** The command document: member name (the symbol's name) to value. */
  type Command = map<string, CommandValue>

  /** `{:$eval => code, :args => resolve_arguments(args)}.merge(options)`: an option overrides a member of the same name. */
  function EvalCommand(code: string, args: seq<Criterion>, options: map<string, Value>): (cmd: Command)
    ensures cmd.Keys == {"$eval", "args"} + options.Keys
    ensures forall k :: k in options ==> cmd[k] == Setting(options[k])
    ensures "$eval" !in options ==> cmd["$eval"] == Code(code)
    ensures "args" !in options ==> cmd["args"] == Arguments(ResolveArguments(args))
  {
    map["$eval" := Code(code), "args" := Arguments(ResolveArguments(args))]
      + map k | k in options :: Setting(options[k])
  }

  /** The message of the `ExecutionFailure` error (the inspected reply that follows it is not modelled). */
  const FailureMessage: string := "MongoScript.execute JS didn't return {ok: 1.0}!  Result: "

  /** `execute(code, args, options)`: the reply's `retval` when its `ok` is 1, `ExecutionFailure` otherwise. */
  function Execute(server: Command -> map<string, Value>, code: string, args: seq<Criterion>, options: map<string, Value>): (r: Result<Value, Raised>)
    ensures var reply := server(EvalCommand(code, args, options));
      && (r.Success? <==> Member(reply, "ok") == Num(1))
      && (r.Success? ==> r.value == Member(reply, "retval"))
      && (r.Failure? ==> r.error.klass == ExecutionFailure)
  {
    var reply := server(EvalCommand(code, args, options));
    if Member(reply, "ok") == Num(1) then Success(Member(reply, "retval"))
    else Failure(Raised(ExecutionFailure, FailureMessage))
  }

  /** The options of a read-only `$eval`: do not take the global write lock. */
  const ReadonlyOptions: map<string, Value> := map["nolock" := Bool(true)]

  /** `execute_readonly_code(code, *args)`. */
  function ExecuteReadonlyCode(server: Command -> map<string, Value>, code: string, args: seq<Criterion>): (r: Result<Value, Raised>)
    ensures var cmd := EvalCommand(code, args, ReadonlyOptions);
      && cmd.Keys == {"$eval", "args", "nolock"} && cmd["nolock"] == Setting(Bool(true))
      && (r.Success? <==> Member(server(cmd), "ok") == Num(1))
      && (r.Success? ==> r.value == Member(server(cmd), "retval"))
      && (r.Failure? ==> r.error == Raised(ExecutionFailure, FailureMessage))
  {
    Execute(server, code, args, ReadonlyOptions)
  }

  /** `execute_readwrite_code(code, *args)`. */
  function ExecuteReadwriteCode(server: Command -> map<string, Value>, code: string, args: seq<Criterion>): (r: Result<Value, Raised>)
    ensures var cmd := EvalCommand(code, args, map[]);
      && cmd.Keys == {"$eval", "args"}
      && (r.Success? <==> Member(server(cmd), "ok") == Num(1))
      && (r.Success? ==> r.value == Member(server(cmd), "retval"))
      && (r.Failure? ==> r.error == Raised(ExecutionFailure, FailureMessage))
  {
    Execute(server, code, args, map[])
  }

  /** `execute_readonly_routine(name, *args)` as a function of the state it reads. */
  function ReadonlyRoutine(dirs: seq<string>, fs: FileSystem, loaded: map<string, string>,
                           server: Command -> map<string, Value>, name: ScriptName, args: seq<Criterion>): Result<Value, Raised>
  {
    match LoadCode(dirs, fs, loaded, name)
    case Failure(e) => Failure(e)
    case Success(code) => ExecuteReadonlyCode(server, code, args)
  }

  /** `execute_readwrite_routine(name, *args)` as a function of the state it reads. */
  function ReadwriteRoutine(dirs: seq<string>, fs: FileSystem, loaded: map<string, string>,
                            server: Command -> map<string, Value>, name: ScriptName, args: seq<Criterion>): Result<Value, Raised>
  {
    match LoadCode(dirs, fs, loaded, name)
    case Failure(e) => Failure(e)
    case Success(code) => ExecuteReadwriteCode(server, code, args)
  }

  /** The code comes from the first directory, in order, holding the file, unless the name is already cached. */
  lemma FirstDirectoryWins(dirs: seq<string>, fs: FileSystem, loaded: map<string, string>, name: ScriptName, i: nat)
    requires i < |dirs| && HasFile(fs, dirs[i], ScriptFile(ToS(name)))
    requires forall j :: 0 <= j < i ==> !HasFile(fs, dirs[j], ScriptFile(ToS(name)))
    requires ToS(name) !in loaded
    ensures LoadCode(dirs, fs, loaded, name) == Success(fs[Join(dirs[i], ScriptFile(ToS(name)))])
    ensures CacheAfter(dirs, fs, loaded, name) == loaded[ToS(name) := fs[Join(dirs[i], ScriptFile(ToS(name)))]]
  {
  }

  /** A script that no directory holds raises `ScriptNotFound` and leaves `LOADED_SCRIPTS` as it was. */
  lemma MissingScript(dirs: seq<string>, fs: FileSystem, loaded: map<string, string>, name: ScriptName)
    requires forall d :: d in dirs ==> !HasFile(fs, d, ScriptFile(ToS(name)))
    ensures LoadCode(dirs, fs, loaded, name) == Failure(Raised(ScriptNotFound, "Unable to find script " + ToS(name)))
    ensures CacheAfter(dirs, fs, loaded, name) == loaded
  {
  }

  /** A symbol and a string with the same text load the same code and leave the same cache. */
  lemma SymbolsAndStringsAgree(dirs: seq<string>, fs: FileSystem, loaded: map<string, string>, s: string)
    ensures LoadCode(dirs, fs, loaded, SymName(s)) == LoadCode(dirs, fs, loaded, TextName(s))
    ensures CacheAfter(dirs, fs, loaded, SymName(s)) == CacheAfter(dirs, fs, loaded, TextName(s))
  {
  }

  /** `LOADED_SCRIPTS` only grows, by the loaded name at most, and a cached entry is never overwritten. */
  lemma CacheIsWriteOnce(dirs: seq<string>, fs: FileSystem, loaded: map<string, string>, name: ScriptName)
    ensures loaded.Keys <= CacheAfter(dirs, fs, loaded, name).Keys <= loaded.Keys + {ToS(name)}
    ensures forall k :: k in loaded ==> CacheAfter(dirs, fs, loaded, name)[k] == loaded[k]
  {
  }

  /** The code returned is the code cached under the name afterwards. */
  lemma ReturnsCachedCode(dirs: seq<string>, fs: FileSystem, loaded: map<string, string>, name: ScriptName)
    ensures LoadCode(dirs, fs, loaded, name).Success? ==>
      ToS(name) in CacheAfter(dirs, fs, loaded, name) &&
      LoadCode(dirs, fs, loaded, name).value == CacheAfter(dirs, fs, loaded, name)[ToS(name)]
  {
  }

  /**
   * Once a script is loaded, loading it again returns the first code even if
   * the file has changed or moved, and the cache stays as it is.
   */
  lemma LaterLoadsReturnFirstCode(dirs: seq<string>, fs: FileSystem, fs2: FileSystem, loaded: map<string, string>, name: ScriptName)
    requires LoadCode(dirs, fs, loaded, name).Success?
    requires FirstDir(dirs, fs2, ScriptFile(ToS(name))).Some?
    ensures LoadCode(dirs, fs2, CacheAfter(dirs, fs, loaded, name), name) == LoadCode(dirs, fs, loaded, name)
    ensures CacheAfter(dirs, fs2, CacheAfter(dirs, fs, loaded, name), name) == CacheAfter(dirs, fs, loaded, name)
  {
  }

  /** Read-only code is sent with `nolock: true`, read-write code with no option; otherwise the two commands are the same. */
  lemma ReadonlyDiffersOnlyInNolock(code: string, args: seq<Criterion>)
    ensures EvalCommand(code, args, ReadonlyOptions) == EvalCommand(code, args, map[])["nolock" := Setting(Bool(true))]
    ensures "nolock" !in EvalCommand(code, args, map[])
    ensures EvalCommand(code, args, map[]).Keys == {"$eval", "args"}
  {
    assert EvalCommand(code, args, map[]).Keys == {"$eval", "args"};
  }

  /** Each routine is its `_code` counterpart applied to the code `code_for` returns; a missing script reaches no server. */
  lemma RoutinesRunLoadedCode(dirs: seq<string>, fs: FileSystem, loaded: map<string, string>,
                              server: Command -> map<string, Value>, other: Command -> map<string, Value>,
                              name: ScriptName, args: seq<Criterion>)
    ensures LoadCode(dirs, fs, loaded, name).Success? ==>
      ReadonlyRoutine(dirs, fs, loaded, server, name, args) == ExecuteReadonlyCode(server, LoadCode(dirs, fs, loaded, name).value, args) &&
      ReadwriteRoutine(dirs, fs, loaded, server, name, args) == ExecuteReadwriteCode(server, LoadCode(dirs, fs, loaded, name).value, args)
    ensures LoadCode(dirs, fs, loaded, name).Failure? ==>
      ReadonlyRoutine(dirs, fs, loaded, server, name, args) == ReadonlyRoutine(dirs, fs, loaded, other, name, args) &&
      ReadonlyRoutine(dirs, fs, loaded, server, name, args) == Failure(LoadCode(dirs, fs, loaded, name).error) &&
      ReadwriteRoutine(dirs, fs, loaded, server, name, args) == Failure(LoadCode(dirs, fs, loaded, name).error)
  {
  }
}
