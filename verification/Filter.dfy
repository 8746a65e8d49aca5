/** internal/filter/filter.go. Regular expressions are opaque predicates on strings. */
module Filters {
  import opened Wrappers

  type Regex = string -> bool

  /** `FilterConfig`; patterns are kept as text until `Compile`. */
  datatype FilterConfig = FilterConfig(
    ignoreKernelThreads: bool,
    ignoreComm: seq<string>,
    ignoreCommPrefix: seq<string>,
    ignoreCommRegex: seq<string>,
    ignoreCmdlineRegex: seq<string>,
    ignoreUsers: seq<string>,
    includeOnly: seq<string>)
  {
    predicate NeedsCmdline() {
      |ignoreCmdlineRegex| > 0 || ignoreKernelThreads || |includeOnly| > 0
    }
  }

  datatype Filter = Filter(
    ignoreKernel: bool,
    ignoreComm: set<string>,
    ignorePrefix: seq<string>,
    ignoreRegex: seq<Regex>,
    ignoreCmd: seq<Regex>,
    ignoreUsers: set<string>,
    includeOnly: seq<Regex>,
    needsCmdline: bool)

  datatype Input = Input(comm: string, cmdline: seq<string>, user: string, ppid: int, isKernel: bool)

  /** The filter that keeps everything. */
  const NO_RULES := Filter(false, {}, [], [], [], {}, [], false)

  /** The filter that drops kernel threads and nothing else. */
  const NO_KERNEL := Filter(true, {}, [], [], [], {}, [], true)

  // ---- Compilation ----

  /** The compiler of one pattern; `None` is a syntax error. */
  type Compiler = string -> Option<Regex>

  datatype BadPattern = BadPattern(list: string, index: nat)

  ghost predicate AllCompile(compile: Compiler, patterns: seq<string>) {
    forall i :: 0 <= i < |patterns| ==> compile(patterns[i]).Some?
  }

  ghost predicate CompiledFrom(compile: Compiler, patterns: seq<string>, res: seq<Regex>) {
    |res| == |patterns| && forall i :: 0 <= i < |res| ==> compile(patterns[i]) == Some(res[i])
  }

  ghost predicate FirstBad(compile: Compiler, patterns: seq<string>, i: nat) {
    i < |patterns| && compile(patterns[i]).None? && AllCompile(compile, patterns[..i])
  }

  method CompileAll(compile: Compiler, list: string, patterns: seq<string>) returns (r: Result<seq<Regex>, BadPattern>)
    ensures r.Success? <==> AllCompile(compile, patterns)
    ensures r.Success? ==> CompiledFrom(compile, patterns, r.value)
    ensures r.Failure? ==> r.error.list == list && FirstBad(compile, patterns, r.error.index)
  {
    var out: seq<Regex> := [];
    for i := 0 to |patterns|
      invariant CompiledFrom(compile, patterns[..i], out)
      invariant forall j :: 0 <= j < i ==> compile(patterns[j]).Some?
    {
      match compile(patterns[i])
      case None => return Failure(BadPattern(list, i));
      case Some(re) => out := out + [re];
    }
    assert patterns[..|patterns|] == patterns;
    return Success(out);
  }

  ghost predicate IsCompilationOf(f: Filter, cfg: FilterConfig, compile: Compiler) {
    && f.ignoreKernel == cfg.ignoreKernelThreads
    && f.ignoreComm == (set c | c in cfg.ignoreComm)
    && f.ignorePrefix == cfg.ignoreCommPrefix
    && CompiledFrom(compile, cfg.ignoreCommRegex, f.ignoreRegex)
    && CompiledFrom(compile, cfg.ignoreCmdlineRegex, f.ignoreCmd)
    && f.ignoreUsers == (set u | u in cfg.ignoreUsers)
    && CompiledFrom(compile, cfg.includeOnly, f.includeOnly)
    && f.needsCmdline == cfg.NeedsCmdline()
  }

  /** The error names the first bad pattern, the lists being compiled in their order. */
  ghost predicate RefusedFor(cfg: FilterConfig, compile: Compiler, e: BadPattern) {
    if !AllCompile(compile, cfg.ignoreCommRegex) then
      e.list == "ignore_comm_regex" && FirstBad(compile, cfg.ignoreCommRegex, e.index)
    else if !AllCompile(compile, cfg.ignoreCmdlineRegex) then
      e.list == "ignore_cmdline_regex" && FirstBad(compile, cfg.ignoreCmdlineRegex, e.index)
    else e.list == "include_only" && FirstBad(compile, cfg.includeOnly, e.index)
  }

  /** `New`: a filter exists exactly when every pattern of all three lists compiles. */
  method New(cfg: FilterConfig, compile: Compiler) returns (r: Result<Filter, BadPattern>)
    ensures r.Success? <==>
            && AllCompile(compile, cfg.ignoreCommRegex)
            && AllCompile(compile, cfg.ignoreCmdlineRegex)
            && AllCompile(compile, cfg.includeOnly)
    ensures r.Success? ==> IsCompilationOf(r.value, cfg, compile)
    ensures r.Failure? ==> RefusedFor(cfg, compile, r.error)
  {
    var comm := CompileAll(compile, "ignore_comm_regex", cfg.ignoreCommRegex);
    if comm.Failure? { return Failure(comm.error); }
    var cmd := CompileAll(compile, "ignore_cmdline_regex", cfg.ignoreCmdlineRegex);
    if cmd.Failure? { return Failure(cmd.error); }
    var only := CompileAll(compile, "include_only", cfg.includeOnly);
    if only.Failure? { return Failure(only.error); }
    return Success(Filter(
      cfg.ignoreKernelThreads,
      (set c | c in cfg.ignoreComm),
      cfg.ignoreCommPrefix,
      comm.value,
      cmd.value,
      (set u | u in cfg.ignoreUsers),
      only.value,
      cfg.NeedsCmdline()));
  }

  // ---- Decision ----

  ghost predicate AnyMatch(res: seq<Regex>, s: string) {
    exists i :: 0 <= i < |res| && res[i](s)
  }

  ghost predicate AnyPrefix(prefixes: seq<string>, s: string) {
    exists i :: 0 <= i < |prefixes| && prefixes[i] <= s
  }

  function Join(words: seq<string>): string {
    if words == [] then ""
    else if |words| == 1 then words[0]
    else words[0] + " " + Join(words[1..])
  }

  predicate IsKernelThread(cmdline: seq<string>, ppid: int) {
    cmdline == [] || ppid == 2
  }

  /** The rules that can drop a process, each on its own. */
  ghost predicate NotIncluded(f: Filter, inp: Input) {
    && |f.includeOnly| > 0
    && !AnyMatch(f.includeOnly, inp.comm)
    && !AnyMatch(f.includeOnly, if inp.cmdline == [] then inp.comm else Join(inp.cmdline))
  }

  ghost predicate CommIgnored(f: Filter, comm: string) {
    comm in f.ignoreComm || AnyPrefix(f.ignorePrefix, comm) || AnyMatch(f.ignoreRegex, comm)
  }

  ghost predicate CmdlineIgnored(f: Filter, cmdline: seq<string>) {
    cmdline != [] && AnyMatch(f.ignoreCmd, Join(cmdline))
  }

  ghost predicate UserIgnored(f: Filter, user: string) {
    user != "" && user in f.ignoreUsers
  }

  /** A process is exported when no rule drops it. */
  ghost predicate Keeps(f: Filter, inp: Input) {
    && !NotIncluded(f, inp)
    && !(f.ignoreKernel && inp.isKernel)
    && !CommIgnored(f, inp.comm)
    && !CmdlineIgnored(f, inp.cmdline)
    && !UserIgnored(f, inp.user)
  }

  method MatchesAny(res: seq<Regex>, s: string) returns (hit: bool)
    ensures hit <==> AnyMatch(res, s)
  {
    for i := 0 to |res|
      invariant forall j :: 0 <= j < i ==> !res[j](s)
    {
      if res[i](s) { return true; }
    }
    return false;
  }

  /** The first rule that drops the process; none, if it is kept. */
  ghost function Reason(f: Filter, inp: Input): string {
    if NotIncluded(f, inp) then "include_only"
    else if f.ignoreKernel && inp.isKernel then "kernel_thread"
    else if inp.comm in f.ignoreComm then "ignore_comm"
    else if AnyPrefix(f.ignorePrefix, inp.comm) then "ignore_comm_prefix"
    else if AnyMatch(f.ignoreRegex, inp.comm) then "ignore_comm_regex"
    else if CmdlineIgnored(f, inp.cmdline) then "ignore_cmdline_regex"
    else if UserIgnored(f, inp.user) then "ignore_users"
    else ""
  }

  /** `Keep`: rules run in order and the first that applies names the reason. */
  method Keep(f: Filter, inp: Input) returns (keep: bool, reason: string)
    ensures keep <==> Keeps(f, inp)
    ensures reason == Reason(f, inp)
  {
    if |f.includeOnly| > 0 {
      var joined := inp.comm;
      if |inp.cmdline| > 0 {
        joined := Join(inp.cmdline);
      }
      var hit := false;
      for i := 0 to |f.includeOnly|
        invariant hit <==> exists j :: 0 <= j < i && (f.includeOnly[j](inp.comm) || f.includeOnly[j](joined))
      {
        if f.includeOnly[i](inp.comm) || f.includeOnly[i](joined) {
          hit := true;
          break;
        }
      }
      if !hit { return false, "include_only"; }
    }
    if f.ignoreKernel && inp.isKernel { return false, "kernel_thread"; }
    if inp.comm in f.ignoreComm { return false, "ignore_comm"; }
    for i := 0 to |f.ignorePrefix|
      invariant forall j :: 0 <= j < i ==> !(f.ignorePrefix[j] <= inp.comm)
    {
      if f.ignorePrefix[i] <= inp.comm { return false, "ignore_comm_prefix"; }
    }
    var hit := MatchesAny(f.ignoreRegex, inp.comm);
    if hit { return false, "ignore_comm_regex"; }
    if |f.ignoreCmd| > 0 && |inp.cmdline| > 0 {
      hit := MatchesAny(f.ignoreCmd, Join(inp.cmdline));
      if hit { return false, "ignore_cmdline_regex"; }
    }
    if inp.user != "" && inp.user in f.ignoreUsers { return false, "ignore_users"; }
    return true, "";
  }

  /** Rule by rule: what drops a process, and nothing else does. */
  lemma KeepsExactly(f: Filter, inp: Input)
    ensures Keeps(f, inp) <==>
              && (f.includeOnly == [] || exists i :: 0 <= i < |f.includeOnly| && Includes(f.includeOnly[i], inp))
              && !(f.ignoreKernel && inp.isKernel)
              && inp.comm !in f.ignoreComm
              && (forall i :: 0 <= i < |f.ignorePrefix| ==> !(f.ignorePrefix[i] <= inp.comm))
              && (forall i :: 0 <= i < |f.ignoreRegex| ==> !f.ignoreRegex[i](inp.comm))
              && (forall i :: 0 <= i < |f.ignoreCmd| && inp.cmdline != [] ==> !f.ignoreCmd[i](Join(inp.cmdline)))
              && (inp.user == "" || inp.user !in f.ignoreUsers)
  {
    if i :| 0 <= i < |f.includeOnly| && Includes(f.includeOnly[i], inp) {
      assert f.includeOnly[i](inp.comm) || f.includeOnly[i](Join(inp.cmdline));
    }
    if !NotIncluded(f, inp) && f.includeOnly != [] {
      var text := if inp.cmdline == [] then inp.comm else Join(inp.cmdline);
      var i :| 0 <= i < |f.includeOnly| && (f.includeOnly[i](inp.comm) || f.includeOnly[i](text));
      assert Includes(f.includeOnly[i], inp);
    }
  }

  /** A pattern of the positive list finds the comm or the arguments. */
  predicate Includes(re: Regex, inp: Input) {
    re(inp.comm) || (inp.cmdline != [] && re(Join(inp.cmdline)))
  }

  // ---- Lazy reading ----

  /** The decision taken with everything known. */
  ghost predicate EagerlyKeeps(f: Filter, comm: string, argv: seq<string>, user: string, ppid: int) {
    Keeps(f, Input(comm, argv, user, ppid, IsKernelThread(argv, ppid)))
  }

  /** What the scanner passes: without a read, no argv and never a kernel thread. */
  function LazyInput(read: bool, comm: string, argv: seq<string>, user: string, ppid: int): Input {
    Input(comm, if read then argv else [], user, ppid, read && IsKernelThread(argv, ppid))
  }

  /** `needsCmdline` is what the compiled rules require. */
  predicate Compiled(f: Filter) {
    f.needsCmdline <==> |f.ignoreCmd| > 0 || f.ignoreKernel || |f.includeOnly| > 0
  }

  lemma CompilationIsCompiled(f: Filter, cfg: FilterConfig, compile: Compiler)
    requires IsCompilationOf(f, cfg, compile)
    ensures Compiled(f)
  {
  }

  lemma LazyDecision(f: Filter, read: bool, comm: string, argv: seq<string>, user: string, ppid: int)
    requires Compiled(f) && (f.needsCmdline ==> read)
    ensures Keeps(f, LazyInput(read, comm, argv, user, ppid)) <==> EagerlyKeeps(f, comm, argv, user, ppid)
  {
  }

  /** Of the user only the rule on users knows. */
  lemma UserDecides(f: Filter, comm: string, argv: seq<string>, user: string, ppid: int)
    ensures EagerlyKeeps(f, comm, argv, user, ppid) <==> EagerlyKeeps(f, comm, argv, "", ppid) && !UserIgnored(f, user)
  {
  }

  /** Each of the three clauses of `NeedsCmdline` is needed: for any command line two
      decisions differ, so the lazy form would be wrong without that clause. */
  lemma EachClauseOfNeedsCmdlineIsNeeded(re: Regex, comm: string, argv: seq<string>)
    requires argv != [] && re(Join(argv)) && !re(comm)
    ensures var f := Filter(true, {}, [], [], [], {}, [], false);
            Keeps(f, LazyInput(false, comm, argv, "", 2)) && !EagerlyKeeps(f, comm, argv, "", 2)
    ensures var f := Filter(false, {}, [], [], [re], {}, [], false);
            Keeps(f, LazyInput(false, comm, argv, "", 1)) && !EagerlyKeeps(f, comm, argv, "", 1)
    ensures var f := Filter(false, {}, [], [], [], {}, [re], false);
            !Keeps(f, LazyInput(false, comm, argv, "", 1)) && EagerlyKeeps(f, comm, argv, "", 1)
  {
    var f := Filter(false, {}, [], [], [re], {}, [], false);
    assert f.ignoreCmd[0](Join(argv));
    var g := Filter(false, {}, [], [], [], {}, [re], false);
    assert g.includeOnly[0](Join(argv));
  }

  /** No pattern list is set, or the comm alone is on it. */
  ghost predicate CommIncluded(f: Filter, comm: string) {
    f.includeOnly == [] || AnyMatch(f.includeOnly, comm)
  }

  /** The decision without arguments, taken for a kernel thread. */
  lemma ArglessDecision(f: Filter, comm: string, user: string, ppid: int)
    ensures Keeps(f, LazyInput(true, comm, [], user, ppid)) <==>
              !f.ignoreKernel && CommIncluded(f, comm) && !CommIgnored(f, comm) && !UserIgnored(f, user)
  {
    var inp := LazyInput(true, comm, [], user, ppid);
    assert inp.isKernel && !CmdlineIgnored(f, inp.cmdline);
    assert NotIncluded(f, inp) <==> f.includeOnly != [] && !AnyMatch(f.includeOnly, comm);
  }

  /** The arguments do not matter: the comm or the user alone drops the process; or it is
      dropped without its arguments, and some rule drops it with them; or it is kept
      without them, and no rule on them drops it. */
  ghost predicate ArgsDoNotMatter(f: Filter, comm: string, argv: seq<string>, user: string, ppid: int) {
    || CommIgnored(f, comm) || UserIgnored(f, user)
    || (if f.ignoreKernel || !CommIncluded(f, comm) then
          || (f.ignoreKernel && IsKernelThread(argv, ppid))
          || CmdlineIgnored(f, argv)
          || NotIncluded(f, Input(comm, argv, user, ppid, false))
        else !CmdlineIgnored(f, argv))
  }

  lemma ArglessIsRight(f: Filter, comm: string, argv: seq<string>, user: string, ppid: int)
    ensures (Keeps(f, LazyInput(true, comm, [], user, ppid)) <==> EagerlyKeeps(f, comm, argv, user, ppid)) <==>
            ArgsDoNotMatter(f, comm, argv, user, ppid)
  {
    ArglessDecision(f, comm, user, ppid);
    var inp := Input(comm, argv, user, ppid, IsKernelThread(argv, ppid));
    assert NotIncluded(f, inp) <==> NotIncluded(f, Input(comm, argv, user, ppid, false));
    if CommIncluded(f, comm) {
      assert !NotIncluded(f, inp);
    }
  }
}
