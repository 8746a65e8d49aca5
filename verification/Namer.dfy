/** internal/namer/namer.go: the group name of a process. Patterns are opaque; an
    extraction is an opaque function from source text and template to the expansion,
    `None` when the pattern does not match. */
module Namers {
  import opened Wrappers
  import opened Filters

  type Extractor = (string, string) -> Option<string>

  datatype Rule = Rule(
    matchComm: string,
    matchCommPrefix: string,
    matchCommRegex: Option<Regex>,
    matchExeRegex: Option<Regex>,
    from: string,
    extract: Option<Extractor>,
    template: string)

  datatype Namer = Namer(rules: seq<Rule>, fallback: string)

  datatype NameInput = NameInput(comm: string, exe: string, cmdline: seq<string>)

  predicate Matches(r: Rule, inp: NameInput) {
    && (r.matchComm != "" ==> inp.comm == r.matchComm)
    && (r.matchCommPrefix != "" ==> r.matchCommPrefix <= inp.comm)
    && (r.matchCommRegex.Some? ==> r.matchCommRegex.value(inp.comm))
    && (r.matchExeRegex.Some? ==> inp.exe != "" && r.matchExeRegex.value(inp.exe))
  }

  function SourceText(from: string, inp: NameInput): string {
    if from == "comm" then inp.comm
    else if from == "exe" then inp.exe
    else Join(inp.cmdline)
  }

  /** `applyRule`: an empty source text, a failed match and an empty expansion all
      leave the name to the next rule. */
  function ApplyRule(r: Rule, inp: NameInput): Option<string> {
    match r.extract
    case None => Some(r.template)
    case Some(expand) =>
      var text := SourceText(r.from, inp);
      if text == "" then None
      else
        var out := expand(text, r.template);
        if out == Some("") then None else out
  }

  /** The name a rule gives to a process, if it gives one. */
  function RuleName(r: Rule, inp: NameInput): Option<string> {
    if Matches(r, inp) then ApplyRule(r, inp) else None
  }

  /** `filepath.Base` */
  function Base(path: string): (b: string)
    ensures b != ""
    decreases |path|
  {
    if path == "" then "."
    else if path == "/" then "/"
    else if path[|path| - 1] == '/' then Base(path[..|path| - 1])
    else AfterLastSlash(path)
  }

  function AfterLastSlash(path: string): (b: string)
    requires path != "" && path[|path| - 1] != '/'
    ensures b != "" && '/' !in b
  {
    if |path| == 1 || path[|path| - 2] == '/' then [path[|path| - 1]]
    else AfterLastSlash(path[..|path| - 1]) + [path[|path| - 1]]
  }

  function FallbackName(fallback: string, inp: NameInput): (name: string)
    ensures name != ""
  {
    if fallback == "exe_basename" && inp.exe != "" then Base(inp.exe)
    else if fallback == "exe_basename" && inp.cmdline != [] then Base(inp.cmdline[0])
    else if fallback == "cmdline_basename" && inp.cmdline != [] then Base(inp.cmdline[0])
    else if fallback == "cmdline_basename" && inp.exe != "" then Base(inp.exe)
    else if inp.comm != "" then inp.comm
    else if inp.exe != "" then Base(inp.exe)
    else if inp.cmdline != [] then Base(inp.cmdline[0])
    else "unknown"
  }

  // ---- Sanitising ----

  const MAX_NAME_LEN := 128

  predicate Plain(c: char) {
    'a' <= c <= 'z' || 'A' <= c <= 'Z' || '0' <= c <= '9' || c == '_' || c == '.' || c == '/' || c == '-'
  }

  function Replaced(s: string): (r: string)
    ensures |r| == |s| && forall i :: 0 <= i < |s| ==> r[i] == if Plain(s[i]) then s[i] else '_'
  {
    seq(|s|, i requires 0 <= i < |s| => if Plain(s[i]) then s[i] else '_')
  }

  /** `strings.Trim(s, "_")` */
  function Trim(s: string): (t: string)
    ensures |t| <= |s|
    ensures t != "" ==> t[0] != '_' && t[|t| - 1] != '_'
    ensures forall c :: c in t ==> c in s
    decreases |s|
  {
    if s == "" then ""
    else if s[0] == '_' then Trim(s[1..])
    else if s[|s| - 1] == '_' then Trim(s[..|s| - 1])
    else s
  }

  function Sanitized(s: string): string {
    var out := Trim(Replaced(if |s| > MAX_NAME_LEN then s[..MAX_NAME_LEN] else s));
    if out == "" then "unknown" else out
  }

  /** What every label value satisfies. */
  ghost predicate Label(s: string) {
    && 0 < |s| <= MAX_NAME_LEN
    && (forall i :: 0 <= i < |s| ==> Plain(s[i]))
    && s[0] != '_' && s[|s| - 1] != '_'
  }

  /** Every sanitised name is a label, a label is left alone, and so sanitising twice
      is sanitising once. */
  lemma SanitizedIsLabel(s: string)
    ensures Label(Sanitized(s))
    ensures Label(s) ==> Sanitized(s) == s
    ensures Sanitized(Sanitized(s)) == Sanitized(s)
  {
    var cut := if |s| > MAX_NAME_LEN then s[..MAX_NAME_LEN] else s;
    var out := Trim(Replaced(cut));
    assert forall c :: c in Replaced(cut) ==> Plain(c);
    if out != "" {
      assert forall i :: 0 <= i < |out| ==> out[i] in out;
    }
    LabelUnchanged(Sanitized(s));
    if Label(s) { LabelUnchanged(s); }
  }

  lemma LabelUnchanged(s: string)
    requires Label(s)
    ensures Sanitized(s) == s
  {
    assert Replaced(s) == s;
  }

  /** `Sanitize`: cut, replace byte by byte, trim, and never leave it empty. */
  method Sanitize(s: string) returns (r: string)
    ensures r == Sanitized(s)
  {
    if s == "" {
      return "unknown";
    }
    var cut := s;
    if |cut| > MAX_NAME_LEN {
      cut := cut[..MAX_NAME_LEN];
    }
    var b := "";
    for i := 0 to |cut|
      invariant b == Replaced(cut)[..i]
    {
      if Plain(cut[i]) {
        b := b + [cut[i]];
      } else {
        b := b + ['_'];
      }
    }
    assert b == Replaced(cut);
    var out := Trim(b);
    if out == "" {
      return "unknown";
    }
    return out;
  }

  // ---- The cascade ----

  function RawName(rules: seq<Rule>, fallback: string, inp: NameInput): string {
    if rules == [] then FallbackName(fallback, inp)
    else match RuleName(rules[0], inp)
      case Some(name) => name
      case None => RawName(rules[1..], fallback, inp)
  }

  function GroupName(n: Namer, inp: NameInput): string {
    Sanitized(RawName(n.rules, n.fallback, inp))
  }

  ghost predicate NoneNames(rules: seq<Rule>, inp: NameInput) {
    forall j :: 0 <= j < |rules| ==> RuleName(rules[j], inp).None?
  }

  /** The first rule that both matches and extracts decides: a rule that matches but
      does not extract falls through, and only when no rule names the process does
      the fallback. */
  lemma {:induction false} FirstRuleWins(rules: seq<Rule>, fallback: string, inp: NameInput, i: nat)
    requires i <= |rules| && NoneNames(rules[..i], inp)
    requires i < |rules| ==> RuleName(rules[i], inp).Some?
    ensures RawName(rules, fallback, inp) ==
            if i < |rules| then RuleName(rules[i], inp).value else FallbackName(fallback, inp)
    decreases i
  {
    if i > 0 {
      assert RuleName(rules[..i][0], inp).None?;
      assert rules[1..][..i - 1] == rules[..i][1..];
      FirstRuleWins(rules[1..], fallback, inp, i - 1);
    }
  }

  // ---- What the name is ----

  /** `b` is the last element of a path: between slashes, and followed by nothing else. */
  ghost predicate LastElement(path: string, b: string) {
    exists i, j :: ElementAt(path, b, i, j)
  }

  predicate ElementAt(path: string, b: string, i: int, j: int) {
    && 0 <= i < j <= |path| && b == path[i..j] && '/' !in b
    && (i == 0 || path[i - 1] == '/')
    && (forall k :: j <= k < |path| ==> path[k] == '/')
  }

  predicate OnlySlashes(path: string) {
    forall k :: 0 <= k < |path| ==> path[k] == '/'
  }

  /** The base name of a path: its last element, or what stands for none. */
  ghost predicate BaseLaw(path: string, b: string) {
    if path == "" then b == "."
    else if OnlySlashes(path) then b == "/"
    else LastElement(path, b)
  }

  lemma {:induction false} AfterLastSlashIs(path: string) returns (i: nat)
    requires path != "" && path[|path| - 1] != '/'
    ensures ElementAt(path, AfterLastSlash(path), i, |path|)
  {
    var n := |path| - 1;
    if n == 0 || path[n - 1] == '/' {
      i := n;
    } else {
      var init := path[..n];
      assert init[n - 1] == path[n - 1];
      i := AfterLastSlashIs(init);
      assert i > 0 ==> init[i - 1] == path[i - 1];
      assert AfterLastSlash(path) == AfterLastSlash(init) + [path[n]];
      assert init[i..n] + [path[n]] == path[i..|path|];
    }
  }

  lemma ElementBeforeSlash(path: string, b: string)
    requires path != "" && path[|path| - 1] == '/' && LastElement(path[..|path| - 1], b)
    ensures LastElement(path, b)
  {
    var init := path[..|path| - 1];
    var i, j :| ElementAt(init, b, i, j);
    assert path[i..j] == init[i..j];
    assert ElementAt(path, b, i, j);
  }

  lemma {:induction false} BaseIs(path: string)
    ensures BaseLaw(path, Base(path))
    decreases |path|
  {
    if path != "" && path != "/" {
      var n := |path| - 1;
      if path[n] != '/' {
        var i := AfterLastSlashIs(path);
      } else {
        BaseIs(path[..n]);
        assert OnlySlashes(path) <==> OnlySlashes(path[..n]);
        if !OnlySlashes(path) {
          ElementBeforeSlash(path, Base(path));
        }
      }
    }
  }

  /** A path has one base name. */
  lemma BaseIsUnique(path: string, b: string, c: string)
    requires BaseLaw(path, b) && BaseLaw(path, c)
    ensures b == c
  {
    if path != "" && !OnlySlashes(path) {
      var i, j :| ElementAt(path, b, i, j);
      var g, h :| ElementAt(path, c, g, h);
      SameElement(path, b, c, i, j, g, h);
    }
  }

  lemma SameElement(path: string, b: string, c: string, i: int, j: int, g: int, h: int)
    requires ElementAt(path, b, i, j) && ElementAt(path, c, g, h)
    ensures i == g && j == h
  {
    assert forall k :: i <= k < j ==> path[k] == b[k - i] && b[k - i] in b;
    assert forall k :: g <= k < h ==> path[k] == c[k - g] && c[k - g] in c;
    assert path[j - 1] != '/' && path[h - 1] != '/';
  }

  /** The name is the sanitised base name of the path. */
  ghost predicate NamedAfter(path: string, name: string) {
    exists b :: BaseLaw(path, b) && name == Sanitized(b)
  }

  /** Without a rule: the executable or the program name, as preferred, if there is one; then
      comm; then whatever there is. */
  ghost predicate FallbackLaw(fallback: string, inp: NameInput, name: string) {
    var exe, arg0 := inp.exe != "", inp.cmdline != [];
    if fallback == "exe_basename" && exe then NamedAfter(inp.exe, name)
    else if fallback == "cmdline_basename" && arg0 then NamedAfter(inp.cmdline[0], name)
    else if (fallback == "exe_basename" || fallback == "cmdline_basename") && (exe || arg0) then
      NamedAfter(if exe then inp.exe else inp.cmdline[0], name)
    else if inp.comm != "" then name == Sanitized(inp.comm)
    else if exe || arg0 then NamedAfter(if exe then inp.exe else inp.cmdline[0], name)
    else name == "unknown"
  }

  lemma FallbackIs(fallback: string, inp: NameInput)
    ensures FallbackLaw(fallback, inp, Sanitized(FallbackName(fallback, inp)))
  {
    BaseIs(inp.exe);
    if inp.cmdline != [] {
      BaseIs(inp.cmdline[0]);
    }
    LabelUnchanged("unknown");
  }

  /** All the conditions the rule sets hold of the process. */
  predicate MeetsConditions(r: Rule, inp: NameInput) {
    && (r.matchComm == "" || r.matchComm == inp.comm)
    && |r.matchCommPrefix| <= |inp.comm| && inp.comm[..|r.matchCommPrefix|] == r.matchCommPrefix
    && (r.matchCommRegex == None || r.matchCommRegex.value(inp.comm))
    && (r.matchExeRegex == None || (inp.exe != "" && r.matchExeRegex.value(inp.exe)))
  }

  /** A rule names a process whose conditions it meets: by its template, if it extracts
      nothing; otherwise by the expansion over the text it reads, if that text is there, is
      matched, and gives a name. */
  lemma RuleLaw(r: Rule, inp: NameInput, text: string)
    requires r.from == "comm" ==> text == inp.comm
    requires r.from == "exe" ==> text == inp.exe
    requires r.from != "comm" && r.from != "exe" ==> text == Join(inp.cmdline)
    ensures RuleName(r, inp).Some? ==> MeetsConditions(r, inp)
    ensures MeetsConditions(r, inp) && r.extract.None? ==> RuleName(r, inp) == Some(r.template)
    ensures MeetsConditions(r, inp) && r.extract.Some? && text != ""
            && r.extract.value(text, r.template) != Some("") ==>
              RuleName(r, inp) == r.extract.value(text, r.template)
    ensures r.extract.Some? && (text == "" || r.extract.value(text, r.template) == Some("")) ==> RuleName(r, inp).None?
  {
  }

  /** Words are joined by single spaces. */
  lemma {:induction false} JoinSnoc(words: seq<string>, w: string)
    ensures Join([w]) == w && Join([]) == ""
    ensures words != [] ==> Join(words + [w]) == Join(words) + " " + w
  {
    if |words| == 1 {
      assert (words + [w])[1..] == [w];
    } else if words != [] {
      assert (words + [w])[1..] == words[1..] + [w];
      JoinSnoc(words[1..], w);
    }
  }

  /** The name of a process: from the first rule that names it, or else the fallback. */
  ghost predicate NameLaw(n: Namer, inp: NameInput, name: string) {
    && (forall i :: 0 <= i < |n.rules| && NoneNames(n.rules[..i], inp) && RuleName(n.rules[i], inp).Some? ==>
          name == Sanitized(RuleName(n.rules[i], inp).value))
    && (NoneNames(n.rules, inp) ==> FallbackLaw(n.fallback, inp, name))
  }

  lemma NameIs(n: Namer, inp: NameInput)
    ensures NameLaw(n, inp, GroupName(n, inp))
  {
    forall i | 0 <= i < |n.rules| && NoneNames(n.rules[..i], inp) && RuleName(n.rules[i], inp).Some?
      ensures GroupName(n, inp) == Sanitized(RuleName(n.rules[i], inp).value)
    {
      FirstRuleWins(n.rules, n.fallback, inp, i);
    }
    if NoneNames(n.rules, inp) {
      assert n.rules[..|n.rules|] == n.rules;
      FirstRuleWins(n.rules, n.fallback, inp, |n.rules|);
      FallbackIs(n.fallback, inp);
    }
  }

  // ---- What sanitising does ----

  /** The text at a place that sanitising strips: an underscore, or what becomes one. */
  predicate Stripped(s: string, k: int)
    requires 0 <= k < |s|
  {
    s[k] == '_' || !Plain(s[k])
  }

  /** `r` is what is left of the first 128 characters, from the first that is kept to the
      last, with an underscore for each that is not allowed. */
  ghost predicate SanitizedLaw(s: string, r: string) {
    var n := if |s| > 128 then 128 else |s|;
    exists i, j :: 0 <= i <= j <= n && Kernel(s, r, n, i, j)
  }

  ghost predicate Kernel(s: string, r: string, n: int, i: int, j: int)
    requires 0 <= i <= j <= n <= |s|
  {
    && (forall k :: 0 <= k < i || j <= k < n ==> Stripped(s, k))
    && (if i == j then r == "unknown"
        else
          && !Stripped(s, i) && !Stripped(s, j - 1)
          && |r| == j - i && forall k :: i <= k < j ==> r[k - i] == if Plain(s[k]) then s[k] else '_')
  }

  lemma {:induction false} TrimIs(s: string) returns (i: nat, j: nat)
    ensures i <= j <= |s| && Trim(s) == s[i..j]
    ensures forall k :: 0 <= k < i || j <= k < |s| ==> s[k] == '_'
    ensures i < j ==> s[i] != '_' && s[j - 1] != '_'
    decreases |s|
  {
    if s == "" {
      i, j := 0, 0;
    } else if s[0] == '_' {
      i, j := TrimIs(s[1..]);
      i, j := i + 1, j + 1;
      assert forall k :: 1 <= k < |s| ==> s[k] == s[1..][k - 1];
    } else if s[|s| - 1] == '_' {
      i, j := TrimIs(s[..|s| - 1]);
      assert forall k :: 0 <= k < |s| - 1 ==> s[k] == s[..|s| - 1][k];
    } else {
      i, j := 0, |s|;
    }
  }

  lemma KernelIs(s: string, n: nat, i: nat, j: nat, out: string)
    requires n == (if |s| > 128 then 128 else |s|) && i <= j <= n
    requires forall k :: 0 <= k < i || j <= k < n ==> Replaced(s[..n])[k] == '_'
    requires i < j ==> Replaced(s[..n])[i] != '_' && Replaced(s[..n])[j - 1] != '_'
    requires out == Replaced(s[..n])[i..j]
    ensures Kernel(s, if out == "" then "unknown" else out, n, i, j)
  {
    forall k | 0 <= k < n ensures Replaced(s[..n])[k] == if Plain(s[k]) then s[k] else '_' {
      assert s[..n][k] == s[k];
    }
  }

  lemma SanitizedIs(s: string)
    ensures SanitizedLaw(s, Sanitized(s))
  {
    var n := if |s| > 128 then 128 else |s|;
    var i, j := TrimIs(Replaced(s[..n]));
    assert s[..|s|] == s;
    KernelIs(s, n, i, j, Trim(Replaced(s[..n])));
  }

  /** The rules in order, and then the fallback. */
  method Cascade(n: Namer, inp: NameInput) returns (name: string)
    ensures name == GroupName(n, inp)
  {
    for i := 0 to |n.rules|
      invariant NoneNames(n.rules[..i], inp)
    {
      if Matches(n.rules[i], inp) {
        match ApplyRule(n.rules[i], inp)
        case Some(found) =>
          FirstRuleWins(n.rules, n.fallback, inp, i);
          name := Sanitize(found);
          return;
        case None =>
      }
    }
    FirstRuleWins(n.rules, n.fallback, inp, |n.rules|);
    name := Sanitize(FallbackName(n.fallback, inp));
  }

  /** `Name`: the name is never empty, so an empty cached name can stand for "not cached". */
  method Name(n: Namer, inp: NameInput) returns (name: string)
    ensures name == GroupName(n, inp)
    ensures Label(name) && NameLaw(n, inp, name)
  {
    name := Cascade(n, inp);
    NameIs(n, inp);
    SanitizedIsLabel(RawName(n.rules, n.fallback, inp));
  }
}
