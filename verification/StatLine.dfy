/** internal/procfs/stat.go: the parser of /proc/<pid>/stat and the line it inverts.
    Strings are byte strings, one `char` per byte. */
module StatLine {
  import opened Wrappers
  import opened Decimal
  import opened Procfs

  // ---- The string operations the parser is made of ----

  /** The white space of `strings.Fields` and `strings.TrimSpace` on ASCII input. */
  predicate IsSpace(c: char) {
    c == ' ' || '\t' <= c <= '\r'
  }

  function IndexByte(s: string, c: char): (i: int)
    ensures -1 <= i < |s|
    ensures i >= 0 ==> s[i] == c
  {
    if s == [] then -1
    else if s[0] == c then 0
    else var i := IndexByte(s[1..], c); if i < 0 then -1 else i + 1
  }

  function LastIndexByte(s: string, c: char): (i: int)
    ensures -1 <= i < |s|
    ensures i >= 0 ==> s[i] == c
  {
    if s == [] then -1
    else if s[|s| - 1] == c then |s| - 1
    else LastIndexByte(s[..|s| - 1], c)
  }

  function TrimSpace(s: string): (t: string)
    ensures t != [] ==> !IsSpace(t[0]) && !IsSpace(t[|t| - 1])
  {
    if s == [] then []
    else if IsSpace(s[0]) then TrimSpace(s[1..])
    else if IsSpace(s[|s| - 1]) then TrimSpace(s[..|s| - 1])
    else s
  }

  /** Splits `s` around runs of white space; `word` is the word being read. */
  function FieldsFrom(word: string, s: string): seq<string>
    decreases |s|
  {
    var done := if word == [] then [] else [word];
    if s == [] then done
    else if IsSpace(s[0]) then done + FieldsFrom([], s[1..])
    else FieldsFrom(word + [s[0]], s[1..])
  }

  function Fields(s: string): seq<string> { FieldsFrom([], s) }

  datatype Parsed = Parsed(value: int, ok: bool)

  /** `strconv.Atoi`: a range error still yields the nearest 64-bit value. */
  function Atoi(s: string): (p: Parsed)
    ensures -MAX_INT64 - 1 <= p.value <= MAX_INT64
  {
    var neg := s != [] && s[0] == '-';
    var digits := if s != [] && (s[0] == '-' || s[0] == '+') then s[1..] else s;
    match ParseUint(digits)
    case BadSyntax => Parsed(0, false)
    case OutOfRange => Parsed(if neg then -MAX_INT64 - 1 else MAX_INT64, false)
    case Value(n) =>
      var minus: int := -(n as int);
      if neg then (if n > MAX_INT64 + 1 then Parsed(-MAX_INT64 - 1, false) else Parsed(minus, true))
      else (if n > MAX_INT64 then Parsed(MAX_INT64, false) else Parsed(n, true))
  }

  /** `u64` of the parser: the error is dropped, so a bad numeral reads as zero and an
      overlong one as the largest 64-bit value. */
  function U64(s: string): (n: nat)
    ensures n <= MAX_UINT64
  {
    match ParseUint(s)
    case Value(n) => n
    case BadSyntax => 0
    case OutOfRange => MAX_UINT64
  }

  datatype ParseError = MalformedComm | MalformedPid | TooFewFields(got: nat)

  /** Field number `n` of proc(5), given the fields after comm (which start at 3). */
  function Field(rest: seq<string>, n: int): string {
    var i := n - 3;
    if i < 0 || i >= |rest| then "" else rest[i]
  }

  /** The record built from the fields after comm. */
  function Decode(pid: int, comm: string, rest: seq<string>): Stat {
    Stat(
      pid,
      comm,
      if Field(rest, 3) != "" then Field(rest, 3)[0] else 0 as char,
      Atoi(Field(rest, 4)).value,
      U64(Field(rest, 10)),
      U64(Field(rest, 12)),
      U64(Field(rest, 14)),
      U64(Field(rest, 15)),
      Atoi(Field(rest, 20)).value,
      U64(Field(rest, 22)),
      U64(Field(rest, 23)),
      U64(Field(rest, 24)))
  }

  function ParseStat(s: string): Result<Stat, ParseError> {
    var open := IndexByte(s, '(');
    var close := LastIndexByte(s, ')');
    if open < 0 || close < 0 || close < open then Failure(MalformedComm)
    else
      var pid := Atoi(TrimSpace(s[..open]));
      if !pid.ok then Failure(MalformedPid)
      else
        var rest := Fields(s[close + 1..]);
        if |rest| < 20 then Failure(TooFewFields(|rest|))
        else Success(Decode(pid.value, s[open + 1..close], rest))
  }

  /** The three pieces the parser cuts a line into. */
  predicate Pieces(s: string, pid: int, comm: string, rest: seq<string>) {
    var open, close := IndexByte(s, '('), LastIndexByte(s, ')');
    && 0 <= open < close
    && Atoi(TrimSpace(s[..open])) == Parsed(pid, true)
    && s[open + 1..close] == comm
    && Fields(s[close + 1..]) == rest
  }

  lemma ParseOfPieces(s: string, pid: int, comm: string, rest: seq<string>)
    requires Pieces(s, pid, comm, rest)
    ensures ParseStat(s) == if |rest| < 20 then Failure(TooFewFields(|rest|)) else Success(Decode(pid, comm, rest))
  {
  }

  /** A line is refused for its comm exactly when no opening parenthesis comes before a
      closing one. */
  lemma RefusedForComm(s: string)
    ensures ParseStat(s) == Failure(MalformedComm) <==>
            forall i, j :: 0 <= i < j < |s| ==> !(s[i] == '(' && s[j] == ')')
  {
    IndexIsFirst(s, '(');
    LastIndexIsLast(s, ')');
    var open, close := IndexByte(s, '('), LastIndexByte(s, ')');
    if open >= 0 && close >= 0 && open < close {
      assert s[open] == '(' && s[close] == ')';
    }
  }

  lemma {:induction false} IndexIsFirst(s: string, c: char)
    ensures var i := IndexByte(s, c);
            if i < 0 then forall k :: 0 <= k < |s| ==> s[k] != c
            else s[i] == c && forall k :: 0 <= k < i ==> s[k] != c
  {
    if s != [] && s[0] != c {
      IndexIsFirst(s[1..], c);
      assert forall k :: 1 <= k < |s| ==> s[k] == s[1..][k - 1];
    }
  }

  lemma {:induction false} LastIndexIsLast(s: string, c: char)
    ensures var i := LastIndexByte(s, c);
            if i < 0 then forall k :: 0 <= k < |s| ==> s[k] != c
            else s[i] == c && forall k :: i < k < |s| ==> s[k] != c
  {
    if s != [] && s[|s| - 1] != c {
      LastIndexIsLast(s[..|s| - 1], c);
      assert forall k :: 0 <= k < |s| - 1 ==> s[k] == s[..|s| - 1][k];
    }
  }

  /** A numeral beyond 64 bits reads as the largest value there is. */
  lemma {:induction false} NumeralSaturates(n: nat)
    ensures U64(Numeral(n)) == if n <= MAX_UINT64 then n else MAX_UINT64
  {
    if n <= MAX_UINT64 {
      ParsePrinted(n);
    } else {
      ParseTooLarge(n);
    }
  }

  lemma {:induction false} ParseTooLarge(n: nat)
    requires n > MAX_UINT64
    ensures ParseUint(Numeral(n)) == OutOfRange
  {
    var init, last := Numeral(n / 10), Digit(n % 10);
    assert Numeral(n) == init + [last];
    if n / 10 > MAX_UINT64 {
      ParseTooLarge(n / 10);
      StaysOutOfRange(init, last, 0);
    } else {
      ParsePrinted(n / 10);
      ScanDigitsAppend(init, last, 0);
    }
  }

  lemma {:induction false} StaysOutOfRange(s: string, c: char, acc: nat)
    requires ScanDigits(s, acc).OutOfRange?
    ensures ScanDigits(s + [c], acc).OutOfRange?
  {
    assert (s + [c])[1..] == s[1..] + [c];
    if acc * 10 + DigitValue(s[0]) <= MAX_UINT64 {
      StaysOutOfRange(s[1..], c, acc * 10 + DigitValue(s[0]));
    }
  }

  // ---- What the kernel prints ----

  /** A word of the line after comm: printable, so neither a space nor a parenthesis. */
  predicate Word(w: string) {
    w != [] && forall c :: c in w ==> !IsSpace(c) && c != ')'
  }

  predicate AllWords(words: seq<string>) {
    forall i :: 0 <= i < |words| ==> Word(words[i])
  }

  /** Each word preceded by one space. */
  function Spaced(words: seq<string>): string {
    if words == [] then [] else " " + words[0] + Spaced(words[1..])
  }

  /** The kernel's line: pid, comm in parentheses, the remaining fields, newline. */
  function Line(pid: nat, comm: string, words: seq<string>): string {
    Head(pid) + "(" + comm + ")" + Tail(words)
  }

  function Head(pid: nat): string { Numeral(pid) + " " }

  function Tail(words: seq<string>): string { Spaced(words) + "\n" }

  lemma {:induction false} FieldsOfWord(word: string, w: string, rest: string)
    requires forall c :: c in w ==> !IsSpace(c)
    ensures FieldsFrom(word, w + rest) == FieldsFrom(word + w, rest)
    decreases |w|
  {
    if w == [] {
      assert w + rest == rest && word + w == word;
    } else {
      assert (w + rest)[1..] == w[1..] + rest;
      assert word + [w[0]] + w[1..] == word + w;
      FieldsOfWord(word + [w[0]], w[1..], rest);
    }
  }

  lemma FieldsOfSpacedWord(word: string, w: string, tail: string)
    requires Word(w)
    ensures FieldsFrom(word, [' '] + w + tail) == (if word == [] then [] else [word]) + FieldsFrom(w, tail)
  {
    var s := [' '] + w + tail;
    assert s[1..] == w + tail;
    FieldsOfWord([], w, tail);
    assert [] + w == w;
  }

  lemma {:induction false} FieldsOfSpaced(word: string, words: seq<string>)
    requires AllWords(words)
    ensures FieldsFrom(word, Tail(words)) == (if word == [] then [] else [word]) + words
    decreases |words|
  {
    if words == [] {
      assert Tail(words) == ['\n'];
      assert FieldsFrom([], ['\n'][1..]) == [];
    } else {
      var w, tail := words[0], Tail(words[1..]);
      assert Tail(words) == [' '] + w + tail;
      FieldsOfSpacedWord(word, w, tail);
      FieldsOfSpaced(w, words[1..]);
      assert [w] + words[1..] == words;
    }
  }

  lemma {:induction false} SpacedHasNoParenthesis(words: seq<string>)
    requires AllWords(words)
    ensures ')' !in Spaced(words)
    decreases |words|
  {
    if words != [] {
      assert Word(words[0]);
      SpacedHasNoParenthesis(words[1..]);
    }
  }

  lemma {:induction false} FirstIndex(a: string, c: char, tail: string)
    requires c !in a
    ensures IndexByte(a + [c] + tail, c) == |a|
  {
    if a == [] {
      assert a + [c] + tail == [c] + tail;
    } else {
      assert (a + [c] + tail)[1..] == a[1..] + [c] + tail;
      FirstIndex(a[1..], c, tail);
    }
  }

  lemma {:induction false} LastIndex(a: string, c: char, tail: string)
    requires c !in tail
    ensures LastIndexByte(a + [c] + tail, c) == |a|
    decreases |tail|
  {
    var s := a + [c] + tail;
    if tail == [] {
      assert s[|s| - 1] == c;
    } else {
      assert s[|s| - 1] == tail[|tail| - 1];
      assert s[..|s| - 1] == a + [c] + tail[..|tail| - 1];
      LastIndex(a, c, tail[..|tail| - 1]);
    }
  }

  /** Where the parser cuts a printed line: comm may hold spaces and parentheses. */
  lemma Cuts(head: string, comm: string, tail: string)
    requires '(' !in head && ')' !in tail
    ensures var s := head + "(" + comm + ")" + tail;
            var close := |head| + 1 + |comm|;
            && IndexByte(s, '(') == |head| && LastIndexByte(s, ')') == close
            && s[..|head|] == head
            && s[|head| + 1..close] == comm
            && s[close + 1..] == tail
  {
    var s := head + "(" + comm + ")" + tail;
    FirstIndex(head, '(', comm + ")" + tail);
    assert s == head + ['('] + (comm + ")" + tail);
    LastIndex(head + "(" + comm, ')', tail);
    assert s == (head + "(" + comm) + [')'] + tail;
  }

  /** The parser's three pieces of a printed line. */
  lemma LinePieces(pid: nat, comm: string, words: seq<string>)
    requires pid <= MAX_INT64
    requires AllWords(words)
    ensures Pieces(Line(pid, comm, words), pid, comm, words)
  {
    SpacedHasNoParenthesis(words);
    Cuts(Head(pid), comm, Tail(words));
    PidParses(pid);
    FieldsOfSpaced([], words);
  }

  lemma PidParses(pid: nat)
    requires pid <= MAX_INT64
    ensures Atoi(TrimSpace(Head(pid))) == Parsed(pid, true)
  {
    var s := Numeral(pid);
    assert IsDigit(s[0]) && IsDigit(s[|s| - 1]) && (s + " ")[0] == s[0];
    assert (s + " ")[..|s|] == s;
    assert TrimSpace(s + " ") == TrimSpace(s) == s;
    ParsePrinted(pid);
  }

  /** A printed line is accepted exactly when 20 fields follow comm, and then it is
      decoded from its own pid, comm and fields, whatever bytes comm holds. */
  lemma ParsePrintedLine(pid: nat, comm: string, words: seq<string>)
    requires pid <= MAX_INT64 && AllWords(words)
    ensures ParseStat(Line(pid, comm, words)) ==
            if |words| < 20 then Failure(TooFewFields(|words|)) else Success(Decode(pid, comm, words))
  {
    LinePieces(pid, comm, words);
    ParseOfPieces(Line(pid, comm, words), pid, comm, words);
  }

  /** Parsing inverts printing: every wanted field is read from its own proc(5)
      position. Fields 23 and 24 read as zero when absent. */
  lemma StatRoundTrip(pid: nat, comm: string, words: seq<string>)
    requires pid <= MAX_INT64
    requires |words| >= 20 && AllWords(words)
    ensures words[0] != ""
    ensures ParseStat(Line(pid, comm, words)) == Success(Stat(
              pid, comm, words[0][0], Atoi(words[1]).value,
              U64(words[7]), U64(words[9]), U64(words[11]), U64(words[12]),
              Atoi(words[17]).value, U64(words[19]),
              if |words| > 20 then U64(words[20]) else 0,
              if |words| > 21 then U64(words[21]) else 0))
  {
    ParsePrintedLine(pid, comm, words);
    assert Word(words[0]);
  }

  /** With the numbers printed as numerals, the numbers themselves come back. */
  lemma StatValuesRoundTrip(st: Stat, words: seq<string>)
    requires 0 <= st.pid <= MAX_INT64 && 0 <= st.ppid <= MAX_INT64 && 0 <= st.threads <= MAX_INT64
    requires st.minorFaults <= MAX_UINT64 && st.majorFaults <= MAX_UINT64
    requires st.utimeTicks <= MAX_UINT64 && st.stimeTicks <= MAX_UINT64
    requires st.startTicks <= MAX_UINT64 && st.vsizeBytes <= MAX_UINT64 && st.rssPages <= MAX_UINT64
    requires |words| >= 22 && AllWords(words)
    requires words[0] == [st.state] && words[1] == Numeral(st.ppid)
    requires words[7] == Numeral(st.minorFaults) && words[9] == Numeral(st.majorFaults)
    requires words[11] == Numeral(st.utimeTicks) && words[12] == Numeral(st.stimeTicks)
    requires words[17] == Numeral(st.threads) && words[19] == Numeral(st.startTicks)
    requires words[20] == Numeral(st.vsizeBytes) && words[21] == Numeral(st.rssPages)
    ensures ParseStat(Line(st.pid, st.comm, words)) == Success(st)
  {
    StatRoundTrip(st.pid, st.comm, words);
    AtoiPrinted(st.ppid);
    AtoiPrinted(st.threads);
    ParsePrinted(st.minorFaults);
    ParsePrinted(st.majorFaults);
    ParsePrinted(st.utimeTicks);
    ParsePrinted(st.stimeTicks);
    ParsePrinted(st.startTicks);
    ParsePrinted(st.vsizeBytes);
    ParsePrinted(st.rssPages);
  }

  lemma AtoiPrinted(n: nat)
    requires n <= MAX_INT64
    ensures Atoi(Numeral(n)) == Parsed(n, true)
  {
    assert IsDigit(Numeral(n)[0]);
    ParsePrinted(n);
  }
}
