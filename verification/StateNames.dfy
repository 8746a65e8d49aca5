/** The readable state counts of a group in internal/aggregate/aggregate.go. */
module StateNames {
  import opened Groups

  function StateName(l: Letter): string {
    match l.c
    case 'R' => "running"
    case 'S' => "sleeping"
    case 'D' => "disk_sleep"
    case 'Z' => "zombie"
    case 'T' => "stopped"
    case 't' => "tracing_stop"
    case 'X' => "dead"
    case 'x' => "dead"
    case 'I' => "idle"
    case 'K' => "wakekill"
    case 'W' => "waking"
    case 'P' => "parked"
    case _ => "unknown"
  }

  type Letters = set<Letter>

  function LettersOf(states: multiset<Letter>): Letters {
    set l | l in states
  }

  /** Every name of a letter present, and for each one of its letters' counts: a later
      letter of the same name overwrites an earlier one, in an order left open. */
  ghost predicate NamesOf(ls: Letters, states: multiset<Letter>, names: map<string, nat>) {
    && (forall l :: l in ls ==> StateName(l) in names)
    && (forall n :: n in names ==> exists l :: l in ls && StateName(l) == n && states[l] == names[n])
  }

  /** The copying loop of `Apply`. */
  method Materialise(states: multiset<Letter>) returns (names: map<string, nat>)
    ensures NamesOf(LettersOf(states), states, names)
  {
    names := map[];
    var todo := LettersOf(states);
    ghost var done: Letters := {};
    while todo != {}
      invariant todo + done == LettersOf(states)
      invariant NamesOf(done, states, names)
      decreases todo
    {
      var l :| l in todo;
      todo, done := todo - {l}, done + {l};
      ghost var before := names;
      names := names[StateName(l) := states[l]];
      forall n | n in names ensures exists x :: x in done && StateName(x) == n && states[x] == names[n] {
        if n == StateName(l) {
          assert l in done;
        } else {
          var x :| x in done - {l} && StateName(x) == n && states[x] == before[n];
        }
      }
    }
    assert done == LettersOf(states);
  }

  // ---- What the names add up to ----

  ghost function CountOf(ls: Letters, states: multiset<Letter>): nat {
    if ls == {} then 0
    else
      var l :| l in ls;
      states[l] + CountOf(ls - {l}, states)
  }

  ghost function NamedCount(names: map<string, nat>): nat {
    if names == map[] then 0
    else
      var n :| n in names;
      names[n] + NamedCount(names - {n})
  }

  lemma {:induction false} CountWithout(ls: Letters, l: Letter, states: multiset<Letter>)
    requires l in ls
    ensures CountOf(ls, states) == states[l] + CountOf(ls - {l}, states)
  {
    var x :| x in ls && CountOf(ls, states) == states[x] + CountOf(ls - {x}, states);
    if x != l {
      CountWithout(ls - {x}, l, states);
      CountWithout(ls - {l}, x, states);
      assert ls - {x} - {l} == ls - {l} - {x};
    }
  }

  lemma {:induction false} CountIsSize(states: multiset<Letter>)
    ensures CountOf(LettersOf(states), states) == |states|
    decreases |LettersOf(states)|
  {
    var ls := LettersOf(states);
    if ls == {} {
      assert states == multiset{} by {
        assert forall l :: states[l] > 0 ==> l in ls;
      }
    } else {
      var l :| l in ls;
      var rest := states[l := 0];
      assert LettersOf(rest) == ls - {l};
      CountIsSize(rest);
      CountWithout(ls, l, states);
      SameCounts(ls - {l}, states, rest);
    }
  }

  lemma {:induction false} SameCounts(ls: Letters, a: multiset<Letter>, b: multiset<Letter>)
    requires forall l :: l in ls ==> a[l] == b[l]
    ensures CountOf(ls, a) == CountOf(ls, b)
  {
    if ls != {} {
      var l :| l in ls;
      CountWithout(ls, l, a);
      CountWithout(ls, l, b);
      SameCounts(ls - {l}, a, b);
    }
  }

  /** No two letters present share a name. */
  ghost predicate Distinguished(ls: Letters) {
    forall a, b :: a in ls && b in ls && StateName(a) == StateName(b) ==> a == b
  }

  ghost predicate Present(ls: Letters, states: multiset<Letter>) {
    forall l :: l in ls ==> states[l] > 0
  }

  function Class(ls: Letters, n: string): Letters {
    set l | l in ls && StateName(l) == n
  }

  lemma {:induction false} CountSplit(ls: Letters, part: Letters, states: multiset<Letter>)
    requires part <= ls
    ensures CountOf(ls, states) == CountOf(part, states) + CountOf(ls - part, states)
  {
    if part == {} {
      assert ls - part == ls;
    } else {
      var l :| l in part;
      CountSplit(ls - {l}, part - {l}, states);
      CountWithout(ls, l, states);
      CountWithout(part, l, states);
      assert ls - {l} - (part - {l}) == ls - part;
    }
  }

  lemma ClassCount(ls: Letters, l: Letter, states: multiset<Letter>)
    requires l in ls && Present(ls, states)
    ensures CountOf(ls, states) >= states[l]
    ensures CountOf(ls, states) == states[l] <==> ls == {l}
  {
    CountWithout(ls, l, states);
    if ls != {l} {
      var x :| x in ls && x != l;
      CountWithout(ls - {l}, x, states);
    } else {
      assert ls - {l} == {};
    }
  }

  lemma {:induction false} NamedWithout(names: map<string, nat>, n: string)
    requires n in names
    ensures NamedCount(names) == names[n] + NamedCount(names - {n})
  {
    var x :| x in names && NamedCount(names) == names[x] + NamedCount(names - {x});
    if x != n {
      NamedWithout(names - {x}, n);
      NamedWithout(names - {n}, x);
      assert names - {x} - {n} == names - {n} - {x};
    }
  }

  /** The readable counts never exceed the group, and cover it exactly when no two state
      letters present share a name. */
  lemma {:induction false} NamedNeverExceeds(ls: Letters, states: multiset<Letter>, names: map<string, nat>)
    requires Present(ls, states) && NamesOf(ls, states, names)
    ensures NamedCount(names) <= CountOf(ls, states)
    ensures NamedCount(names) == CountOf(ls, states) <==> Distinguished(ls)
    decreases ls
  {
    if ls == {} {
      assert names == map[];
    } else {
      var a :| a in ls;
      var n := StateName(a);
      var l :| l in ls && StateName(l) == n && states[l] == names[n];
      var same, rest := Class(ls, n), ls - Class(ls, n);
      assert a in same && l in same;
      RestNames(ls, states, names, n);
      NamedNeverExceeds(rest, states, names - {n});
      CountSplit(ls, same, states);
      ClassCount(same, l, states);
      NamedWithout(names, n);
      DistinguishedSplit(ls, n, l);
    }
  }

  lemma RestNames(ls: Letters, states: multiset<Letter>, names: map<string, nat>, n: string)
    requires NamesOf(ls, states, names)
    ensures NamesOf(ls - Class(ls, n), states, names - {n})
  {
    forall m | m in names - {n}
      ensures exists l :: l in ls - Class(ls, n) && StateName(l) == m && states[l] == (names - {n})[m]
    {
      var l :| l in ls && StateName(l) == m && states[l] == names[m];
      assert l in ls - Class(ls, n);
    }
  }

  lemma DistinguishedSplit(ls: Letters, n: string, l: Letter)
    requires l in ls && StateName(l) == n
    ensures Distinguished(ls) <==> Class(ls, n) == {l} && Distinguished(ls - Class(ls, n))
  {
    if Distinguished(ls) {
      assert Class(ls, n) == {l};
    }
    if Class(ls, n) == {l} && Distinguished(ls - Class(ls, n)) {
      forall a, b | a in ls && b in ls && StateName(a) == StateName(b) ensures a == b {
        if StateName(a) == n {
          assert a in Class(ls, n) && b in Class(ls, n);
        }
      }
    }
  }

  /** So a group's readable states add up to its members iff its letters are distinguished. */
  lemma NamesCoverGroup(g: Gauges, names: map<string, nat>)
    requires |g.states| == g.numProcs && NamesOf(LettersOf(g.states), g.states, names)
    ensures NamedCount(names) <= g.numProcs
    ensures NamedCount(names) == g.numProcs <==> Distinguished(LettersOf(g.states))
  {
    CountIsSize(g.states);
    NamedNeverExceeds(LettersOf(g.states), g.states, names);
  }

  /** Two members in the two letters named "dead" are shown as one. */
  lemma DeadLettersCollide()
    ensures var states := multiset{Letter('X'), Letter('x')};
            !Distinguished(LettersOf(states))
            && forall names :: NamesOf(LettersOf(states), states, names) ==> NamedCount(names) < |states|
  {
    var states := multiset{Letter('X'), Letter('x')};
    assert Letter('X') in LettersOf(states) && Letter('x') in LettersOf(states);
    forall names | NamesOf(LettersOf(states), states, names) ensures NamedCount(names) < |states| {
      CountIsSize(states);
      NamedNeverExceeds(LettersOf(states), states, names);
    }
  }

  /** The letters of proc(5) by their names; every other letter is unknown. */
  lemma NamedLetters(c: char)
    ensures var name := StateName(Letter(c));
            && (name == "running" <==> c == 'R') && (name == "sleeping" <==> c == 'S')
            && (name == "disk_sleep" <==> c == 'D') && (name == "zombie" <==> c == 'Z')
            && (name == "stopped" <==> c == 'T') && (name == "tracing_stop" <==> c == 't')
            && (name == "dead" <==> c == 'X' || c == 'x') && (name == "idle" <==> c == 'I')
            && (name == "wakekill" <==> c == 'K') && (name == "waking" <==> c == 'W')
            && (name == "parked" <==> c == 'P')
            && (name == "unknown" <==> c !in "RSDZTtXxIKWP")
  {
  }
}
