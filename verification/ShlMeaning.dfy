/** What SHL means, in plain arithmetic: operators, and the places where variables are kept. */
module ShlMeaning {
  import opened Words
  import opened Shl
  import opened Opcodes
  import VM

  /** The value `v`, or an overflow when it is not a word. */
  ghost predicate IsChecked(r: Eval, v: int)
  {
    if 0 <= v < WORD then r.Value? && r.v == v else r == Error(VM.Overflow)
  }

  /** A comparison's value is 1 or 0. */
  ghost predicate Tells(r: Eval, c: bool)
  {
    r.Value? && r.v == if c then 1 else 0
  }

  /** Operators on words: arithmetic is refused where the integer result is no word or the divisor is zero, and `&&`
      and `||` work on each binary digit. */
  lemma OperatorsMean(a: u64, b: u64)
    ensures IsChecked(Apply(Plus, a, b), a + b) && IsChecked(Apply(Minus, a, b), a - b)
            && IsChecked(Apply(Times, a, b), a * b)
    ensures if b == 0 then Apply(Over, a, b) == Apply(Rem, a, b) == Error(VM.DivZero)
            else Apply(Over, a, b).Value? && Apply(Rem, a, b).Value?
                 && Divides(a, b, Apply(Over, a, b).v, Apply(Rem, a, b).v)
    ensures Tells(Apply(Equal, a, b), a == b) && Tells(Apply(NotEqual, a, b), a != b)
            && Tells(Apply(Less, a, b), a < b) && Tells(Apply(Greater, a, b), a > b)
            && Tells(Apply(AtMost, a, b), a <= b) && Tells(Apply(AtLeast, a, b), a >= b)
    ensures Apply(Conj, a, b).Value? && IsAnd(a, b, Apply(Conj, a, b).v)
    ensures Apply(Disj, a, b).Value? && IsOr(a, b, Apply(Disj, a, b).v)
  {
    forall i: nat
      ensures Digit(And64(a, b), i) == (Digit(a, i) && Digit(b, i))
      ensures Digit(Or64(a, b), i) == (Digit(a, i) || Digit(b, i))
    {
      AndDigit(a, b, i);
      OrDigit(a, b, i);
    }
  }

  /* ----- Slots ----- */

  /** The names declared by the first `n` items. */
  function Declared(items: seq<Item>, n: nat): (names: set<Name>)
    requires n <= |items|
  {
    set i | 0 <= i < n && items[i].StateItem? :: items[i].name
  }

  lemma {:induction false} DeclareInTurn(sc: Scope, items: seq<Item>, n: nat)
    requires n < |items|
    ensures var before := DeclareAll(sc, items[..n]);
            DeclareAll(sc, items[..n + 1]) == if items[n].StateItem? then Declare(before, items[n].name) else before
    decreases items
  {
    if n == 0 {
      assert items[..1][1..] == [] && items[..0] == [];
    } else {
      var sc1 := if items[0].StateItem? then Declare(sc, items[0].name) else sc;
      DeclareInTurn(sc1, items[1..], n - 1);
      assert items[..n + 1][1..] == items[1..][..n] && items[..n][1..] == items[1..][..n - 1];
    }
  }

  /** The scope has just these names declared, and slots from this base on. */
  ghost predicate Counts(sc: Scope, names: set<Name>, base: int)
  {
    sc.state.Keys == names && sc.nextState == (base + |names|) % WORD
  }

  lemma OneMoreSlot(sc: Scope, names: set<Name>, base: int, name: Name)
    requires Counts(sc, names, base)
    ensures Counts(Declare(sc, name), names + {name}, base)
  {
    if name in names {
      assert names + {name} == names;
    } else {
      OneMoreName(names, name);
      WrapsOnce(base + |names|);
    }
  }

  lemma OneMoreName(names: set<Name>, name: Name)
    requires name !in names
    ensures |names + {name}| == |names| + 1
  {
  }

  lemma WrapsOnce(x: int)
    ensures (x % WORD + 1) % WORD == (x + 1) % WORD
  {
  }

  lemma OneMoreDeclared(items: seq<Item>, n: nat)
    requires n < |items|
    ensures Declared(items, n + 1) == Declared(items, n) + if items[n].StateItem? then {items[n].name} else {}
  {
  }

  lemma OneMoreItem(items: seq<Item>, n: nat, base: int, before: Scope, after: Scope)
    requires n < |items| && Counts(before, Declared(items, n), base)
    requires after == if items[n].StateItem? then Declare(before, items[n].name) else before
    ensures Counts(after, Declared(items, n + 1), base)
  {
    OneMoreDeclared(items, n);
    if items[n].StateItem? {
      OneMoreSlot(before, Declared(items, n), base, items[n].name);
    } else {
      assert Declared(items, n) + {} == Declared(items, n);
    }
  }

  /** After the first `n` items the next slot is the base plus the number of names declared so far. */
  lemma {:induction false} NextSlot(items: seq<Item>, n: nat)
    requires n <= |items|
    ensures Counts(DeclareAll(EMPTY_SCOPE, items[..n]), Declared(items, n), 0xFFFF_FFF0_0000_0000) == true
  {
    if n == 0 {
      assert items[..0] == [] && Declared(items, 0) == {};
    } else {
      NextSlot(items, n - 1);
      DeclareInTurn(EMPTY_SCOPE, items, n - 1);
      OneMoreItem(items, n - 1, 0xFFFF_FFF0_0000_0000, DeclareAll(EMPTY_SCOPE, items[..n - 1]),
                  DeclareAll(EMPTY_SCOPE, items[..n]));
    }
  }

  /** Later declarations leave a name's slot alone. */
  lemma {:induction false} SlotStays(items: seq<Item>, n: nat, m: nat, name: Name)
    requires n <= m <= |items| && name in DeclareAll(EMPTY_SCOPE, items[..n]).state
    ensures var sc := DeclareAll(EMPTY_SCOPE, items[..m]);
            name in sc.state && sc.state[name] == DeclareAll(EMPTY_SCOPE, items[..n]).state[name]
    decreases m
  {
    if n < m {
      SlotStays(items, n, m - 1, name);
      DeclareInTurn(EMPTY_SCOPE, items, m - 1);
    }
  }

  /** The slot of a state variable is the base of the state slots plus the number of other names declared before it. */
  lemma {:induction false} StateSlotIs(items: seq<Item>, n: nat)
    requires n < |items| && items[n].StateItem? && items[n].name !in Declared(items, n)
    ensures var state := DeclareAll(EMPTY_SCOPE, items).state;
            && items[n].name in state
            && state[items[n].name] == (0xFFFF_FFF0_0000_0000 + |Declared(items, n)|) % WORD
  {
    NextSlot(items, n);
    DeclareInTurn(EMPTY_SCOPE, items, n);
    SlotStays(items, n + 1, |items|, items[n].name);
    assert items[..|items|] == items;
  }
}
