/** The numeric table: what a sheet of SUM formulas means, and when it means anything. */
module TableModel {
  import opened Results
  import opened Text

  const MAX_CELLS := 256
  const MAX_DEPTH := 64
  const MAX_INPUTS := 32

  /** The numbers, as the evaluator uses them. Nothing is assumed about the operations: an
      addition that rounds, as binary64 does, is as good as any other. */
  datatype Arithmetic<!N> = Arithmetic(zero: N, add: (N, N) -> N, finite: N -> bool, bounded: N -> bool)

  /** A cell of the JSON state; `Malformed` is anything but a number or a list of names. */
  datatype Cell<N> = Number(value: N) | Sum(inputs: seq<string>) | Malformed
  type Sheet<N> = map<string, Cell<N>>

  datatype Calculated<N> = Calculated(value: N, depth: nat)

  // ----- The shape of a sheet: `cells` -----------------------------------------------

  /** A1 through Z99. */
  predicate IsAddress(s: string) {
    (|s| == 2 || |s| == 3) && 'A' <= s[0] <= 'Z' && '1' <= s[1] <= '9' && (|s| == 2 || IsDigit(s[2]))
  }

  /** The addresses are a letter and a number from 1 to 99. */
  lemma AddressesAreLetterAndNumber(s: string)
    ensures IsAddress(s) <==> exists letter: char, n: nat :: IsNamed(s, letter, n)
  {
    assert Decimal(0) == [Digit(0)];
    if IsAddress(s) {
      var tens := s[1] as int - '0' as int;
      if |s| == 2 {
        assert s == [s[0]] + Decimal(tens);
        assert IsNamed(s, s[0], tens);
      } else {
        var n := 10 * tens + (s[2] as int - '0' as int);
        assert Decimal(tens) == [Digit(tens)];
        assert s == [s[0]] + Decimal(n);
        assert IsNamed(s, s[0], n);
      }
    }
    forall letter: char, n: nat | IsNamed(s, letter, n) ensures IsAddress(s) {
      assert n >= 10 ==> Decimal(n / 10) == [Digit(n / 10)];
    }
  }

  ghost predicate IsNamed(s: string, letter: char, n: nat) {
    'A' <= letter <= 'Z' && 1 <= n <= 99 && s == [letter] + Decimal(n)
  }

  predicate IsCell<N>(a: Arithmetic<N>, cell: Cell<N>) {
    match cell
    case Number(n) => a.finite(n) && a.bounded(n)
    case Sum(inputs) => 1 <= |inputs| <= MAX_INPUTS && forall i :: 0 <= i < |inputs| ==> IsAddress(inputs[i])
    case Malformed => false
  }

  predicate WellFormed<N>(a: Arithmetic<N>, cells: Sheet<N>) {
    1 <= |cells| <= MAX_CELLS && forall c :: c in cells ==> IsAddress(c) && IsCell(a, cells[c])
  }

  predicate IsInput<N>(cells: Sheet<N>, source: string, target: string) {
    target in cells && cells[target].Sum? && source in cells[target].inputs
  }

  // ----- Meaning: the equations a sheet states ---------------------------------------

  /** The left-to-right sum of the values of some cells. */
  ghost function Total<N>(a: Arithmetic<N>, values: map<string, N>, inputs: seq<string>): N
    requires forall i :: 0 <= i < |inputs| ==> inputs[i] in values
  {
    if inputs == [] then a.zero
    else a.add(Total(a, values, inputs[..|inputs| - 1]), values[inputs[|inputs| - 1]])
  }

  /** The value of one cell agrees with its content, and no partial sum leaves the numbers. */
  ghost predicate Agrees<N(!new)>(a: Arithmetic<N>, cells: Sheet<N>, values: map<string, N>, c: string)
    requires c in cells && c in values
  {
    match cells[c]
    case Number(n) => values[c] == n
    case Sum(inputs) =>
      && (forall i :: 0 <= i < |inputs| ==> inputs[i] in values)
      && (forall k :: 0 < k <= |inputs| ==> a.finite(Total(a, values, inputs[..k])))
      && a.bounded(Total(a, values, inputs))
      && values[c] == Total(a, values, inputs)
    case Malformed => false
  }

  /** An assignment of numbers to exactly the cells of the sheet that satisfies all of them. */
  ghost predicate IsSolution<N(!new)>(a: Arithmetic<N>, cells: Sheet<N>, values: map<string, N>) {
    values.Keys == cells.Keys && forall c :: c in cells ==> Agrees(a, cells, values, c)
  }

  /** A chain of formulas: each cell is a formula that has the next cell as an input. */
  ghost predicate IsChain<N>(cells: Sheet<N>, p: seq<string>) {
    && p != [] && (forall i :: 0 <= i < |p| ==> p[i] in cells)
    && (forall i :: 0 <= i < |p| - 1 ==> IsInput(cells, p[i + 1], p[i]))
  }

  /** Every input exists and no chain has more than 64 links. */
  ghost predicate Grounded<N(!new)>(cells: Sheet<N>) {
    && (forall c, s :: IsInput(cells, s, c) ==> s in cells)
    && (forall p :: IsChain(cells, p) ==> |p| <= MAX_DEPTH + 1)
  }

  /** When a sheet is accepted, said without evaluating it. */
  ghost predicate Accepted<N(!new)>(a: Arithmetic<N>, cells: Sheet<N>) {
    WellFormed(a, cells) && Grounded(cells) && exists values :: IsSolution(a, cells, values)
  }

  // ----- Plain recursion, without a cache --------------------------------------------

  function Max(a: nat, b: nat): nat { if a > b then a else b }

  /** The value and the longest chain of a cell met at some depth, or None for any error. */
  function Plain<N>(a: Arithmetic<N>, cells: Sheet<N>, c: string, depth: nat): Option<Calculated<N>>
    decreases MAX_DEPTH + 1 - depth, 1, 0
  {
    if depth > MAX_DEPTH || c !in cells then None else
      match cells[c]
      case Number(n) => Some(Calculated(n, 0))
      case Sum(inputs) =>
        var sum := PlainSum(a, cells, inputs, depth);
        if sum.None? || !a.bounded(sum.value.value) then None else sum
      case Malformed => None
  }

  /** The sum of the inputs from the left, and the longest chain through them. */
  function PlainSum<N>(a: Arithmetic<N>, cells: Sheet<N>, inputs: seq<string>, depth: nat): Option<Calculated<N>>
    requires depth <= MAX_DEPTH
    decreases MAX_DEPTH + 1 - depth, 0, |inputs|
  {
    if inputs == [] then Some(Calculated(a.zero, 0)) else
      var before := PlainSum(a, cells, inputs[..|inputs| - 1], depth);
      var row := Plain(a, cells, inputs[|inputs| - 1], depth + 1);
      if before.None? || row.None? then None else
        var sum := a.add(before.value.value, row.value.value);
        if a.finite(sum) then Some(Calculated(sum, Max(before.value.depth, row.value.depth + 1))) else None
  }

  // ----- Depth -----------------------------------------------------------------------

  /** A cell is evaluated exactly where its longest chain still fits, and its value does not
      depend on where it is met. */
  lemma {:induction false} PlainAtDepth<N>(a: Arithmetic<N>, cells: Sheet<N>, c: string, d: nat, d': nat)
    requires Plain(a, cells, c, d).Some?
    ensures d + Plain(a, cells, c, d).value.depth <= MAX_DEPTH
    ensures Plain(a, cells, c, d') ==
              if d' + Plain(a, cells, c, d).value.depth <= MAX_DEPTH then Plain(a, cells, c, d) else None
    decreases MAX_DEPTH + 1 - d, 1, 0
  {
    if cells[c].Sum? {
      PlainSumAtDepth(a, cells, cells[c].inputs, d, if d' <= MAX_DEPTH then d' else d);
    }
  }

  lemma {:induction false} PlainSumAtDepth<N>(a: Arithmetic<N>, cells: Sheet<N>, inputs: seq<string>, d: nat, d': nat)
    requires d <= MAX_DEPTH && d' <= MAX_DEPTH && PlainSum(a, cells, inputs, d).Some?
    ensures d + PlainSum(a, cells, inputs, d).value.depth <= MAX_DEPTH
    ensures PlainSum(a, cells, inputs, d') ==
              if d' + PlainSum(a, cells, inputs, d).value.depth <= MAX_DEPTH
              then PlainSum(a, cells, inputs, d)
              else None
    decreases MAX_DEPTH + 1 - d, 0, |inputs|
  {
    if inputs != [] {
      PlainSumAtDepth(a, cells, inputs[..|inputs| - 1], d, d');
      PlainAtDepth(a, cells, inputs[|inputs| - 1], d + 1, d' + 1);
    }
  }

  /** Each input of an evaluated formula is evaluated, one level down and with a shorter chain. */
  lemma {:induction false} InputsAreShorter<N>(a: Arithmetic<N>, cells: Sheet<N>, inputs: seq<string>, d: nat,
                                               s: string)
    requires d <= MAX_DEPTH && PlainSum(a, cells, inputs, d).Some? && s in inputs
    ensures Plain(a, cells, s, d + 1).Some?
    ensures Plain(a, cells, s, d + 1).value.depth < PlainSum(a, cells, inputs, d).value.depth
    decreases |inputs|
  {
    var front, last := inputs[..|inputs| - 1], inputs[|inputs| - 1];
    if s != last {
      assert inputs == front + [last];
      InputsAreShorter(a, cells, front, d, s);
    }
  }

  lemma InputIsShorter<N>(a: Arithmetic<N>, cells: Sheet<N>, s: string, c: string)
    requires Plain(a, cells, c, 0).Some? && IsInput(cells, s, c)
    ensures Plain(a, cells, s, 0).Some?
    ensures Plain(a, cells, s, 0).value.depth < Plain(a, cells, c, 0).value.depth
  {
    InputsAreShorter(a, cells, cells[c].inputs, 0, s);
    PlainAtDepth(a, cells, s, 1, 0);
  }

  // ----- Plain recursion finds the solution ------------------------------------------

  ghost predicate AllPlain<N>(a: Arithmetic<N>, cells: Sheet<N>) {
    forall c :: c in cells ==> Plain(a, cells, c, 0).Some?
  }

  ghost function PlainValues<N>(a: Arithmetic<N>, cells: Sheet<N>): map<string, N>
    requires AllPlain(a, cells)
  {
    map c | c in cells :: Plain(a, cells, c, 0).value.value
  }

  lemma {:induction false} PlainSumIsTotal<N>(a: Arithmetic<N>, cells: Sheet<N>, inputs: seq<string>)
    requires AllPlain(a, cells) && PlainSum(a, cells, inputs, 0).Some?
    ensures forall i :: 0 <= i < |inputs| ==> inputs[i] in cells
    ensures PlainSum(a, cells, inputs, 0).value.value == Total(a, PlainValues(a, cells), inputs)
    ensures forall k :: 0 < k <= |inputs| ==> a.finite(Total(a, PlainValues(a, cells), inputs[..k]))
    decreases |inputs|
  {
    if inputs != [] {
      var front, last := inputs[..|inputs| - 1], inputs[|inputs| - 1];
      PlainSumIsTotal(a, cells, front);
      assert inputs == front + [last];
      PlainAtDepth(a, cells, last, 1, 0);
      forall k | 0 < k <= |inputs| ensures a.finite(Total(a, PlainValues(a, cells), inputs[..k])) {
        if k < |inputs| { assert inputs[..k] == front[..k]; } else { assert inputs[..k] == inputs; }
      }
    }
  }

  lemma PlainSolves<N(!new)>(a: Arithmetic<N>, cells: Sheet<N>)
    requires AllPlain(a, cells)
    ensures IsSolution(a, cells, PlainValues(a, cells))
  {
    forall c | c in cells ensures Agrees(a, cells, PlainValues(a, cells), c) {
      if cells[c].Sum? { PlainSumIsTotal(a, cells, cells[c].inputs); }
    }
  }

  lemma {:induction false} ChainIsShort<N>(a: Arithmetic<N>, cells: Sheet<N>, p: seq<string>)
    requires AllPlain(a, cells) && IsChain(cells, p)
    ensures |p| - 1 <= Plain(a, cells, p[0], 0).value.depth <= MAX_DEPTH
    decreases |p|
  {
    PlainAtDepth(a, cells, p[0], 0, 0);
    if |p| > 1 {
      assert IsInput(cells, p[0 + 1], p[0]);
      InputIsShorter(a, cells, p[1], p[0]);
      assert IsChain(cells, p[1..]) by {
        forall i | 0 <= i < |p[1..]| - 1 ensures IsInput(cells, p[1..][i + 1], p[1..][i]) {
          assert IsInput(cells, p[i + 1 + 1], p[i + 1]);
        }
      }
      ChainIsShort(a, cells, p[1..]);
    }
  }

  /** Where plain recursion succeeds everywhere, the sheet is grounded and solved. */
  lemma PlainIsGrounded<N(!new)>(a: Arithmetic<N>, cells: Sheet<N>)
    requires AllPlain(a, cells)
    ensures Grounded(cells)
  {
    forall c, s | IsInput(cells, s, c) ensures s in cells { InputIsShorter(a, cells, s, c); }
    forall p | IsChain(cells, p) ensures |p| <= MAX_DEPTH + 1 { ChainIsShort(a, cells, p); }
  }

  // ----- The solution is what plain recursion finds ----------------------------------

  /** No chain from a cell is too long for the depth the cell is met at. */
  ghost predicate Fits<N>(cells: Sheet<N>, c: string, d: nat) {
    forall p :: IsChain(cells, p) && p[0] == c ==> |p| + d <= MAX_DEPTH + 1
  }

  lemma InputFits<N(!new)>(cells: Sheet<N>, s: string, c: string, d: nat)
    requires Fits(cells, c, d) && IsInput(cells, s, c)
    ensures Fits(cells, s, d + 1)
  {
    forall p | IsChain(cells, p) && p[0] == s ensures |p| + d + 1 <= MAX_DEPTH + 1 {
      var q := [c] + p;
      forall i | 0 <= i < |q| - 1 ensures IsInput(cells, q[i + 1], q[i]) {
        if i > 0 { assert IsInput(cells, p[i - 1 + 1], p[i - 1]); }
      }
      assert IsChain(cells, q);
    }
  }

  lemma {:induction false} SolutionIsPlain<N(!new)>(a: Arithmetic<N>, cells: Sheet<N>, values: map<string, N>,
                                                     c: string, d: nat)
    requires IsSolution(a, cells, values) && Grounded(cells) && c in cells && Fits(cells, c, d)
    ensures Plain(a, cells, c, d).Some? && Plain(a, cells, c, d).value.value == values[c]
    decreases MAX_DEPTH + 1 - d, 1, 0
  {
    assert IsChain(cells, [c]);
    assert Agrees(a, cells, values, c);
    if cells[c].Sum? {
      var inputs := cells[c].inputs;
      SolutionIsPlainSum(a, cells, values, c, inputs, d);
      assert inputs[..|inputs|] == inputs;
    }
  }

  lemma {:induction false} SolutionIsPlainSum<N(!new)>(a: Arithmetic<N>, cells: Sheet<N>, values: map<string, N>,
                                                        c: string, inputs: seq<string>, d: nat)
    requires IsSolution(a, cells, values) && Grounded(cells) && Fits(cells, c, d) && d <= MAX_DEPTH
    requires c in cells && cells[c].Sum? && inputs <= cells[c].inputs
    ensures forall i :: 0 <= i < |inputs| ==> inputs[i] in values
    ensures PlainSum(a, cells, inputs, d).Some? && PlainSum(a, cells, inputs, d).value.value == Total(a, values, inputs)
    decreases MAX_DEPTH + 1 - d, 0, |inputs|
  {
    if inputs != [] {
      var front, last := inputs[..|inputs| - 1], inputs[|inputs| - 1];
      assert Agrees(a, cells, values, c);
      assert cells[c].inputs[|inputs| - 1] == last;
      assert IsInput(cells, last, c);
      SolutionIsPlainSum(a, cells, values, c, front, d);
      InputFits(cells, last, c, d);
      SolutionIsPlain(a, cells, values, last, d + 1);
      assert inputs == cells[c].inputs[..|inputs|];
    }
  }

  /** A sheet is accepted exactly when it is well-formed and plain recursion succeeds on every
      cell; its solution is then unique. */
  lemma AcceptedIsPlain<N(!new)>(a: Arithmetic<N>, cells: Sheet<N>)
    ensures Accepted(a, cells) <==> WellFormed(a, cells) && AllPlain(a, cells)
    ensures Accepted(a, cells) ==> forall values :: IsSolution(a, cells, values) ==> values == PlainValues(a, cells)
  {
    if WellFormed(a, cells) && AllPlain(a, cells) {
      PlainSolves(a, cells);
      PlainIsGrounded(a, cells);
    }
    if Accepted(a, cells) {
      forall values | IsSolution(a, cells, values)
        ensures AllPlain(a, cells) && values == PlainValues(a, cells)
      {
        forall c | c in cells ensures Plain(a, cells, c, 0).Some? && Plain(a, cells, c, 0).value.value == values[c] {
          SolutionIsPlain(a, cells, values, c, 0);
        }
      }
    }
  }

  // ----- Dependencies and edits ------------------------------------------------------

  /** The pairs `dependencies` reports: an input and the formula it goes into. */
  function Relations<N>(cells: Sheet<N>): set<(string, string)> {
    set target, i | target in cells && cells[target].Sum? && 0 <= i < |cells[target].inputs| ::
      (cells[target].inputs[i], target)
  }

  ghost predicate IsPath(relations: set<(string, string)>, p: seq<string>) {
    p != [] && forall i :: 0 <= i < |p| - 1 ==> (p[i], p[i + 1]) in relations
  }

  /** `to` is `from` or comes after it along the relations. */
  ghost predicate Reaches(relations: set<(string, string)>, from: string, to: string) {
    exists p :: IsPath(relations, p) && p[0] == from && p[|p| - 1] == to
  }

  lemma RelationsAreInputs<N>(cells: Sheet<N>, s: string, c: string)
    ensures (s, c) in Relations(cells) <==> IsInput(cells, s, c)
  {
    if IsInput(cells, s, c) {
      var i :| 0 <= i < |cells[c].inputs| && cells[c].inputs[i] == s;
      assert (cells[c].inputs[i], c) in Relations(cells);
    }
  }

  lemma ReachesOn(relations: set<(string, string)>, from: string, s: string, c: string)
    requires Reaches(relations, from, s) && (s, c) in relations
    ensures Reaches(relations, from, c)
  {
    var p :| IsPath(relations, p) && p[0] == from && p[|p| - 1] == s;
    var q := p + [c];
    forall i | 0 <= i < |q| - 1 ensures (q[i], q[i + 1]) in relations {
      if i < |p| - 1 { assert (p[i], p[i + 1]) in relations; }
    }
    assert IsPath(relations, q) && q[0] == from && q[|q| - 1] == c;
  }

  /** Along the relations of a sheet that evaluates, chains get longer: no path returns. */
  lemma {:induction false} PathsClimb<N>(a: Arithmetic<N>, cells: Sheet<N>, p: seq<string>)
    requires AllPlain(a, cells) && IsPath(Relations(cells), p) && |p| > 1
    ensures p[0] in cells && p[|p| - 1] in cells
    ensures Plain(a, cells, p[0], 0).value.depth + |p| - 1 <= Plain(a, cells, p[|p| - 1], 0).value.depth
    decreases |p|
  {
    var n := |p|;
    assert (p[n - 2], p[n - 2 + 1]) in Relations(cells);
    RelationsAreInputs(cells, p[n - 2], p[n - 1]);
    InputIsShorter(a, cells, p[n - 2], p[n - 1]);
    if n > 2 {
      assert IsPath(Relations(cells), p[..n - 1]) by {
        var front := p[..n - 1];
        forall i | 0 <= i < |front| - 1 ensures (front[i], front[i + 1]) in Relations(cells) {
          assert (p[i], p[i + 1]) in Relations(cells);
        }
      }
      PathsClimb(a, cells, p[..n - 1]);
    }
  }

  /** The reported relations of an accepted sheet have no cycle and no path of more than 64 steps. */
  lemma RelationsAreAcyclic<N(!new)>(a: Arithmetic<N>, cells: Sheet<N>, p: seq<string>)
    requires Accepted(a, cells) && IsPath(Relations(cells), p)
    ensures |p| > 1 ==> p[0] != p[|p| - 1]
    ensures |p| <= MAX_DEPTH + 1
  {
    AcceptedIsPlain(a, cells);
    if |p| > 1 {
      PathsClimb(a, cells, p);
      PlainAtDepth(a, cells, p[|p| - 1], 0, 0);
    }
  }

  /** A cell that an edited cell does not reach is evaluated as before, wherever it is met. */
  lemma {:induction false} UnreachedIsUnchanged<N>(a: Arithmetic<N>, cells: Sheet<N>, edited: string, cell: Cell<N>,
                                                   c: string, d: nat)
    requires !Reaches(Relations(cells), edited, c)
    ensures Plain(a, cells[edited := cell], c, d) == Plain(a, cells, c, d)
    decreases MAX_DEPTH + 1 - d, 1, 0
  {
    assert c != edited by {
      if c == edited { assert IsPath(Relations(cells), [c]); }
    }
    if d <= MAX_DEPTH && c in cells && cells[c].Sum? {
      UnreachedSumIsUnchanged(a, cells, edited, cell, c, cells[c].inputs, d);
    }
  }

  lemma {:induction false} UnreachedSumIsUnchanged<N>(a: Arithmetic<N>, cells: Sheet<N>, edited: string, cell: Cell<N>,
                                                      c: string, inputs: seq<string>, d: nat)
    requires !Reaches(Relations(cells), edited, c) && d <= MAX_DEPTH
    requires forall s :: s in inputs ==> IsInput(cells, s, c)
    ensures PlainSum(a, cells[edited := cell], inputs, d) == PlainSum(a, cells, inputs, d)
    decreases MAX_DEPTH + 1 - d, 0, |inputs|
  {
    if inputs != [] {
      var last := inputs[|inputs| - 1];
      UnreachedSumIsUnchanged(a, cells, edited, cell, c, inputs[..|inputs| - 1], d);
      RelationsAreInputs(cells, last, c);
      if Reaches(Relations(cells), edited, last) { ReachesOn(Relations(cells), edited, last, c); }
      UnreachedIsUnchanged(a, cells, edited, cell, last, d + 1);
    }
  }

  lemma UnreachedEitherWay<N(!new)>(a: Arithmetic<N>, cells: Sheet<N>, edited: string, cell: Cell<N>, c: string)
    requires Accepted(a, cells)
    requires !Reaches(Relations(cells), edited, c) || !Reaches(Relations(cells[edited := cell]), edited, c)
    ensures c != edited && Plain(a, cells[edited := cell], c, 0) == Plain(a, cells, c, 0)
  {
    var next := cells[edited := cell];
    if c == edited { assert IsPath(Relations(cells), [c]) && IsPath(Relations(next), [c]); }
    if edited !in cells { NewCellIsUnused(a, cells, edited, c); }
    if !Reaches(Relations(cells), edited, c) {
      UnreachedIsUnchanged(a, cells, edited, cell, c, 0);
    } else {
      UnreachedIsUnchanged(a, next, edited, cells[edited], c, 0);
      assert next[edited := cells[edited]] == cells;
    }
  }

  /** After an edit, only the edited cell and cells it reaches can show another value: along the
      relations reported before the edit, and as well along those reported after it. */
  lemma EditIsLocal<N(!new)>(a: Arithmetic<N>, cells: Sheet<N>, edited: string, cell: Cell<N>,
                             before: map<string, N>, after: map<string, N>, c: string)
    requires Accepted(a, cells) && Accepted(a, cells[edited := cell])
    requires IsSolution(a, cells, before) && IsSolution(a, cells[edited := cell], after)
    requires !Reaches(Relations(cells), edited, c) || !Reaches(Relations(cells[edited := cell]), edited, c)
    ensures c in before <==> c in after
    ensures c in before ==> after[c] == before[c]
  {
    UnreachedEitherWay(a, cells, edited, cell, c);
    SolutionsArePlain(a, cells, before);
    SolutionsArePlain(a, cells[edited := cell], after);
  }

  lemma SolutionsArePlain<N(!new)>(a: Arithmetic<N>, cells: Sheet<N>, values: map<string, N>)
    requires Accepted(a, cells) && IsSolution(a, cells, values)
    ensures AllPlain(a, cells) && values == PlainValues(a, cells)
  {
    AcceptedIsPlain(a, cells);
  }

  /** Nothing but itself is reached from a cell that an accepted sheet does not have. */
  lemma NewCellIsUnused<N(!new)>(a: Arithmetic<N>, cells: Sheet<N>, edited: string, c: string)
    requires Accepted(a, cells) && edited !in cells && c != edited
    ensures !Reaches(Relations(cells), edited, c)
  {
    forall p | IsPath(Relations(cells), p) && p[0] == edited ensures p[|p| - 1] != c {
      if |p| > 1 {
        assert (p[0], p[0 + 1]) in Relations(cells);
        RelationsAreInputs(cells, p[0], p[1]);
      }
    }
  }
}
