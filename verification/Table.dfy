/** The memoised SUM evaluator and the table operations, proved against `TableModel`. */
module TableEvaluation {
  import opened Results
  import opened Text
  import opened TableModel

  const MAX_VISITS := 16_384
  const MAX_USIZE := 0xFFFF_FFFF_FFFF_FFFF

  // ----- Work ------------------------------------------------------------------------

  ghost function Cost<N>(cells: Sheet<N>, c: string): nat {
    if c in cells && cells[c].Sum? then |cells[c].inputs| else 0
  }

  /** The number of inputs of all formulas among some names. */
  ghost function Work<N>(cells: Sheet<N>, names: set<string>): nat {
    if names == {} then 0 else
      var c :| c in names;
      Cost(cells, c) + Work(cells, names - {c})
  }

  lemma {:induction false} WorkWithout<N>(cells: Sheet<N>, names: set<string>, c: string)
    requires c in names
    ensures Work(cells, names) == Cost(cells, c) + Work(cells, names - {c})
    decreases |names|
  {
    var d :| d in names && Work(cells, names) == Cost(cells, d) + Work(cells, names - {d});
    if d != c {
      WorkWithout(cells, names - {d}, c);
      assert names - {d} - {c} == names - {c} - {d};
      WorkWithout(cells, names - {c}, d);
    }
  }

  lemma WorkWith<N>(cells: Sheet<N>, names: set<string>, c: string)
    requires c !in names
    ensures Work(cells, names + {c}) == Work(cells, names) + Cost(cells, c)
  {
    WorkWithout(cells, names + {c}, c);
    assert names + {c} - {c} == names;
  }

  /** The bounds on work that a well-formed sheet keeps. */
  ghost predicate Small<N>(cells: Sheet<N>) {
    |cells| <= MAX_CELLS && forall c {:trigger Cost(cells, c)} :: Cost(cells, c) <= MAX_INPUTS
  }

  lemma WellFormedIsSmall<N>(a: Arithmetic<N>, cells: Sheet<N>)
    requires WellFormed(a, cells)
    ensures Small(cells)
  {
    forall c ensures Cost(cells, c) <= MAX_INPUTS {
      if c in cells { assert IsCell(a, cells[c]); }
    }
  }

  lemma {:induction false} WorkIsBounded<N>(cells: Sheet<N>, names: set<string>)
    requires Small(cells)
    ensures Work(cells, names) <= MAX_INPUTS * |names * cells.Keys|
    decreases |names|
  {
    if names != {} {
      var c :| c in names;
      WorkWithout(cells, names, c);
      WorkIsBounded(cells, names - {c});
      if c in cells {
        assert names * cells.Keys == (names - {c}) * cells.Keys + {c};
      } else {
        assert names * cells.Keys == (names - {c}) * cells.Keys;
      }
    }
  }

  /** However much was started: never more work than 32 inputs for each of 256 cells. */
  lemma WorkOfASheet<N>(cells: Sheet<N>, names: set<string>)
    requires Small(cells)
    ensures Work(cells, names) <= MAX_INPUTS * MAX_CELLS
  {
    WorkIsBounded(cells, names);
    var own := names * cells.Keys;
    assert cells.Keys == own + (cells.Keys - own);
    assert |cells.Keys| == |cells|;
  }

  // ----- Cycles ----------------------------------------------------------------------

  /** If the upper cell can be evaluated, so can the lower, with a shorter chain. */
  ghost predicate Above<N>(a: Arithmetic<N>, cells: Sheet<N>, upper: string, lower: string) {
    Plain(a, cells, upper, 0).Some? ==>
      Plain(a, cells, lower, 0).Some? && Plain(a, cells, lower, 0).value.depth < Plain(a, cells, upper, 0).value.depth
  }

  /** A memo entry says what plain recursion from the top says. */
  ghost predicate IsTrue<N>(a: Arithmetic<N>, cells: Sheet<N>, c: string, row: Calculated<N>) {
    Plain(a, cells, c, 0) == Some(row)
  }

  lemma InputIsBelow<N>(a: Arithmetic<N>, cells: Sheet<N>, active: set<string>, c: string, s: string)
    requires IsInput(cells, s, c)
    requires forall u {:trigger Above(a, cells, u, c)} :: u in active ==> u == c || Above(a, cells, u, c)
    ensures forall u {:trigger Above(a, cells, u, s)} :: u in active ==> Above(a, cells, u, s)
  {
    if Plain(a, cells, c, 0).Some? { InputIsShorter(a, cells, s, c); }
    forall u | u in active ensures Above(a, cells, u, s) {
      assert u == c || Above(a, cells, u, c);
    }
  }

  // ----- The evaluator ---------------------------------------------------------------

  class Evaluation<N(==)> {
    const a: Arithmetic<N>
    const cells: Sheet<N>
    const limit: nat
    var completed: map<string, Calculated<N>>
    var active: set<string>
    var visits: nat

    constructor (a: Arithmetic<N>, cells: Sheet<N>, limit: nat)
      ensures this.a == a && this.cells == cells && this.limit == limit
      ensures completed == map[] && active == {} && visits == 0
    {
      this.a, this.cells, this.limit := a, cells, limit;
      completed, active, visits := map[], {}, 0;
    }

    /** Every memo entry is the value and the true longest chain of its cell. */
    ghost predicate Valid()
      reads this
    {
      forall c {:trigger IsTrue(a, cells, c, completed[c])} :: c in completed ==> IsTrue(a, cells, c, completed[c])
    }

    /** Cells whose formula was entered. */
    ghost function Started(): set<string>
      reads this
    {
      completed.Keys + active
    }

    /** `value`: with whatever is memoised, and with budget left, the verdict and the value of
        plain recursion at this depth; one visit for the call and one for each input of the
        formulas entered. */
    method Value(cell: string, depth: nat) returns (r: Result<Calculated<N>>)
      requires Valid() && depth <= MAX_DEPTH + 1
      requires forall u {:trigger Above(a, cells, u, cell)} :: u in active ==> Above(a, cells, u, cell)
      modifies this
      ensures Valid()
      ensures old(Started()) <= Started()
      ensures visits <= old(visits) + 1 + Work(cells, Started()) - Work(cells, old(Started()))
      ensures r.Ok? ==> Plain(a, cells, cell, depth) == Some(r.value) && depth + r.value.depth <= MAX_DEPTH
      ensures r.Ok? ==> active == old(active) && cell in completed && completed[cell] == r.value
      ensures forall c :: c in old(completed) ==> c in completed && completed[c] == old(completed)[c]
      ensures r.Ok? ==> visits == old(visits) + 1 + Work(cells, Started()) - Work(cells, old(Started()))
      ensures r.Err? && visits <= limit && visits < MAX_USIZE ==> Plain(a, cells, cell, depth).None?
      decreases MAX_DEPTH + 1 - depth, 1
    {
      if visits == MAX_USIZE { return Err(ResourceExhausted); }
      visits := visits + 1;
      if visits > limit || depth > MAX_DEPTH { return Err(ResourceExhausted); }
      if cell in completed {
        assert IsTrue(a, cells, cell, completed[cell]);
        PlainAtDepth(a, cells, cell, 0, depth);
        if depth + completed[cell].depth > MAX_DEPTH { return Err(ResourceExhausted); }
        return Ok(completed[cell]);
      }
      if cell in active {
        assert Above(a, cells, cell, cell);
        if Plain(a, cells, cell, depth).Some? { PlainAtDepth(a, cells, cell, depth, 0); }
        return Err(InvalidArgument);
      }
      active := active + {cell};
      WorkWith(cells, old(Started()), cell);
      assert Started() == old(Started()) + {cell};
      if cell !in cells { return Err(NotFound); }
      var result: Calculated<N>;
      match cells[cell] {
        case Number(n) =>
          result := Calculated(n, 0);
        case Sum(inputs) =>
          var sum := SumInputs(cell, inputs, depth);
          if sum.Err? { return sum; }
          if !a.bounded(sum.value.value) { return Err(InvalidArgument); }
          result := sum.value;
        case Malformed =>
          return Err(InvalidArgument);
      }
      PlainAtDepth(a, cells, cell, depth, 0);
      ghost var started := Started();
      active := active - {cell};
      completed := completed[cell := result];
      assert Started() == started;
      return Ok(result);
    }

    /** The loop of `value` over the inputs of a formula: their sum in the declared order. */
    method SumInputs(cell: string, inputs: seq<string>, depth: nat) returns (r: Result<Calculated<N>>)
      requires Valid() && depth <= MAX_DEPTH && cell in cells && cells[cell] == Sum(inputs)
      requires forall u {:trigger Above(a, cells, u, cell)} :: u in active ==> u == cell || Above(a, cells, u, cell)
      modifies this
      ensures Valid()
      ensures old(Started()) <= Started()
      ensures visits <= old(visits) + |inputs| + Work(cells, Started()) - Work(cells, old(Started()))
      ensures r.Ok? ==> PlainSum(a, cells, inputs, depth) == Some(r.value) && active == old(active)
      ensures forall c :: c in old(completed) ==> c in completed && completed[c] == old(completed)[c]
      ensures r.Ok? ==> visits == old(visits) + |inputs| + Work(cells, Started()) - Work(cells, old(Started()))
      ensures r.Err? && visits <= limit && visits < MAX_USIZE ==> PlainSum(a, cells, inputs, depth).None?
      decreases MAX_DEPTH + 1 - depth, 0
    {
      var sum, longest := a.zero, 0;
      for i := 0 to |inputs|
        invariant Valid() && active == old(active) && old(Started()) <= Started()
        invariant forall c :: c in old(completed) ==> c in completed && completed[c] == old(completed)[c]
        invariant visits == old(visits) + i + Work(cells, Started()) - Work(cells, old(Started()))
        invariant PlainSum(a, cells, inputs[..i], depth) == Some(Calculated(sum, longest))
      {
        InputIsBelow(a, cells, active, cell, inputs[i]);
        PlainSumNext(a, cells, inputs, i, depth);
        var row := Value(inputs[i], depth + 1);
        if row.Err? { return Err(row.code); }
        if !a.finite(a.add(sum, row.value.value)) { return Err(InvalidArgument); }
        sum := a.add(sum, row.value.value);
        longest := Max(longest, row.value.depth + 1);
      }
      assert inputs[..|inputs|] == inputs;
      r := Ok(Calculated(sum, longest));
    }

    /** The loop of `evaluate` over the cells, in whatever order they are listed. */
    method Values(names: seq<string>) returns (r: Result<map<string, N>>)
      requires completed == map[] && active == {} && visits == 0
      requires forall c :: c in names <==> c in cells
      modifies this
      ensures Valid()
      ensures visits <= |names| + Work(cells, Started())
      ensures r.Err? && visits <= limit && visits < MAX_USIZE ==> !AllPlain(a, cells)
      ensures r.Ok? ==> visits == |names| + Work(cells, Started()) && active == {} && r.value.Keys == cells.Keys
      ensures r.Ok? ==> forall c :: c in r.value ==> c in completed && r.value[c] == completed[c].value
    {
      var values: map<string, N> := map[];
      assert Started() == {};
      for i := 0 to |names|
        invariant forall c :: c in values <==> c in names[..i]
        invariant forall c :: c in values ==> c in completed && values[c] == completed[c].value
        invariant Valid() && active == {}
        invariant visits == i + Work(cells, Started())
      {
        var row := Value(names[i], 0);
        if row.Err? {
          return Err(row.code);
        }
        values := values[names[i] := row.value.value];
        assert names[..i + 1] == names[..i] + [names[i]];
      }
      assert names[..|names|] == names;
      r := Ok(values);
    }
  }

  /** What the next input makes of a partial sum, and that a failure stands. */
  lemma PlainSumNext<N>(a: Arithmetic<N>, cells: Sheet<N>, inputs: seq<string>, i: nat, d: nat)
    requires i < |inputs| && d <= MAX_DEPTH && PlainSum(a, cells, inputs[..i], d).Some?
    ensures var before, row := PlainSum(a, cells, inputs[..i], d).value, Plain(a, cells, inputs[i], d + 1);
            && (row.None? || !a.finite(a.add(before.value, row.value.value)) ==> PlainSum(a, cells, inputs, d).None?)
            && (row.Some? && a.finite(a.add(before.value, row.value.value)) ==>
                  PlainSum(a, cells, inputs[..i + 1], d)
                    == Some(Calculated(a.add(before.value, row.value.value), Max(before.depth, row.value.depth + 1))))
  {
    assert inputs[..i + 1][..i] == inputs[..i];
    if PlainSum(a, cells, inputs[..i + 1], d).None? { PlainSumFails(a, cells, inputs, i, d); }
  }

  /** Once an input fails or a partial sum is not finite, the formula fails. */
  lemma {:induction false} PlainSumFails<N>(a: Arithmetic<N>, cells: Sheet<N>, inputs: seq<string>, i: nat, d: nat)
    requires i < |inputs| && d <= MAX_DEPTH && PlainSum(a, cells, inputs[..i + 1], d).None?
    ensures PlainSum(a, cells, inputs, d).None?
    decreases |inputs|
  {
    if i + 1 < |inputs| {
      var front := inputs[..|inputs| - 1];
      assert front[..i + 1] == inputs[..i + 1];
      PlainSumFails(a, cells, front, i, d);
    } else {
      assert inputs[..i + 1] == inputs;
    }
  }

  // ----- Evaluating a sheet ----------------------------------------------------------

  /** `evaluate` on a checked sheet. */
  method EvaluateCells<N(==)>(a: Arithmetic<N>, cells: Sheet<N>) returns (r: Result<map<string, N>>, visits: nat)
    requires Small(cells)
    ensures r.Ok? <==> AllPlain(a, cells)
    ensures r.Ok? ==> r.value == PlainValues(a, cells)
    ensures r.Ok? ==> visits == |cells| + Work(cells, cells.Keys)
    ensures visits <= MAX_CELLS + MAX_CELLS * MAX_INPUTS
  {
    var evaluation := new Evaluation(a, cells, MAX_VISITS);
    var names := Sorted(cells.Keys);
    assert |cells.Keys| == |cells|;
    r := evaluation.Values(names);
    visits := evaluation.visits;
    WorkOfASheet(cells, evaluation.Started());
    if r.Ok? {
      CompletedIsPlain(a, cells, evaluation.completed, r.value);
      assert evaluation.Started() == cells.Keys;
    }
  }

  lemma CompletedIsPlain<N>(a: Arithmetic<N>, cells: Sheet<N>, completed: map<string, Calculated<N>>,
                            values: map<string, N>)
    requires forall c {:trigger IsTrue(a, cells, c, completed[c])} ::
               c in completed ==> IsTrue(a, cells, c, completed[c])
    requires values.Keys == cells.Keys
    requires forall c :: c in values ==> c in completed && values[c] == completed[c].value
    ensures AllPlain(a, cells) && values == PlainValues(a, cells) && completed.Keys == cells.Keys
  {
    forall c | c in cells ensures c in completed && Plain(a, cells, c, 0) == Some(completed[c]) {
      assert c in values;
      assert IsTrue(a, cells, c, completed[c]);
    }
    forall c | c in completed ensures c in cells { assert IsTrue(a, cells, c, completed[c]); }
  }

  /** `evaluate`: succeeds exactly on the accepted sheets, with their one solution; with the
      visits it took, which the budget never cuts short. */
  method Evaluate<N(==,!new)>(a: Arithmetic<N>, cells: Sheet<N>) returns (r: Result<map<string, N>>, visits: nat)
    ensures r.Ok? <==> Accepted(a, cells)
    ensures r.Ok? ==> IsSolution(a, cells, r.value)
    ensures r.Ok? ==> visits == |cells| + Work(cells, cells.Keys)
    ensures visits <= MAX_CELLS + MAX_CELLS * MAX_INPUTS == 8448 < MAX_VISITS
  {
    AcceptedIsPlain(a, cells);
    if !WellFormed(a, cells) { return Err(InvalidArgument), 0; }
    WellFormedIsSmall(a, cells);
    r, visits := EvaluateCells(a, cells);
    if r.Ok? { PlainSolves(a, cells); }
  }

  // ----- The table operations --------------------------------------------------------

  /** The parameters of an operation: a cell name and a cell value, or anything else. */
  datatype Edit<N> = SetCell(cell: string, value: Cell<N>) | OtherParameters

  /** `apply`: an edit goes through exactly when the sheet before it and the sheet after it are
      accepted, and then changes that one cell. */
  method ApplyEdit<N(==,!new)>(a: Arithmetic<N>, cells: Sheet<N>, operation: string, edit: Edit<N>)
    returns (r: Result<Sheet<N>>)
    ensures operation != "set-cell" ==> r == Err(PermissionDenied)
    ensures r.Ok? <==> operation == "set-cell" && Accepted(a, cells) && edit.SetCell? && IsAddress(edit.cell)
                       && Accepted(a, cells[edit.cell := edit.value])
    ensures r.Ok? ==> r.value == cells[edit.cell := edit.value]
  {
    if operation != "set-cell" { return Err(PermissionDenied); }
    var before, _ := Evaluate(a, cells);
    if before.Err? { return Err(before.code); }
    if !edit.SetCell? || !IsAddress(edit.cell) { return Err(InvalidArgument); }
    var next := cells[edit.cell := edit.value];
    var after, _ := Evaluate(a, next);
    if after.Err? { return Err(after.code); }
    return Ok(next);
  }

  /** `dependencies`: for an accepted sheet all pairs of an input and its formula. */
  method Dependencies<N(==,!new)>(a: Arithmetic<N>, cells: Sheet<N>) returns (r: Result<set<(string, string)>>)
    ensures r.Ok? <==> Accepted(a, cells)
    ensures r.Ok? ==> r.value == Relations(cells)
  {
    var checked, _ := Evaluate(a, cells);
    if checked.Err? { return Err(checked.code); }
    var relations := CollectRelations(cells);
    return Ok(relations);
  }

  /** The loop of `dependencies` over the cells, in any order, and their inputs. */
  method CollectRelations<N(==)>(cells: Sheet<N>) returns (relations: set<(string, string)>)
    ensures relations == Relations(cells)
  {
    relations := {};
    var left := cells.Keys;
    while left != {}
      invariant left <= cells.Keys && relations == Among(cells, cells.Keys - left)
      decreases |left|
    {
      var target :| target in left;
      AmongWith(cells, cells.Keys - left, target);
      if cells[target].Sum? { relations := AddRelations(relations, cells[target].inputs, target); }
      assert cells.Keys - (left - {target}) == cells.Keys - left + {target};
      left := left - {target};
    }
    assert cells.Keys - left == cells.Keys;
    assert Among(cells, cells.Keys) == Relations(cells);
  }

  /** The inner loop, over the inputs of one formula. */
  method AddRelations(relations: set<(string, string)>, inputs: seq<string>, target: string)
    returns (more: set<(string, string)>)
    ensures more == relations + Into(inputs, target)
  {
    more := relations;
    for i := 0 to |inputs|
      invariant more == relations + Into(inputs[..i], target)
    {
      IntoNext(inputs, i, target);
      more := more + {(inputs[i], target)};
    }
    assert inputs[..|inputs|] == inputs;
  }

  ghost function Into(inputs: seq<string>, target: string): set<(string, string)> {
    set i | 0 <= i < |inputs| :: (inputs[i], target)
  }

  /** The relations into some of the cells. */
  ghost function Among<N>(cells: Sheet<N>, names: set<string>): set<(string, string)> {
    set target, i | target in cells && target in names && cells[target].Sum? && 0 <= i < |cells[target].inputs| ::
      (cells[target].inputs[i], target)
  }

  lemma IntoNext(inputs: seq<string>, i: nat, target: string)
    requires i < |inputs|
    ensures Into(inputs[..i + 1], target) == Into(inputs[..i], target) + {(inputs[i], target)}
  {
    var more, fewer := Into(inputs[..i + 1], target), Into(inputs[..i], target) + {(inputs[i], target)};
    forall p | p in fewer ensures p in more {
      if p in Into(inputs[..i], target) {
        var k :| 0 <= k < i && p == (inputs[..i][k], target);
        assert inputs[..i + 1][k] == inputs[k];
      } else {
        assert inputs[..i + 1][i] == inputs[i];
      }
    }
    forall p | p in more ensures p in fewer {
      var k :| 0 <= k < i + 1 && p == (inputs[..i + 1][k], target);
      if k < i { assert inputs[..i][k] == inputs[k]; }
    }
  }

  lemma AmongWith<N>(cells: Sheet<N>, names: set<string>, target: string)
    requires target in cells
    ensures Among(cells, names + {target})
         == Among(cells, names) + if cells[target].Sum? then Into(cells[target].inputs, target) else {}
  {
    var more := Among(cells, names + {target});
    if cells[target].Sum? {
      forall p | p in Into(cells[target].inputs, target) ensures p in more {
        var i :| 0 <= i < |cells[target].inputs| && p == (cells[target].inputs[i], target);
      }
    }
    forall p | p in more && p !in Among(cells, names)
      ensures cells[target].Sum? && p in Into(cells[target].inputs, target)
    {
      var t, i :| t in cells && t in names + {target} && cells[t].Sum? && 0 <= i < |cells[t].inputs|
          && p == (cells[t].inputs[i], t);
    }
    forall p | p in Among(cells, names) ensures p in more {
      var t, i :| t in cells && t in names && cells[t].Sum? && 0 <= i < |cells[t].inputs|
          && p == (cells[t].inputs[i], t);
    }
  }
}
