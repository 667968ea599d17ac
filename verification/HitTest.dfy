/** The paint-order hit test over a DOM snapshot, and its two bounded ancestor walks. Fields of
    the JSON snapshot are optional where the code reads them as such. */
module HitTest {
  import opened Results

  const MAX_STEPS := 512

  datatype Nodes = Nodes(backends: Option<seq<Option<nat>>>, parents: Option<seq<Option<int>>>)
  datatype Layout = Layout(nodeIndexes: Option<seq<Option<int>>>, bounds: Option<seq<Option<seq<Option<real>>>>>,
                           paintOrders: Option<seq<Option<int>>>)
  datatype Document = Document(scrollX: Option<real>, scrollY: Option<real>, nodes: Nodes, layout: Layout)

  function GetOr<T>(o: Option<T>, default: T): T { if o.Some? then o.value else default }

  function At<T>(s: Option<seq<Option<T>>>, i: nat): Option<T> {
    if s.Some? && i < |s.value| then s.value[i] else None
  }

  // ----- Ancestors -------------------------------------------------------------------

  /** The next node of a walk: a parent index that is neither negative, nor the node itself,
      nor out of range. */
  function Parent(nodes: Nodes, i: nat): Option<nat> {
    var parent := At(nodes.parents, i);
    if nodes.backends.Some? && parent.Some? && 0 <= parent.value < |nodes.backends.value| && parent.value != i
    then Some(parent.value) else None
  }

  /** The node `k` steps up, if there are that many. */
  function Up(nodes: Nodes, i: nat, k: nat): Option<nat> {
    if k == 0 then Some(i) else
      var before := Up(nodes, i, k - 1);
      if before.None? then None else Parent(nodes, before.value)
  }

  /** The first node with a backend id. */
  function Position(backends: seq<Option<nat>>, target: nat): (r: Option<nat>)
    ensures r.Some? ==> r.value < |backends| && backends[r.value] == Some(target)
    ensures r.Some? ==> forall j :: 0 <= j < r.value ==> backends[j] != Some(target)
    ensures r.None? ==> forall j :: 0 <= j < |backends| ==> backends[j] != Some(target)
  {
    if backends == [] then None
    else if backends[0] == Some(target) then Some(0)
    else
      var rest := Position(backends[1..], target);
      if rest.None? then None else Some(rest.value + 1)
  }

  /** Within fewer than 512 steps up from a node there is one with the target's id. */
  ghost predicate TargetAbove(nodes: Nodes, i: nat, target: nat) {
    nodes.backends.Some? &&
    exists k: nat :: k < MAX_STEPS && Up(nodes, i, k).Some? && At(nodes.backends, Up(nodes, i, k).value) == Some(target)
  }

  /** Within fewer than 512 steps up from the target there is the given node. */
  ghost predicate AboveTarget(nodes: Nodes, ancestor: nat, target: nat) {
    nodes.backends.Some? && Position(nodes.backends.value, target).Some? &&
    exists k: nat :: k < MAX_STEPS && Up(nodes, Position(nodes.backends.value, target).value, k) == Some(ancestor)
  }

  /** `snapshot_node_is_target_or_descendant`. */
  method NodeIsTargetOrDescendant(nodes: Nodes, start: nat, target: nat) returns (r: bool)
    ensures r <==> TargetAbove(nodes, start, target)
  {
    if nodes.backends.None? { return false; }
    var index := start;
    for step := 0 to MAX_STEPS
      invariant Up(nodes, start, step) == Some(index)
      invariant forall k: nat :: k < step ==>
          Up(nodes, start, k).Some? && At(nodes.backends, Up(nodes, start, k).value) != Some(target)
    {
      if At(nodes.backends, index) == Some(target) { return true; }
      var next := Parent(nodes, index);
      if next.None? {
        EndsAt(nodes, start, step);
        return false;
      }
      index := next.value;
    }
    return false;
  }

  /** `snapshot_node_is_ancestor_of_target`. */
  method NodeIsAncestorOfTarget(nodes: Nodes, ancestor: nat, target: nat) returns (r: bool)
    ensures r <==> AboveTarget(nodes, ancestor, target)
  {
    if nodes.backends.None? { return false; }
    var start := Position(nodes.backends.value, target);
    if start.None? { return false; }
    var index := start.value;
    for step := 0 to MAX_STEPS
      invariant Up(nodes, start.value, step) == Some(index)
      invariant forall k: nat :: k < step ==> Up(nodes, start.value, k) != Some(ancestor)
    {
      if index == ancestor { return true; }
      var next := Parent(nodes, index);
      if next.None? {
        EndsAt(nodes, start.value, step);
        return false;
      }
      index := next.value;
    }
    return false;
  }

  /** Where a walk ends it goes no further. */
  lemma {:induction false} UpStops(nodes: Nodes, i: nat, k: nat, m: nat)
    requires Up(nodes, i, k).None? && k <= m
    ensures Up(nodes, i, m).None?
    decreases m
  {
    if k < m { UpStops(nodes, i, k, m - 1); }
  }

  lemma EndsAt(nodes: Nodes, i: nat, k: nat)
    requires Up(nodes, i, k).Some? && Parent(nodes, Up(nodes, i, k).value).None?
    ensures forall m: nat :: m > k ==> Up(nodes, i, m).None?
  {
    forall m: nat | m > k ensures Up(nodes, i, m).None? { UpStops(nodes, i, k + 1, m); }
  }

  // ----- The walks as relations ------------------------------------------------------

  /** Every node has an id of its own. */
  ghost predicate DistinctIds(nodes: Nodes) {
    && nodes.backends.Some?
    && (forall i :: 0 <= i < |nodes.backends.value| ==> nodes.backends.value[i].Some?)
    && (forall i, j :: 0 <= i < j < |nodes.backends.value| ==> nodes.backends.value[i] != nodes.backends.value[j])
  }

  ghost function IdOf(nodes: Nodes, i: nat): nat
    requires DistinctIds(nodes) && i < |nodes.backends.value|
  {
    nodes.backends.value[i].value
  }

  lemma PositionOfId(nodes: Nodes, i: nat)
    requires DistinctIds(nodes) && i < |nodes.backends.value|
    ensures Position(nodes.backends.value, IdOf(nodes, i)) == Some(i)
  {
    assert nodes.backends.value[i] == Some(IdOf(nodes, i));
    assert forall j :: 0 <= j < i ==> nodes.backends.value[j] != nodes.backends.value[i];
  }

  lemma {:induction false} UpStaysInside(nodes: Nodes, i: nat, k: nat)
    requires nodes.backends.Some? && i < |nodes.backends.value| && Up(nodes, i, k).Some?
    ensures Up(nodes, i, k).value < |nodes.backends.value|
  {
    if k > 0 { UpStaysInside(nodes, i, k - 1); }
  }

  /** The two walks are converses: from a node up to another's id, and from that id's node to
      this one, cut off at the same length, in forests and in malformed graphs alike. */
  lemma WalksAreConverses(nodes: Nodes, i: nat, a: nat)
    requires DistinctIds(nodes) && i < |nodes.backends.value| && a < |nodes.backends.value|
    ensures TargetAbove(nodes, i, IdOf(nodes, a)) <==> AboveTarget(nodes, a, IdOf(nodes, i))
  {
    PositionOfId(nodes, i);
    forall k: nat | Up(nodes, i, k).Some?
      ensures At(nodes.backends, Up(nodes, i, k).value) == Some(IdOf(nodes, a)) <==> Up(nodes, i, k).value == a
    {
      UpStaysInside(nodes, i, k);
      var j := Up(nodes, i, k).value;
      assert j != a ==> nodes.backends.value[j] != nodes.backends.value[a];
    }
  }

  /** The snapshot gives a node another one as its parent. */
  ghost predicate IsParent(nodes: Nodes, parent: nat, i: nat) {
    && nodes.backends.Some? && parent < |nodes.backends.value| && parent != i
    && nodes.parents.Some? && i < |nodes.parents.value| && nodes.parents.value[i] == Some(parent)
  }

  lemma ParentIsParent(nodes: Nodes, i: nat, parent: nat)
    ensures Parent(nodes, i) == Some(parent) <==> IsParent(nodes, parent, i)
  {
  }

  /** A line of nodes, each followed by its parent. */
  ghost predicate IsLineage(nodes: Nodes, line: seq<nat>) {
    line != [] && forall k :: 0 <= k < |line| - 1 ==> IsParent(nodes, line[k + 1], line[k])
  }

  /** Unbounded ancestry, the node itself included. */
  ghost predicate IsAncestor(nodes: Nodes, a: nat, i: nat) {
    exists line: seq<nat> :: IsLineage(nodes, line) && line[0] == i && line[|line| - 1] == a
  }

  lemma {:induction false} LineageIsWalk(nodes: Nodes, line: seq<nat>)
    requires IsLineage(nodes, line)
    ensures Up(nodes, line[0], |line| - 1) == Some(line[|line| - 1])
  {
    if |line| > 1 {
      var front := line[..|line| - 1];
      LineageIsWalk(nodes, front);
      assert IsParent(nodes, line[|line| - 2 + 1], line[|line| - 2]);
      ParentIsParent(nodes, line[|line| - 2], line[|line| - 1]);
    }
  }

  lemma {:induction false} WalkIsLineage(nodes: Nodes, i: nat, k: nat) returns (line: seq<nat>)
    requires Up(nodes, i, k).Some?
    ensures IsLineage(nodes, line) && line[0] == i && line[|line| - 1] == Up(nodes, i, k).value
  {
    if k == 0 {
      line := [i];
    } else {
      var front := WalkIsLineage(nodes, i, k - 1);
      line := front + [Up(nodes, i, k).value];
      ParentIsParent(nodes, front[|front| - 1], Up(nodes, i, k).value);
    }
  }

  ghost predicate IsReached(nodes: Nodes, a: nat, i: nat) { exists k: nat :: Up(nodes, i, k) == Some(a) }

  lemma AncestorsAreReached(nodes: Nodes, a: nat, i: nat)
    ensures IsAncestor(nodes, a, i) <==> IsReached(nodes, a, i)
  {
    if IsAncestor(nodes, a, i) {
      var line: seq<nat> :| IsLineage(nodes, line) && line[0] == i && line[|line| - 1] == a;
      LineageIsWalk(nodes, line);
    }
    if k: nat :| Up(nodes, i, k) == Some(a) {
      var line := WalkIsLineage(nodes, i, k);
    }
  }

  ghost predicate EndsInTime(nodes: Nodes, i: nat) { Up(nodes, i, MAX_STEPS).None? }

  /** A forest of depth under 512: every walk ends in time. */
  ghost predicate IsShallow(nodes: Nodes) {
    nodes.backends.Some? && forall i: nat :: i < |nodes.backends.value| ==> EndsInTime(nodes, i)
  }

  lemma WalksReach(nodes: Nodes, i: nat, t: nat)
    requires DistinctIds(nodes) && IsShallow(nodes) && EndsInTime(nodes, i) && t < |nodes.backends.value|
    ensures TargetAbove(nodes, i, IdOf(nodes, t)) <==> IsReached(nodes, t, i)
    ensures AboveTarget(nodes, i, IdOf(nodes, t)) <==> IsReached(nodes, i, t)
  {
    PositionOfId(nodes, t);
    assert EndsInTime(nodes, t);
    forall j: nat, k: nat | EndsInTime(nodes, j) && Up(nodes, j, k).Some? ensures k < MAX_STEPS {
      if k >= MAX_STEPS { UpStops(nodes, j, MAX_STEPS, k); }
    }
    forall j: nat ensures At(nodes.backends, j) == Some(IdOf(nodes, t)) <==> j == t {
      if j < |nodes.backends.value| && j != t {
        assert nodes.backends.value[j] != nodes.backends.value[t];
      }
    }
  }

  /** In a shallow forest the bounds do not matter: the walks decide ancestry, for an index that
      is no node too, as long as its walk ends in time. */
  lemma WalksDecideAncestry(nodes: Nodes, i: nat, t: nat)
    requires DistinctIds(nodes) && IsShallow(nodes) && EndsInTime(nodes, i) && t < |nodes.backends.value|
    ensures TargetAbove(nodes, i, IdOf(nodes, t)) <==> IsAncestor(nodes, t, i)
    ensures AboveTarget(nodes, i, IdOf(nodes, t)) <==> IsAncestor(nodes, i, t)
  {
    WalksReach(nodes, i, t);
    AncestorsAreReached(nodes, t, i);
    AncestorsAreReached(nodes, i, t);
  }

  // ----- Boxes under a point ---------------------------------------------------------

  /** The box of a layout entry, if it is four finite numbers with a positive size. */
  function Box(d: Document, li: nat): Option<(real, real, real, real)> {
    var bound := At(d.layout.bounds, li);
    if bound.Some? && |bound.value| == 4 && bound.value[0].Some? && bound.value[1].Some? && bound.value[2].Some?
       && bound.value[3].Some? && bound.value[2].value > 0.0 && bound.value[3].value > 0.0
    then Some((bound.value[0].value, bound.value[1].value, bound.value[2].value, bound.value[3].value))
    else None
  }

  /** The entry's box holds the point, scrolled, edges included, and the entry names a node. */
  predicate Covers(d: Document, x: real, y: real, li: nat) {
    var box, node := Box(d, li), At(d.layout.nodeIndexes, li);
    var px, py := x + GetOr(d.scrollX, 0.0), y + GetOr(d.scrollY, 0.0);
    box.Some? && box.value.0 <= px <= box.value.0 + box.value.2 && box.value.1 <= py <= box.value.1 + box.value.3
    && node.Some? && node.value >= 0
  }

  function Paint(d: Document, li: nat): int { GetOr(At(d.layout.paintOrders, li), li) }

  ghost predicate Matches(d: Document, li: nat, target: nat) {
    var node := At(d.layout.nodeIndexes, li);
    node.Some? && node.value >= 0
        && (TargetAbove(d.nodes, node.value, target) || AboveTarget(d.nodes, node.value, target))
  }

  datatype Candidate = Candidate(paint: int, index: nat, matches: bool)

  /** Painted no later: smaller paint order, or the same and no larger layout index. */
  predicate NotAbove(a: Candidate, b: Candidate) {
    a.paint < b.paint || (a.paint == b.paint && a.index <= b.index)
  }

  /** The candidate the loop ends with: each one as great as the best so far replaces it. */
  function Best(candidates: seq<Candidate>): Option<Candidate> {
    if candidates == [] then None else
      var before, last := Best(candidates[..|candidates| - 1]), candidates[|candidates| - 1];
      if before.None? || NotAbove(before.value, last) then Some(last) else before
  }

  /** The candidates among the first `n` layout entries of a document. */
  ghost function InDocument(d: Document, x: real, y: real, target: nat, n: nat): seq<Candidate> {
    if n == 0 then [] else
      InDocument(d, x, y, target, n - 1)
      + if Covers(d, x, y, n - 1) then [Candidate(Paint(d, n - 1), n - 1, Matches(d, n - 1, target))] else []
  }

  predicate Holds(d: Document, target: nat) {
    d.nodes.backends.Some? && Position(d.nodes.backends.value, target).Some?
  }

  predicate IsReadable(d: Document) { d.layout.nodeIndexes.Some? && d.layout.bounds.Some? }

  /** All candidates of the documents that hold the target, or the error of the first of them
      whose layout is malformed. */
  ghost function Candidates(documents: seq<Document>, x: real, y: real, target: nat): Result<seq<Candidate>> {
    if documents == [] then Ok([]) else
      var d := documents[|documents| - 1];
      var before :- Candidates(documents[..|documents| - 1], x, y, target);
      if !Holds(d, target) then Ok(before)
      else if !IsReadable(d) then Err(BackendFailed)
      else Ok(before + InDocument(d, x, y, target, |d.layout.nodeIndexes.value|))
  }

  /** `snapshot_hit_matches_target`. */
  method HitMatchesTarget(snapshot: Option<seq<Document>>, x: real, y: real, target: nat) returns (r: Result<bool>)
    ensures snapshot.None? ==> r == Err(BackendFailed)
    ensures snapshot.Some? ==>
              match Candidates(snapshot.value, x, y, target)
              case Ok(all) => r == Ok(Best(all).Some? && Best(all).value.matches)
              case Err(code) => r == Err(code)
  {
    if snapshot.None? { return Err(BackendFailed); }
    var documents := snapshot.value;
    var best: Option<Candidate> := None;
    for i := 0 to |documents|
      invariant Candidates(documents[..i], x, y, target).Ok?
      invariant best == Best(Candidates(documents[..i], x, y, target).value)
    {
      CandidatesNext(documents, x, y, target, i);
      var d := documents[i];
      if Holds(d, target) {
        if !IsReadable(d) { return Err(BackendFailed); }
        best := HitInDocument(d, x, y, target, Candidates(documents[..i], x, y, target).value, best);
      }
    }
    assert documents[..|documents|] == documents;
    return Ok(best.Some? && best.value.matches);
  }

  /** The inner loop, over the layout entries of one document. */
  method HitInDocument(d: Document, x: real, y: real, target: nat, ghost before: seq<Candidate>,
                       start: Option<Candidate>)
    returns (best: Option<Candidate>)
    requires IsReadable(d) && start == Best(before)
    ensures best == Best(before + InDocument(d, x, y, target, |d.layout.nodeIndexes.value|))
  {
    best := start;
    assert before + [] == before;
    for li := 0 to |d.layout.nodeIndexes.value|
      invariant best == Best(before + InDocument(d, x, y, target, li))
    {
      assert before + (InDocument(d, x, y, target, li) + []) == before + InDocument(d, x, y, target, li);
      if !Covers(d, x, y, li) { continue; }
      var node := At(d.layout.nodeIndexes, li).value;
      var below := NodeIsTargetOrDescendant(d.nodes, node, target);
      var above := NodeIsAncestorOfTarget(d.nodes, node, target);
      var candidate := Candidate(Paint(d, li), li, below || above);
      BestNext(before + InDocument(d, x, y, target, li), candidate);
      assert before + InDocument(d, x, y, target, li + 1) == before + InDocument(d, x, y, target, li) + [candidate];
      if best.None? || NotAbove(best.value, candidate) { best := Some(candidate); }
    }
  }

  lemma BestNext(candidates: seq<Candidate>, last: Candidate)
    ensures Best(candidates + [last]) ==
            if Best(candidates).None? || NotAbove(Best(candidates).value, last) then Some(last) else Best(candidates)
  {
    assert (candidates + [last])[..|candidates|] == candidates;
  }

  lemma CandidatesNext(documents: seq<Document>, x: real, y: real, target: nat, i: nat)
    requires i < |documents| && Candidates(documents[..i], x, y, target).Ok?
    ensures var before, d := Candidates(documents[..i], x, y, target).value, documents[i];
            if !Holds(d, target) then Candidates(documents[..i + 1], x, y, target) == Ok(before)
            else if !IsReadable(d) then Candidates(documents, x, y, target) == Err(BackendFailed)
            else
              var all := before + InDocument(d, x, y, target, |d.layout.nodeIndexes.value|);
              Candidates(documents[..i + 1], x, y, target) == Ok(all)
  {
    assert documents[..i + 1][..i] == documents[..i];
    if Candidates(documents[..i + 1], x, y, target).Err? { CandidatesFail(documents, x, y, target, i + 1); }
  }

  lemma {:induction false} CandidatesFail(documents: seq<Document>, x: real, y: real, target: nat, n: nat)
    requires n <= |documents| && Candidates(documents[..n], x, y, target).Err?
    ensures Candidates(documents, x, y, target) == Candidates(documents[..n], x, y, target)
  {
    if n < |documents| {
      assert documents[..|documents| - 1][..n] == documents[..n];
      CandidatesFail(documents[..|documents| - 1], x, y, target, n);
    } else {
      assert documents[..n] == documents;
    }
  }

  // ----- What the verdict means ------------------------------------------------------

  /** The best candidate is one of them, none is painted above it, and there is one unless the
      list is empty. */
  lemma {:induction false} BestIsTopmost(candidates: seq<Candidate>)
    ensures Best(candidates).None? <==> candidates == []
    ensures Best(candidates).Some? ==>
              && Best(candidates).value in candidates
              && forall c :: c in candidates ==> NotAbove(c, Best(candidates).value)
  {
    if candidates != [] {
      var front, last := candidates[..|candidates| - 1], candidates[|candidates| - 1];
      BestIsTopmost(front);
      assert candidates == front + [last];
    }
  }

  /** Among candidates that none is painted above, the last one counts, across documents too. */
  lemma {:induction false} BestIsLast(candidates: seq<Candidate>) returns (i: nat)
    requires candidates != []
    ensures i < |candidates| && Best(candidates) == Some(candidates[i])
    ensures forall j :: 0 <= j < i ==> NotAbove(candidates[j], candidates[i])
    ensures forall j :: i < j < |candidates| ==> !NotAbove(candidates[i], candidates[j])
  {
    var front, last := candidates[..|candidates| - 1], candidates[|candidates| - 1];
    if front == [] {
      i := 0;
    } else {
      i := BestIsLast(front);
      if NotAbove(front[i], last) { i := |candidates| - 1; }
    }
  }

  lemma {:induction false} InDocumentIsCovering(d: Document, x: real, y: real, target: nat, n: nat)
    ensures forall c :: c in InDocument(d, x, y, target, n) <==>
              && c.index < n && Covers(d, x, y, c.index)
              && c == Candidate(Paint(d, c.index), c.index, Matches(d, c.index, target))
  {
    if n > 0 { InDocumentIsCovering(d, x, y, target, n - 1); }
  }

  /** The four numbers the layout gives for the box of an entry. */
  ghost predicate HasBox(d: Document, li: nat, left: real, top: real, width: real, height: real) {
    && d.layout.bounds.Some? && li < |d.layout.bounds.value|
    && d.layout.bounds.value[li] == Some([Some(left), Some(top), Some(width), Some(height)])
  }

  /** An entry that names a node and whose box, of positive size, contains the point, edges
      included, once the document's scrolling is added to it. */
  ghost predicate Contains(d: Document, x: real, y: real, li: nat) {
    && d.layout.nodeIndexes.Some? && li < |d.layout.nodeIndexes.value|
    && d.layout.nodeIndexes.value[li].Some? && d.layout.nodeIndexes.value[li].value >= 0
    && var px := if d.scrollX.Some? then x + d.scrollX.value else x;
       var py := if d.scrollY.Some? then y + d.scrollY.value else y;
       exists left, top, width, height ::
         && HasBox(d, li, left, top, width, height) && width > 0.0 && height > 0.0
         && left <= px <= left + width && top <= py <= top + height
  }

  /** The paint order the layout gives for an entry, or its own index where it gives none. */
  ghost predicate IsOrder(d: Document, li: nat, order: int) {
    if d.layout.paintOrders.Some? && li < |d.layout.paintOrders.value| && d.layout.paintOrders.value[li].Some?
    then order == d.layout.paintOrders.value[li].value
    else order == li
  }

  /** Painted later: greater paint order, or the same and a greater layout index. */
  ghost predicate IsAbove(d: Document, li: nat, other: nat) {
    exists p, q :: IsOrder(d, li, p) && IsOrder(d, other, q) && (q < p || (q == p && other < li))
  }

  /** The entry is painted on top of the point: it contains it, and is painted later than every
      other entry that does. */
  ghost predicate IsTopmost(d: Document, x: real, y: real, li: nat) {
    && Contains(d, x, y, li)
    && forall other: nat :: other != li && Contains(d, x, y, other) ==> IsAbove(d, li, other)
  }

  lemma CoversIsContains(d: Document, x: real, y: real, li: nat)
    ensures Covers(d, x, y, li) <==> Contains(d, x, y, li)
  {
    if Covers(d, x, y, li) {
      var box := Box(d, li).value;
      assert d.layout.bounds.value[li].value == [Some(box.0), Some(box.1), Some(box.2), Some(box.3)];
      assert HasBox(d, li, box.0, box.1, box.2, box.3);
    }
  }

  lemma PaintIsOrder(d: Document, li: nat, other: nat)
    ensures IsAbove(d, li, other) <==> Paint(d, other) < Paint(d, li) || (Paint(d, other) == Paint(d, li) && other < li)
  {
    assert IsOrder(d, li, Paint(d, li)) && IsOrder(d, other, Paint(d, other));
  }

  /** A readable document decides the test by its topmost entry under the point. */
  lemma TopmostDecides(d: Document, x: real, y: real, target: nat)
    requires Holds(d, target) && IsReadable(d)
    ensures var best := Best(InDocument(d, x, y, target, |d.layout.nodeIndexes.value|));
            (best.Some? && best.value.matches) <==> exists li: nat :: IsTopmost(d, x, y, li) && Matches(d, li, target)
  {
    var n := |d.layout.nodeIndexes.value|;
    var all := InDocument(d, x, y, target, n);
    BestIsTopmost(all);
    InDocumentIsCovering(d, x, y, target, n);
    if Best(all).Some? {
      var c := Best(all).value;
      CoversIsContains(d, x, y, c.index);
      forall other: nat | other != c.index && Contains(d, x, y, other) ensures IsAbove(d, c.index, other) {
        CoversIsContains(d, x, y, other);
        PaintIsOrder(d, c.index, other);
        assert Candidate(Paint(d, other), other, Matches(d, other, target)) in all;
      }
      assert IsTopmost(d, x, y, c.index);
    }
    forall li: nat | IsTopmost(d, x, y, li) ensures Best(all).Some? && Best(all).value.index == li {
      CoversIsContains(d, x, y, li);
      assert Candidate(Paint(d, li), li, Matches(d, li, target)) in all;
      var c := Best(all).value;
      CoversIsContains(d, x, y, c.index);
      PaintIsOrder(d, li, c.index);
    }
  }

  lemma {:induction false} OnlyDocument(documents: seq<Document>, x: real, y: real, target: nat, i: nat)
    requires i < |documents| && Holds(documents[i], target) && IsReadable(documents[i])
    requires forall j :: 0 <= j < |documents| && j != i ==> !Holds(documents[j], target)
    ensures Candidates(documents, x, y, target) ==
        Ok(InDocument(documents[i], x, y, target, |documents[i].layout.nodeIndexes.value|))
  {
    var front := documents[..|documents| - 1];
    if i == |documents| - 1 {
      NoDocument(front, x, y, target);
      var all := InDocument(documents[i], x, y, target, |documents[i].layout.nodeIndexes.value|);
      assert [] + all == all;
    } else {
      OnlyDocument(front, x, y, target, i);
    }
  }

  lemma {:induction false} NoDocument(documents: seq<Document>, x: real, y: real, target: nat)
    requires forall j :: 0 <= j < |documents| ==> !Holds(documents[j], target)
    ensures Candidates(documents, x, y, target) == Ok([])
  {
    if documents != [] { NoDocument(documents[..|documents| - 1], x, y, target); }
  }

  /** The hit test. When one document holds the target, its nodes have distinct ids and form a
      forest of depth under 512, and walks from what its layout names end in time too, the
      test is true exactly when the entry painted on top of the point belongs to the target,
      to one of its ancestors or to one of its descendants. */
  lemma HitTestMeaning(documents: seq<Document>, x: real, y: real, i: nat, t: nat)
    requires i < |documents| && IsReadable(documents[i])
    requires DistinctIds(documents[i].nodes) && IsShallow(documents[i].nodes) && t < |documents[i].nodes.backends.value|
    requires forall li :: 0 <= li < |documents[i].layout.nodeIndexes.value| ==>
               var node := documents[i].layout.nodeIndexes.value[li];
               node.Some? && node.value >= 0 ==> EndsInTime(documents[i].nodes, node.value)
    requires forall j :: 0 <= j < |documents| && j != i ==> !Holds(documents[j], IdOf(documents[i].nodes, t))
    ensures var d := documents[i];
            var all := Candidates(documents, x, y, IdOf(d.nodes, t));
            && all.Ok?
            && ((Best(all.value).Some? && Best(all.value).value.matches) <==>
                exists li: nat :: IsTopmost(d, x, y, li)
                  && var node := d.layout.nodeIndexes.value[li].value;
                     IsAncestor(d.nodes, t, node) || IsAncestor(d.nodes, node, t))
  {
    var d := documents[i];
    var target := IdOf(d.nodes, t);
    PositionOfId(d.nodes, t);
    OnlyDocument(documents, x, y, target, i);
    TopmostDecides(d, x, y, target);
    forall li: nat | IsTopmost(d, x, y, li)
      ensures Matches(d, li, target) <==>
                var node := d.layout.nodeIndexes.value[li].value;
                IsAncestor(d.nodes, t, node) || IsAncestor(d.nodes, node, t)
    {
      WalksDecideAncestry(d.nodes, d.layout.nodeIndexes.value[li].value, t);
    }
  }
}
