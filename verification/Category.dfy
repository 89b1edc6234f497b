/** The category tree: the depth-truncated ancestor walk that validates a parent, and the
    service that writes it (internal/features/category). */
module Category {
  import opened Common

  type Id = nat

  /** uuid.Nil, which no category carries. */
  const NIL: Id := 0

  const MAX_DEPTH: nat := 5

  datatype Row = Row(name: string, slug: string, parent: Option<Id>, sortOrder: int, active: bool)

  type Table = map<Id, Row>

  // ---- the walk ----

  /** The rows of the recursive query from `id`, which it visits at depth `depth`; it follows a
      parent only from a row at most `maxDepth` deep, so it ends even on cyclic data. */
  function Walk(t: Table, id: Id, depth: nat, maxDepth: nat): (r: seq<Id>)
    requires depth <= maxDepth + 1
    ensures |r| <= maxDepth + 2 - depth
    decreases maxDepth + 1 - depth
  {
    if id !in t then []
    else if depth <= maxDepth && t[id].parent.Some? then [id] + Walk(t, t[id].parent.value, depth + 1, maxDepth)
    else [id]
  }

  /** AncestorDepthAndCycle: MAX(depth) and whether `self` is among the rows. */
  function AncestorDepthAndCycle(t: Table, parent: Id, self: Id, maxDepth: nat): (nat, bool)
    requires maxDepth >= 0
  {
    var rows := Walk(t, parent, 1, maxDepth);
    (|rows|, self in rows)
  }

  function ValidateParentSelf(parent: Id, self: Id): Option<Error> {
    if parent == self && self != NIL then Some(BadRequest) else None
  }

  function ValidateParentDepth(depth: nat, formsCycle: bool): Option<Error> {
    if depth == 0 || formsCycle || depth + 1 > MAX_DEPTH then Some(BadRequest) else None
  }

  predicate Accepts(t: Table, parent: Id, self: Id) {
    var (depth, formsCycle) := AncestorDepthAndCycle(t, parent, self, MAX_DEPTH);
    ValidateParentSelf(parent, self).None? && ValidateParentDepth(depth, formsCycle).None?
  }

  // ---- the tree ----

  /** The chain of parents from `id` ends at a root within `n` steps. */
  predicate Rooted(t: Table, id: Id, n: nat)
    decreases n
  {
    id in t && (t[id].parent.None? || (n > 0 && Rooted(t, t[id].parent.value, n - 1)))
  }

  ghost predicate Forest(t: Table) {
    NIL !in t && forall id | id in t :: exists n: nat :: Rooted(t, id, n)
  }

  /** The chain from `id` first meets `target` after exactly `k` steps. */
  predicate Hits(t: Table, id: Id, target: Id, k: nat)
    decreases k
  {
    id in t &&
    if id == target then k == 0
    else k > 0 && t[id].parent.Some? && Hits(t, t[id].parent.value, target, k - 1)
  }

  /** `target` is `id` or one of its ancestors. */
  ghost predicate Reaches(t: Table, id: Id, target: Id) {
    exists k: nat :: Hits(t, id, target, k)
  }

  /** `id` is its own ancestor. */
  ghost predicate OnCycle(t: Table, id: Id) {
    id in t && t[id].parent.Some? && Reaches(t, t[id].parent.value, id)
  }

  lemma {:induction false} RootedLonger(t: Table, id: Id, n: nat, m: nat)
    requires Rooted(t, id, n) && n <= m
    ensures Rooted(t, id, m)
    decreases n
  {
    if t[id].parent.Some? {
      RootedLonger(t, t[id].parent.value, n - 1, m - 1);
    }
  }

  /** Walking `k` steps along a rooted chain leaves a chain `k` steps shorter. */
  lemma {:induction false} HitShortens(t: Table, id: Id, target: Id, n: nat, k: nat)
    requires Rooted(t, id, n) && Hits(t, id, target, k)
    ensures k <= n && Rooted(t, target, n - k)
    decreases n
  {
    if id != target {
      HitShortens(t, t[id].parent.value, target, n - 1, k - 1);
    }
  }

  lemma {:induction false} CycleNotRooted(t: Table, id: Id, k: nat, n: nat)
    requires id in t && t[id].parent.Some? && Hits(t, t[id].parent.value, id, k)
    ensures !Rooted(t, id, n)
    decreases n
  {
    if Rooted(t, id, n) {
      HitShortens(t, t[id].parent.value, id, n - 1, k);
      CycleNotRooted(t, id, k, n - 1 - k);
    }
  }

  lemma ForestHasNoCycle(t: Table, id: Id)
    requires Forest(t)
    ensures !OnCycle(t, id)
  {
    if OnCycle(t, id) {
      var k: nat :| Hits(t, t[id].parent.value, id, k);
      var n: nat :| Rooted(t, id, n);
      CycleNotRooted(t, id, k, n);
    }
  }

  lemma ReachesStep(t: Table, id: Id, target: Id)
    requires id in t
    ensures Reaches(t, id, target) <==>
            id == target || (t[id].parent.Some? && Reaches(t, t[id].parent.value, target))
  {
    assert id == target ==> Hits(t, id, target, 0);
    if k: nat :| Hits(t, id, target, k) && id != target {
      assert Hits(t, t[id].parent.value, target, k - 1);
    }
    if t[id].parent.Some? && id != target {
      if k: nat :| Hits(t, t[id].parent.value, target, k) {
        assert Hits(t, id, target, k + 1);
      }
    }
  }

  // ---- what an accepted parent means ----

  /** A walk that came back shorter than its cut-off ended at a root and saw every ancestor. */
  lemma {:induction false} ShortWalkIsWhole(t: Table, id: Id, depth: nat, maxDepth: nat, target: Id)
    requires depth <= maxDepth + 1 && Closed(t) && id in t
    requires |Walk(t, id, depth, maxDepth)| <= maxDepth + 1 - depth
    ensures Rooted(t, id, |Walk(t, id, depth, maxDepth)| - 1)
    ensures target in Walk(t, id, depth, maxDepth) <==> Reaches(t, id, target)
    decreases maxDepth + 1 - depth
  {
    var rows := Walk(t, id, depth, maxDepth);
    if depth <= maxDepth && t[id].parent.Some? {
      var up := t[id].parent.value;
      var rest := Walk(t, up, depth + 1, maxDepth);
      assert rows == [id] + rest;
      ShortWalkIsWhole(t, up, depth + 1, maxDepth, target);
    }
    ReachesStep(t, id, target);
  }

  /** The foreign key: a parent names a category. */
  predicate Closed(t: Table) {
    forall id | id in t && t[id].parent.Some? :: t[id].parent.value in t
  }

  lemma ForestClosed(t: Table)
    requires Forest(t)
    ensures Closed(t)
  {
    forall id | id in t && t[id].parent.Some? ensures t[id].parent.value in t {
      var n: nat :| Rooted(t, id, n);
      assert Rooted(t, t[id].parent.value, n - 1);
    }
  }

  lemma {:induction false} RootedWalkIsShort(t: Table, id: Id, depth: nat, maxDepth: nat, n: nat)
    requires depth <= maxDepth + 1 && Rooted(t, id, n)
    ensures 1 <= |Walk(t, id, depth, maxDepth)| <= n + 1
    decreases n
  {
    if depth <= maxDepth && t[id].parent.Some? {
      RootedWalkIsShort(t, t[id].parent.value, depth + 1, maxDepth, n - 1);
    }
  }

  /** A parent is accepted if and only if its chain reaches a root within four rows and the
      category being written is not on it, whatever cycles the table holds elsewhere. */
  lemma AcceptedExactly(t: Table, parent: Id, self: Id)
    requires Closed(t)
    ensures Accepts(t, parent, self) <==> Rooted(t, parent, MAX_DEPTH - 2) && !Reaches(t, parent, self)
  {
    var rows := Walk(t, parent, 1, MAX_DEPTH);
    if Rooted(t, parent, MAX_DEPTH - 2) {
      RootedWalkIsShort(t, parent, 1, MAX_DEPTH, MAX_DEPTH - 2);
      ShortWalkIsWhole(t, parent, 1, MAX_DEPTH, self);
      ReachesStep(t, parent, self);
    } else if Accepts(t, parent, self) {
      ShortWalkIsWhole(t, parent, 1, MAX_DEPTH, self);
      RootedLonger(t, parent, |rows| - 1, MAX_DEPTH - 2);
      assert false;
    }
  }

  // ---- writing a parent ----

  function SetParent(t: Table, self: Id, row: Row): Table {
    t[self := row]
  }

  lemma {:induction false} UntouchedChain(t: Table, id: Id, self: Id, row: Row, n: nat)
    requires Rooted(t, id, n) && !Reaches(t, id, self)
    ensures Rooted(SetParent(t, self, row), id, n)
    decreases n
  {
    assert id == self ==> Hits(t, id, self, 0);
    if t[id].parent.Some? {
      var up := t[id].parent.value;
      ReachesStep(t, id, self);
      UntouchedChain(t, up, self, row, n - 1);
    }
  }

  lemma {:induction false} RehungChain(t: Table, id: Id, self: Id, row: Row, n: nat, m: nat)
    requires Rooted(t, id, n) && Rooted(SetParent(t, self, row), self, m)
    ensures Rooted(SetParent(t, self, row), id, n + m)
    decreases n
  {
    var t1 := SetParent(t, self, row);
    if id == self {
      RootedLonger(t1, self, m, n + m);
    } else if t[id].parent.Some? {
      RehungChain(t, t[id].parent.value, self, row, n - 1, m);
    }
  }

  /** The chain from `id` to `self` is the same before and after `self` is written. */
  lemma {:induction false} HitSurvives(t: Table, id: Id, self: Id, row: Row, k: nat)
    requires Hits(t, id, self, k)
    ensures Hits(SetParent(t, self, row), id, self, k)
    decreases k
  {
    if id != self {
      HitSurvives(t, t[id].parent.value, self, row, k - 1);
    }
  }

  /** Writing category `self` under `parent` keeps the forest if and only if `parent` exists and
      `self` is not `parent` or one of its ancestors. */
  lemma WriteExact(t: Table, self: Id, row: Row)
    requires Forest(t) && self != NIL && row.parent.Some?
    requires row.parent.value == self || row.parent.value in t
    ensures Forest(SetParent(t, self, row)) <==> row.parent.value != self && !Reaches(t, row.parent.value, self)
  {
    var parent := row.parent.value;
    var t1 := SetParent(t, self, row);
    if parent == self {
      assert Hits(t1, self, self, 0);
      assert OnCycle(t1, self);
      if Forest(t1) {
        ForestHasNoCycle(t1, self);
      }
    } else if k: nat :| Hits(t, parent, self, k) {
      HitSurvives(t, parent, self, row, k);
      assert OnCycle(t1, self);
      if Forest(t1) {
        ForestHasNoCycle(t1, self);
      }
    } else {
      var m: nat :| Rooted(t, parent, m);
      UntouchedChain(t, parent, self, row, m);
      assert Rooted(t1, self, m + 1);
      forall id | id in t1 ensures exists n: nat :: Rooted(t1, id, n) {
        if id != self {
          var n: nat :| Rooted(t, id, n);
          RehungChain(t, id, self, row, n, m + 1);
        }
      }
    }
  }

  lemma RootWriteKeepsForest(t: Table, self: Id, row: Row)
    requires Forest(t) && self != NIL && row.parent.None?
    ensures Forest(SetParent(t, self, row))
  {
    var t1 := SetParent(t, self, row);
    assert Rooted(t1, self, 0);
    forall id | id in t1 ensures exists n: nat :: Rooted(t1, id, n) {
      if id != self {
        var n: nat :| Rooted(t, id, n);
        RehungChain(t, id, self, row, n, 0);
      }
    }
  }

  // ---- depth ----

  /** No category lies deeper than MAX_DEPTH. */
  ghost predicate Shallow(t: Table) {
    forall id | id in t :: Rooted(t, id, MAX_DEPTH - 1)
  }

  /** Whatever hangs `k` steps below `self` finds room for those steps below `parent`. */
  ghost predicate MoveFits(t: Table, self: Id, parent: Id) {
    forall id, k: nat | Hits(t, id, self, k) :: k + 2 <= MAX_DEPTH && Rooted(t, parent, MAX_DEPTH - 2 - k)
  }

  lemma {:induction false} UntouchedExactly(t: Table, id: Id, self: Id, row: Row, n: nat)
    requires Closed(t) && id in t && !Reaches(t, id, self)
    ensures Rooted(SetParent(t, self, row), id, n) <==> Rooted(t, id, n)
    decreases n
  {
    ReachesStep(t, id, self);
    if t[id].parent.Some? && n > 0 {
      UntouchedExactly(t, t[id].parent.value, self, row, n - 1);
    }
  }

  /** A category `k` steps below `self` is rooted after the move exactly `k + 1` steps later than
      the new parent. */
  lemma {:induction false} SunkExactly(t: Table, id: Id, self: Id, row: Row, k: nat, n: nat)
    requires Closed(t) && Hits(t, id, self, k) && row.parent.Some? && row.parent.value in t && !Reaches(t, row.parent.value, self)
    ensures Rooted(SetParent(t, self, row), id, n) <==> k + 1 <= n && Rooted(t, row.parent.value, n - k - 1)
    decreases k
  {
    if id == self {
      if n > 0 {
        UntouchedExactly(t, row.parent.value, self, row, n - 1);
      }
    } else if n > 0 {
      SunkExactly(t, t[id].parent.value, self, row, k - 1, n - 1);
    }
  }

  /** An accepted move keeps the depth bound if and only if everything below the category fits
      below its new parent. */
  lemma DepthKeptExactly(t: Table, self: Id, row: Row)
    requires Forest(t) && Shallow(t) && self in t
    requires row.parent.Some? && Accepts(t, row.parent.value, self)
    ensures Shallow(SetParent(t, self, row)) <==> MoveFits(t, self, row.parent.value)
  {
    var parent := row.parent.value;
    var t1 := SetParent(t, self, row);
    ForestClosed(t);
    AcceptedExactly(t, parent, self);
    if Shallow(t1) {
      forall id, k: nat | Hits(t, id, self, k) ensures k + 2 <= MAX_DEPTH && Rooted(t, parent, MAX_DEPTH - 2 - k) {
        assert Rooted(t1, id, MAX_DEPTH - 1);
        SunkExactly(t, id, self, row, k, MAX_DEPTH - 1);
      }
    }
    if MoveFits(t, self, parent) {
      forall id | id in t1 ensures Rooted(t1, id, MAX_DEPTH - 1) {
        if k: nat :| Hits(t, id, self, k) {
          SunkExactly(t, id, self, row, k, MAX_DEPTH - 1);
        } else {
          UntouchedExactly(t, id, self, row, MAX_DEPTH - 1);
        }
      }
    }
  }

  /** A new category has nothing below it, so an accepted one keeps the depth bound. */
  lemma NewKeepsDepth(t: Table, self: Id, row: Row)
    requires Forest(t) && Shallow(t) && self !in t
    requires row.parent.Some? ==> Accepts(t, row.parent.value, NIL)
    ensures Shallow(SetParent(t, self, row))
  {
    var t1 := SetParent(t, self, row);
    ForestClosed(t);
    forall id | id in t ensures Rooted(t1, id, MAX_DEPTH - 1) {
      NewIsUnreached(t, id, self);
      UntouchedExactly(t, id, self, row, MAX_DEPTH - 1);
    }
    if row.parent.Some? {
      AcceptedExactly(t, row.parent.value, NIL);
      NewIsUnreached(t, row.parent.value, self);
      UntouchedExactly(t, row.parent.value, self, row, MAX_DEPTH - 2);
    }
  }

  lemma {:induction false} DeleteKeepsChain(t: Table, id: Id, gone: Id, n: nat)
    requires Rooted(t, id, n) && id != gone
    requires forall k | k in t && k != gone :: t[k].parent != Some(gone)
    ensures Rooted(t - {gone}, id, n)
    decreases n
  {
    if t[id].parent.Some? {
      DeleteKeepsChain(t, t[id].parent.value, gone, n - 1);
    }
  }

  // ---- the service ----

  class Service {
    var rows: Table

    constructor ()
      ensures rows == map[] && Forest(rows)
    {
      rows := map[];
    }

    predicate SlugTaken(slug: string, self: Id)
      reads this
    {
      exists k | k in rows :: k != self && rows[k].slug == slug
    }

    /** Create, for a fresh id and the slug made from the name. */
    method Create(id: Id, name: string, slug: string, parent: Option<Id>, sortOrder: Option<int>, active: Option<bool>)
      returns (r: Result<Row>)
      requires Forest(rows) && id !in rows && id != NIL
      modifies this
      ensures Forest(rows)
      ensures r.Err? ==> rows == old(rows)
      ensures r.Ok? ==> rows == old(rows)[id := r.value]
      ensures r.Ok? <==> (parent.Some? ==> Accepts(old(rows), parent.value, NIL)) && !old(SlugTaken(slug, id))
      ensures r.Ok? ==>
                r.value == Row(name, slug, parent, if sortOrder.Some? then sortOrder.value else 0, active.Some? ==> active.value)
      ensures r.Ok? ==> r.value.parent == parent && (parent.Some? ==> Rooted(rows, parent.value, MAX_DEPTH - 2))
      ensures Shallow(old(rows)) ==> Shallow(rows)
    {
      var cat := Row(name, slug, parent, 0, true);
      if sortOrder.Some? {
        cat := cat.(sortOrder := sortOrder.value);
      }
      if active.Some? {
        cat := cat.(active := active.value);
      }
      ForestClosed(rows);
      if parent.Some? {
        var e := ValidateParentSelf(parent.value, NIL);
        if e.None? {
          var walked := AncestorDepthAndCycle(rows, parent.value, NIL, MAX_DEPTH);
          e := ValidateParentDepth(walked.0, walked.1);
        }
        if e.Some? {
          return Err(e.value);
        }
        AcceptedExactly(rows, parent.value, NIL);
        NewIsUnreached(rows, parent.value, id);
        WriteExact(rows, id, cat);
        UntouchedChain(rows, parent.value, id, cat, MAX_DEPTH - 2);
      } else {
        RootWriteKeepsForest(rows, id, cat);
      }
      if SlugTaken(slug, id) {
        return Err(Conflict);
      }
      if Shallow(rows) {
        NewKeepsDepth(rows, id, cat);
      }
      rows := rows[id := cat];
      return Ok(cat);
    }

    /** Update: absent arguments keep their column, so a move to the root cannot be asked for and
        an unmoved category has its parent validated again. */
    method Update(id: Id, name: Option<(string, string)>, parent: Option<Id>, sortOrder: Option<int>, active: Option<bool>)
      returns (r: Result<Row>)
      requires Forest(rows)
      modifies this
      ensures Forest(rows)
      ensures r.Err? ==> rows == old(rows)
      ensures r.Ok? ==> id in old(rows) && rows == old(rows)[id := r.value]
      ensures r.Ok? ==>
                var was := old(rows)[id];
                && r.value.name == (if name.Some? then name.value.0 else was.name)
                && r.value.slug == (if name.Some? then name.value.1 else was.slug)
                && r.value.sortOrder == (if sortOrder.Some? then sortOrder.value else was.sortOrder)
                && r.value.active == (if active.Some? then active.value else was.active)
      ensures r.Ok? ==> r.value.parent == (if parent.Some? then parent else old(rows)[id].parent)
      ensures r.Ok? && r.value.parent.Some? ==>
                Accepts(old(rows), r.value.parent.value, id) && Rooted(rows, id, MAX_DEPTH - 1)
      ensures r.Ok? <==> id in old(rows) && !old(SlugTaken(if name.Some? then name.value.1 else rows[id].slug, id)) &&
                         var up := if parent.Some? then parent else old(rows)[id].parent;
                         up.Some? ==> Accepts(old(rows), up.value, id)
      ensures r == Err(NotFound) <==> id !in old(rows)
      ensures r.Ok? && r.value.parent.Some? && Shallow(old(rows)) ==>
                (Shallow(rows) <==> MoveFits(old(rows), id, r.value.parent.value))
    {
      if id !in rows {
        return Err(NotFound);
      }
      var cat := rows[id];
      if name.Some? {
        cat := cat.(name := name.value.0, slug := name.value.1);
      }
      if parent.Some? {
        cat := cat.(parent := parent);
      }
      if sortOrder.Some? {
        cat := cat.(sortOrder := sortOrder.value);
      }
      if active.Some? {
        cat := cat.(active := active.value);
      }
      ForestClosed(rows);
      if cat.parent.Some? {
        var up := cat.parent.value;
        var e := ValidateParentSelf(up, id);
        if e.None? {
          var walked := AncestorDepthAndCycle(rows, up, id, MAX_DEPTH);
          e := ValidateParentDepth(walked.0, walked.1);
        }
        if e.Some? {
          return Err(e.value);
        }
        AcceptedExactly(rows, up, id);
        if Shallow(rows) {
          DepthKeptExactly(rows, id, cat);
        }
        WriteExact(rows, id, cat);
        UntouchedChain(rows, up, id, cat, MAX_DEPTH - 2);
      } else {
        RootWriteKeepsForest(rows, id, cat);
      }
      if SlugTaken(cat.slug, id) {
        return Err(Conflict);
      }
      rows := rows[id := cat];
      return Ok(cat);
    }

    /** Delete: refused while published products, any products or subcategories refer to it. */
    method Delete(id: Id, published: nat, referenced: bool) returns (e: Option<Error>)
      requires Forest(rows)
      modifies this
      ensures Forest(rows)
      ensures e.Some? ==> rows == old(rows)
      ensures e.None? ==> id in old(rows) && rows == old(rows) - {id}
      ensures e.None? <==> published == 0 && !referenced && id in old(rows) &&
                           forall k | k in old(rows) :: old(rows)[k].parent != Some(id)
    {
      if published > 0 {
        return Some(BadRequest);
      }
      if referenced || exists k | k in rows :: rows[k].parent == Some(id) {
        return if id in rows || referenced then Some(Conflict) else Some(NotFound);
      }
      if id !in rows {
        return Some(NotFound);
      }
      forall k | k in rows - {id} ensures exists n: nat :: Rooted(rows - {id}, k, n) {
        var n: nat :| Rooted(rows, k, n);
        DeleteKeepsChain(rows, k, id, n);
      }
      rows := rows - {id};
      return None;
    }
  }

  /** No chain passes through an id that names no row. */
  lemma {:induction false} MissHits(t: Table, id: Id, missing: Id, k: nat)
    requires missing !in t
    ensures !Hits(t, id, missing, k)
    decreases k
  {
    if k > 0 && id in t && t[id].parent.Some? {
      MissHits(t, t[id].parent.value, missing, k - 1);
    }
  }

  lemma NewIsUnreached(t: Table, id: Id, missing: Id)
    requires missing !in t
    ensures !Reaches(t, id, missing)
  {
    if k: nat :| Hits(t, id, missing, k) {
      MissHits(t, id, missing, k);
    }
  }

  // ---- validation and write are separate statements ----

  /** Update validates on one read of the table and writes later. Two moves that are each
      accepted on the same table can together close a cycle. */
  lemma RacingMovesCloseCycle() returns (t: Table, a: Id, b: Id)
    ensures Forest(t) && a in t && b in t
    ensures Accepts(t, a, b) && Accepts(t, b, a)
    ensures !Forest(SetParent(SetParent(t, a, t[a].(parent := Some(b))), b, t[b].(parent := Some(a))))
  {
    a, b := 1, 2;
    t := map[1 := Row("a", "a", None, 0, true), 2 := Row("b", "b", None, 0, true)];
    assert Rooted(t, 1, 0) && Rooted(t, 2, 0);
    assert Walk(t, 1, 1, MAX_DEPTH) == [1] && Walk(t, 2, 1, MAX_DEPTH) == [2];
    var t1 := SetParent(t, a, t[a].(parent := Some(b)));
    NewIsReachedFrom(t1);
    assert Forest(t1) by {
      assert Rooted(t1, 1, 1) && Rooted(t1, 2, 0);
    }
    WriteExact(t1, b, t[b].(parent := Some(a)));
  }

  lemma {:induction false} UntouchedReach(t: Table, id: Id, self: Id, row: Row, target: Id, n: nat)
    requires Rooted(t, id, n) && !Reaches(t, id, self)
    ensures Reaches(SetParent(t, self, row), id, target) <==> Reaches(t, id, target)
    decreases n
  {
    ReachesStep(t, id, self);
    ReachesStep(t, id, target);
    ReachesStep(SetParent(t, self, row), id, target);
    if t[id].parent.Some? {
      UntouchedReach(t, t[id].parent.value, self, row, target, n - 1);
    }
  }

  /** Moving `self` lets `id` reach a new ancestor exactly through `self`. */
  lemma {:induction false} MovedReach(t: Table, id: Id, self: Id, row: Row, target: Id, n: nat, m: nat)
    requires Rooted(t, id, n) && !Reaches(t, id, target)
    requires row.parent.Some? && Rooted(t, row.parent.value, m) && !Reaches(t, row.parent.value, self)
    ensures Reaches(SetParent(t, self, row), id, target) <==> Reaches(t, id, self) && Reaches(t, row.parent.value, target)
    decreases n
  {
    ReachesStep(t, id, self);
    ReachesStep(t, id, target);
    ReachesStep(SetParent(t, self, row), id, target);
    if id == self {
      UntouchedReach(t, row.parent.value, self, row, target, m);
    } else if t[id].parent.Some? {
      MovedReach(t, t[id].parent.value, self, row, target, n - 1, m);
    }
  }

  /** Two moves accepted on the same table keep the forest if and only if not each new parent is
      the other moved category or lies below it. */
  lemma RacingMovesExactly(t: Table, a: Id, rowA: Row, b: Id, rowB: Row)
    requires Forest(t) && a in t && b in t && rowA.parent.Some? && rowB.parent.Some?
    requires Accepts(t, rowA.parent.value, a) && Accepts(t, rowB.parent.value, b)
    ensures Forest(SetParent(SetParent(t, a, rowA), b, rowB)) <==>
            !(Reaches(t, rowA.parent.value, b) && Reaches(t, rowB.parent.value, a))
  {
    var p, q := rowA.parent.value, rowB.parent.value;
    var t1 := SetParent(t, a, rowA);
    ForestClosed(t);
    AcceptedExactly(t, p, a);
    AcceptedExactly(t, q, b);
    ReachesStep(t, p, a);
    ReachesStep(t, q, b);
    WriteExact(t, a, rowA);
    WriteExact(t, b, rowB);
    WriteExact(t1, b, rowB);
    if a == b {
      assert SetParent(t1, b, rowB) == SetParent(t, b, rowB);
    } else {
      MovedReach(t, q, a, rowA, b, MAX_DEPTH - 2, MAX_DEPTH - 2);
    }
  }

  /** The depth is not bounded: a move checks the moved category and not what hangs below it. */
  lemma MovedSubtreeSinks() returns (t: Table, self: Id, parent: Id, below: Id)
    ensures Forest(t) && forall id | id in t :: Rooted(t, id, MAX_DEPTH - 1)
    ensures self in t && Accepts(t, parent, self)
    ensures !Rooted(SetParent(t, self, t[self].(parent := Some(parent))), below, MAX_DEPTH - 1)
  {
    self, parent, below := 5, 4, 6;
    var row := Row("c", "c", None, 0, true);
    t := map[1 := row, 2 := row.(parent := Some(1)), 3 := row.(parent := Some(2)), 4 := row.(parent := Some(3)),
      5 := row, 6 := row.(parent := Some(5))];
    assert Rooted(t, 1, 4) && Rooted(t, 2, 4);
    assert Rooted(t, 3, 4) && Rooted(t, 4, 4);
    assert Rooted(t, 5, 4) && Rooted(t, 6, 4);
    assert Walk(t, 1, 4, MAX_DEPTH) == [1];
    assert Walk(t, 3, 2, MAX_DEPTH) == [3, 2, 1];
    assert Walk(t, 4, 1, MAX_DEPTH) == [4, 3, 2, 1];
    var t1 := SetParent(t, self, t[self].(parent := Some(parent)));
    assert !Rooted(t1, 2, 0);
    assert !Rooted(t1, 4, 2);
  }

  lemma NewIsReachedFrom(t: Table)
    requires 1 in t && 2 in t && t[1].parent == Some(2)
    ensures Reaches(t, 1, 2)
  {
    assert Hits(t, 2, 2, 0);
    assert Hits(t, 1, 2, 1);
  }
}
