/** The registry table as a value: registry objects, their links, and the ids the table holds.
    A registry keeps its children list after it leaves the table. */
module Forest {
  import opened Options
  import opened Timestamps
  import opened Callbacks

  datatype Registry = Registry(queue: seq<Callback>, fdWaits: int, parent: Option<int>, children: seq<int>) {
    /** Nothing queued and no descriptor wait in progress. */
    predicate Empty() {
      fdWaits <= 0 && queue == []
    }
  }

  /** `handles` maps each id in the table to whether an R handle for it still exists. */
  datatype Table = Table(objects: map<int, Registry>, handles: map<int, bool>, limit: int)

  /** Every object's links lead to objects, children after parents. */
  predicate Shaped(t: Table) {
    && 0 <= t.limit
    && t.handles.Keys <= t.objects.Keys
    && (forall id :: id in t.objects ==> 0 <= id < t.limit)
    && (forall id :: id in t.objects ==>
          forall c :: c in t.objects[id].children ==> c in t.objects && id < c)
  }

  predicate Distinct(s: seq<int>) {
    forall i, j :: 0 <= i < j < |s| ==> s[i] != s[j]
  }

  /** In the table, parent and child links mirror each other, each child listed once. */
  predicate Linked(t: Table) {
    && t.handles.Keys <= t.objects.Keys
    && (forall id :: id in t.handles ==> Distinct(t.objects[id].children))
    && (forall id :: id in t.handles && t.objects[id].parent.Some? ==>
          var p := t.objects[id].parent.value;
          p in t.handles && p < id && id in t.objects[p].children)
    && (forall id :: id in t.handles ==>
          forall c :: c in t.objects[id].children ==> c in t.handles && t.objects[c].parent == Some(id))
  }

  /** The table right after the package is loaded: the global loop and nothing else. */
  function Initial(): Table {
    Table(map[0 := Registry([], 0, None, [])], map[0 := true], 1)
  }

  // ---- creation and removal

  /** Links a new registry below its parent; the parent, if any, must be in the table. */
  function Create(t: Table, id: int, parent: Option<int>): Table
    requires parent.Some? ==> parent.value in t.objects
  {
    var linked := match parent
      case None => t.objects
      case Some(p) => t.objects[p := t.objects[p].(children := t.objects[p].children + [id])];
    Table(linked[id := Registry([], 0, parent, [])], t.handles[id := true], if id < t.limit then t.limit else id + 1)
  }

  function EraseFirst(s: seq<int>, x: int): seq<int> {
    if s == [] then [] else if s[0] == x then s[1..] else [s[0]] + EraseFirst(s[1..], x)
  }

  /** Takes `id` out of its parent's list, orphans its children, and drops it from the table. */
  function Remove(t: Table, id: int): Table
    requires id in t.handles && id in t.objects
  {
    var r := t.objects[id];
    var unlisted :=
      if r.parent.Some? && r.parent.value in t.objects then
        var p := r.parent.value;
        t.objects[p := t.objects[p].(children := EraseFirst(t.objects[p].children, id))]
      else t.objects;
    var orphaned := map k | k in unlisted ::
      if k in r.children then unlisted[k].(parent := None) else unlisted[k];
    Table(orphaned, t.handles - {id}, t.limit)
  }

  // ---- pruning

  /** What the sweep tests when it reaches `id`. */
  predicate Prunable(t: Table, id: int) {
    id in t.handles && id in t.objects && !t.handles[id] &&
    (t.objects[id].Empty() || t.objects[id].parent.None?)
  }

  /** The sweep over the ids from `it` upwards. */
  function PruneFrom(t: Table, it: int): Table
    decreases t.limit - it
  {
    if it >= t.limit then t
    else PruneFrom(if Prunable(t, it) then Remove(t, it) else t, it + 1)
  }

  /** Something is queued on the loop, or a descriptor wait is under way on it. */
  predicate Busy(t: Table, id: int)
    requires id in t.objects
  {
    |t.objects[id].queue| > 0 || t.objects[id].fdWaits > 0
  }

  /** The reference notion, by way of parents only: a loop is kept alive by its own handle, or,
      while it has work, by a parent that is kept alive. */
  predicate Survives(t: Table, id: int)
    requires Linked(t)
    decreases id
  {
    id in t.handles && id >= 0 &&
    (t.handles[id] ||
     (Busy(t, id) && t.objects[id].parent.Some? && Survives(t, t.objects[id].parent.value)))
  }

  function Survivors(t: Table): set<int>
    requires Linked(t)
  {
    set id | id in t.handles && Survives(t, id)
  }

  function Keep(s: seq<int>, alive: set<int>): seq<int> {
    if s == [] then []
    else (if s[0] in alive then [s[0]] else []) + Keep(s[1..], alive)
  }

  /** What is left of the registry with this id when only `alive` stay in the table. */
  function Trimmed(t: Table, alive: set<int>, id: int): Registry
    requires id in t.objects
  {
    var r := t.objects[id];
    if id !in t.handles then r
    else r.(parent := if r.parent.Some? && r.parent.value !in alive then None else r.parent,
            children := if id in alive then Keep(r.children, alive) else r.children)
  }

  /** The table cut down to `alive`, in one go. */
  function Restrict(t: Table, alive: set<int>): Table {
    Table(map id | id in t.objects :: Trimmed(t, alive, id),
          map id | id in t.handles && id in alive :: t.handles[id],
          t.limit)
  }

  // ---- proofs about lists

  lemma {:induction false} KeepMembers(s: seq<int>, alive: set<int>)
    ensures forall x :: x in Keep(s, alive) <==> x in s && x in alive
    ensures Distinct(s) ==> Distinct(Keep(s, alive))
  {
    if s != [] {
      var head, rest := s[0], s[1..];
      KeepMembers(rest, alive);
      assert s == [head] + rest;
      forall x ensures x in Keep(s, alive) <==> x in s && x in alive {
        assert x in s <==> x == head || x in rest;
      }
      if Distinct(s) {
        var kept := Keep(rest, alive);
        forall i | 0 <= i < |kept| ensures kept[i] != head {
          var x := kept[i];
          assert x in kept;
          var j :| 0 <= j < |rest| && rest[j] == x;
          assert s[j + 1] == x;
        }
      }
    }
  }

  lemma {:induction false} KeepAll(s: seq<int>, alive: set<int>)
    requires forall i :: 0 <= i < |s| ==> s[i] in alive
    ensures Keep(s, alive) == s
  {
    if s != [] {
      KeepAll(s[1..], alive);
    }
  }

  lemma {:induction false} EraseFirstMembers(s: seq<int>, x: int)
    requires Distinct(s)
    ensures Distinct(EraseFirst(s, x))
    ensures forall y :: y in EraseFirst(s, x) <==> y in s && y != x
  {
    if s != [] {
      var head, rest := s[0], s[1..];
      assert s == [head] + rest;
      EraseFirstMembers(rest, x);
      assert head !in rest;
      var erased := EraseFirst(rest, x);
      assert forall i :: 0 <= i < |erased| ==> erased[i] in erased;
    }
  }

  lemma {:induction false} EraseFromKeep(s: seq<int>, alive: set<int>, x: int)
    requires Distinct(s) && x in alive
    ensures EraseFirst(Keep(s, alive), x) == Keep(s, alive - {x})
  {
    if s != [] {
      var head, rest := s[0], s[1..];
      if head == x {
        assert x !in rest;
        KeepAgree(rest, alive, alive - {x});
        assert Keep(s, alive) == [x] + Keep(rest, alive);
      } else {
        EraseFromKeep(rest, alive, x);
        if head in alive {
          assert head in alive - {x};
          assert Keep(s, alive) == [head] + Keep(rest, alive);
          assert Keep(s, alive - {x}) == [head] + Keep(rest, alive - {x});
          assert EraseFirst(Keep(s, alive), x) == [head] + EraseFirst(Keep(rest, alive), x);
        } else {
          assert Keep(s, alive) == Keep(rest, alive);
          assert Keep(s, alive - {x}) == Keep(rest, alive - {x});
        }
      }
    }
  }

  lemma {:induction false} KeepAgree(s: seq<int>, a: set<int>, b: set<int>)
    requires forall i :: 0 <= i < |s| ==> (s[i] in a <==> s[i] in b)
    ensures Keep(s, a) == Keep(s, b)
  {
    if s != [] {
      KeepAgree(s[1..], a, b);
    }
  }

  // ---- invariants of creation and removal

  lemma MapsAgree<V>(a: map<int, V>, b: map<int, V>)
    requires a.Keys == b.Keys
    requires forall k :: k in a.Keys ==> a[k] == b[k]
    ensures a == b
  {
    forall k | k in a.Keys ensures k in b.Keys && a[k] == b[k] {
    }
    assert a == b;
  }

  /** What creation does to each object that was there before. */
  lemma CreateEffect(t: Table, id: int, parent: Option<int>, k: int)
    requires k in t.objects && id !in t.objects
    requires parent.Some? ==> parent.value in t.objects
    ensures k in Create(t, id, parent).objects
    ensures Create(t, id, parent).objects[k] ==
            if parent == Some(k) then t.objects[k].(children := t.objects[k].children + [id]) else t.objects[k]
  {
  }

  lemma CreateTables(t: Table, id: int, parent: Option<int>)
    requires parent.Some? ==> parent.value in t.objects
    ensures Create(t, id, parent).objects.Keys == t.objects.Keys + {id}
    ensures Create(t, id, parent).handles.Keys == t.handles.Keys + {id}
    ensures Create(t, id, parent).limit == if id < t.limit then t.limit else id + 1
    ensures Create(t, id, parent).objects[id] == Registry([], 0, parent, [])
  {
  }

  lemma CreatedAt(t: Table, id: int, parent: Option<int>, k: int)
    requires Shaped(t) && Linked(t) && id >= t.limit && k in t.objects
    requires parent.Some? ==> parent.value in t.handles
    ensures k in Create(t, id, parent).objects
    ensures Create(t, id, parent).objects[k].parent == t.objects[k].parent
    ensures forall c :: c in Create(t, id, parent).objects[k].children <==>
                          c in t.objects[k].children || (c == id && parent == Some(k))
    ensures k in t.handles ==> Distinct(Create(t, id, parent).objects[k].children)
  {
    CreateEffect(t, id, parent, k);
    var s := t.objects[k].children;
    assert forall i :: 0 <= i < |s| ==> s[i] in s;
  }

  lemma CreateKeepsLinks(t: Table, id: int, parent: Option<int>)
    requires Shaped(t) && Linked(t) && id >= t.limit
    requires parent.Some? ==> parent.value in t.handles
    ensures Shaped(Create(t, id, parent)) && Linked(Create(t, id, parent))
  {
    hide Create, Distinct;
    CreateTables(t, id, parent);
    var t' := Create(t, id, parent);
    forall k | k in t.objects
      ensures t'.objects[k].parent == t.objects[k].parent
      ensures forall c :: c in t'.objects[k].children <==> c in t.objects[k].children || (c == id && parent == Some(k))
      ensures k in t.handles ==> Distinct(t'.objects[k].children)
    {
      CreatedAt(t, id, parent, k);
    }
    DistinctNone();
  }

  lemma DistinctNone()
    ensures Distinct([])
  {
  }

  /** What removal does to each object. */
  lemma RemoveEffect(t: Table, id: int, k: int)
    requires id in t.handles && id in t.objects && k in t.objects
    ensures k in Remove(t, id).objects
    ensures Remove(t, id).objects[k] == t.objects[k].(
              children := if t.objects[id].parent == Some(k) then EraseFirst(t.objects[k].children, id)
                          else t.objects[k].children,
              parent := if k in t.objects[id].children then None else t.objects[k].parent)
  {
  }

  lemma RemoveTables(t: Table, id: int)
    requires id in t.handles && id in t.objects
    ensures Remove(t, id).objects.Keys == t.objects.Keys
    ensures Remove(t, id).handles == t.handles - {id} && Remove(t, id).limit == t.limit
  {
  }

  lemma RemovedAt(t: Table, id: int, k: int)
    requires Shaped(t) && Linked(t) && id in t.handles && k in t.objects
    ensures k in Remove(t, id).objects
    ensures var before, after := t.objects[k], Remove(t, id).objects[k];
      && after.queue == before.queue && after.fdWaits == before.fdWaits
      && after.parent == (if k in t.objects[id].children then None else before.parent)
      && (forall c :: c in after.children ==> c in before.children)
      && (k in t.handles && k != id ==>
            Distinct(after.children) && forall c :: c in after.children <==> c in before.children && c != id)
  {
    RemoveEffect(t, id, k);
    if k in t.handles {
      EraseFirstMembers(t.objects[k].children, id);
    }
  }

  lemma RemoveKeepsLinks(t: Table, id: int)
    requires Shaped(t) && Linked(t) && id in t.handles
    ensures Shaped(Remove(t, id)) && Linked(Remove(t, id))
    ensures Remove(t, id).objects.Keys == t.objects.Keys
    ensures Remove(t, id).handles == t.handles - {id}
    ensures forall k :: k in t.objects ==>
      && Remove(t, id).objects[k].queue == t.objects[k].queue
      && Remove(t, id).objects[k].fdWaits == t.objects[k].fdWaits
      && (forall c :: c in Remove(t, id).objects[k].children ==> c in t.objects[k].children)
  {
    hide Remove, EraseFirst, Linked;
    RemoveTables(t, id);
    forall k | k in t.objects {
      RemovedAt(t, id, k);
    }
    RemoveIsLinked(t, id);
  }

  lemma RemoveIsLinked(t: Table, id: int)
    requires Shaped(t) && Linked(t) && id in t.handles
    ensures Linked(Remove(t, id))
  {
    hide Remove, EraseFirst, Distinct;
    RemoveTables(t, id);
    var t' := Remove(t, id);
    forall k | k in t'.handles
      ensures Distinct(t'.objects[k].children)
      ensures t'.objects[k].parent.Some? ==>
                var p := t'.objects[k].parent.value; p in t'.handles && p < k && k in t'.objects[p].children
      ensures forall c :: c in t'.objects[k].children ==> c in t'.handles && t'.objects[c].parent == Some(k)
    {
      LinkedAfterRemoval(t, id, k);
    }
  }

  lemma LinkedAfterRemoval(t: Table, id: int, k: int)
    requires Shaped(t) && Linked(t) && id in t.handles && k in t.handles && k != id
    ensures k in Remove(t, id).objects && Distinct(Remove(t, id).objects[k].children)
    ensures Remove(t, id).objects[k].parent.Some? ==>
              var p := Remove(t, id).objects[k].parent.value;
              p in t.handles && p != id && p < k && p in Remove(t, id).objects && k in Remove(t, id).objects[p].children
    ensures forall c :: c in Remove(t, id).objects[k].children ==>
              c in t.handles && c != id && c in Remove(t, id).objects && Remove(t, id).objects[c].parent == Some(k)
  {
    hide Remove, EraseFirst, Distinct;
    RemovedAt(t, id, k);
    var r := Remove(t, id).objects[k];
    if r.parent.Some? {
      RemovedAt(t, id, r.parent.value);
    }
    forall c | c in r.children
      ensures c in t.handles && c != id && c in Remove(t, id).objects && Remove(t, id).objects[c].parent == Some(k)
    {
      RemovedAt(t, id, c);
    }
  }

  // ---- one ascending sweep reaches the fixpoint

  /** The ids left once the sweep has passed everything below `it`. */
  function Passed(t: Table, it: int): set<int>
    requires Linked(t)
  {
    set id | id in t.handles && (id >= it || Survives(t, id))
  }

  lemma RestrictToAll(t: Table)
    requires Linked(t)
    ensures Restrict(t, t.handles.Keys) == t
  {
    var r := Restrict(t, t.handles.Keys);
    forall id | id in t.objects ensures r.objects[id] == t.objects[id] {
      if id in t.handles {
        var s := t.objects[id].children;
        forall i | 0 <= i < |s| ensures s[i] in t.handles.Keys {
          var c := s[i];
          assert c in s;
        }
        KeepAll(s, t.handles.Keys);
      }
    }
    assert r.objects == t.objects;
    assert r.handles == t.handles;
  }

  lemma RemoveFromRestricted(t: Table, alive: set<int>, id: int)
    requires Shaped(t) && Linked(t) && alive <= t.handles.Keys && id in alive
    requires forall c :: c in t.objects[id].children ==> c in alive
    ensures id in Restrict(t, alive).handles
    ensures Remove(Restrict(t, alive), id) == Restrict(t, alive - {id})
  {
    var a, b := Remove(Restrict(t, alive), id).objects, Restrict(t, alive - {id}).objects;
    assert a.Keys == t.objects.Keys;
    assert b.Keys == t.objects.Keys;
    forall k | k in t.objects ensures a[k] == b[k] {
      RemoveFromRestrictedAt(t, alive, id, k);
    }
    MapsAgree(a, b);
    HandlesOfRestricted(t, alive, id);
  }

  lemma HandlesOfRestricted(t: Table, alive: set<int>, id: int)
    ensures Restrict(t, alive).handles - {id} == Restrict(t, alive - {id}).handles
  {
  }

  lemma RemoveFromRestrictedAt(t: Table, alive: set<int>, id: int, k: int)
    requires Shaped(t) && Linked(t) && alive <= t.handles.Keys && id in alive
    requires forall c :: c in t.objects[id].children ==> c in alive
    requires k in t.objects
    ensures id in Restrict(t, alive).handles
    ensures Remove(Restrict(t, alive), id).objects[k] == Restrict(t, alive - {id}).objects[k]
  {
    var r, kids, s := Restrict(t, alive), t.objects[id].children, t.objects[k].children;
    RemoveEffect(r, id, k);
    forall i | 0 <= i < |kids| ensures kids[i] in alive {
      var c := kids[i];
      assert c in kids;
    }
    KeepAll(kids, alive);
    if k in t.handles {
      assert k in kids <==> t.objects[k].parent == Some(id);
      assert id in s <==> t.objects[id].parent == Some(k);
      TrimMore(t, alive, id, k);
    } else {
      assert k !in kids;
      assert t.objects[id].parent != Some(k);
    }
  }

  lemma TrimMore(t: Table, alive: set<int>, id: int, k: int)
    requires k in t.objects && k in t.handles && id in alive && Distinct(t.objects[k].children)
    ensures Trimmed(t, alive - {id}, k).children ==
            if k == id || k !in alive then t.objects[k].children
            else if id in t.objects[k].children then EraseFirst(Trimmed(t, alive, k).children, id)
            else Trimmed(t, alive, k).children
  {
    var s := t.objects[k].children;
    if k != id && k in alive {
      if id in s {
        EraseFromKeep(s, alive, id);
      } else {
        KeepAgree(s, alive, alive - {id});
      }
    }
  }

  /** The sweep's test, on the table it has reached, singles out those that do not survive. */
  lemma PrunableExactly(t: Table, it: int)
    requires Shaped(t) && Linked(t) && it in t.handles
    ensures Prunable(Restrict(t, Passed(t, it)), it) <==> !Survives(t, it)
  {
    var p := t.objects[it].parent;
    assert p.Some? ==> (p.value in Passed(t, it) <==> Survives(t, p.value));
  }

  /** What is left behind grows by the id passed over, if it survives. */
  lemma PassedNext(t: Table, it: int)
    requires Linked(t)
    ensures Passed(t, it + 1) == if it in t.handles && !Survives(t, it) then Passed(t, it) - {it} else Passed(t, it)
    ensures it in t.handles ==> it in Passed(t, it)
  {
  }

  lemma SweepOver(t: Table, it: int)
    requires Shaped(t) && Linked(t)
    ensures var now := Restrict(t, Passed(t, it));
            Restrict(t, Passed(t, it + 1)) == if Prunable(now, it) then Remove(now, it) else now
  {
    PassedNext(t, it);
    if it in t.handles {
      PrunableExactly(t, it);
      if !Survives(t, it) {
        assert forall c :: c in t.objects[it].children ==> c in t.handles && c > it;
        RemoveFromRestricted(t, Passed(t, it), it);
      }
    }
  }

  lemma {:induction false} SweepFrom(t: Table, it: int)
    requires Shaped(t) && Linked(t) && 0 <= it <= t.limit
    ensures PruneFrom(Restrict(t, Passed(t, it)), it) == Restrict(t, Survivors(t))
    decreases t.limit - it
  {
    if it >= t.limit {
      assert Passed(t, it) == Survivors(t);
    } else {
      SweepOver(t, it);
      SweepFrom(t, it + 1);
    }
  }

  /** One ascending sweep leaves exactly the survivors, linked as before among themselves. */
  lemma PruneReachesTheFixpoint(t: Table)
    requires Shaped(t) && Linked(t)
    ensures PruneFrom(t, 0) == Restrict(t, Survivors(t))
  {
    assert Passed(t, 0) == t.handles.Keys;
    RestrictToAll(t);
    SweepFrom(t, 0);
  }

  lemma TrimmedChildren(t: Table, alive: set<int>, k: int)
    requires Linked(t) && k in t.objects
    ensures Trimmed(t, alive, k).queue == t.objects[k].queue && Trimmed(t, alive, k).fdWaits == t.objects[k].fdWaits
    ensures forall c :: c in Trimmed(t, alive, k).children ==> c in t.objects[k].children
    ensures k in alive && k in t.handles ==> Distinct(Trimmed(t, alive, k).children)
    ensures k in alive && k in t.handles ==>
              forall c :: c in Trimmed(t, alive, k).children <==> c in t.objects[k].children && c in alive
  {
    KeepMembers(t.objects[k].children, alive);
  }

  lemma RestrictKeepsLinks(t: Table, alive: set<int>)
    requires Shaped(t) && Linked(t) && alive <= t.handles.Keys
    ensures Shaped(Restrict(t, alive)) && Linked(Restrict(t, alive))
    ensures Restrict(t, alive).handles.Keys == alive
    ensures Restrict(t, alive).objects.Keys == t.objects.Keys
    ensures forall k :: k in t.objects ==>
      && Restrict(t, alive).objects[k].queue == t.objects[k].queue
      && Restrict(t, alive).objects[k].fdWaits == t.objects[k].fdWaits
      && (forall c :: c in Restrict(t, alive).objects[k].children ==> c in t.objects[k].children)
  {
    hide Linked, Trimmed;
    RestrictTables(t, alive);
    forall k | k in t.objects {
      TrimmedChildren(t, alive, k);
    }
    RestrictIsLinked(t, alive);
  }

  lemma RestrictTables(t: Table, alive: set<int>)
    requires alive <= t.handles.Keys
    ensures Restrict(t, alive).handles.Keys == alive
    ensures Restrict(t, alive).objects.Keys == t.objects.Keys
  {
  }

  lemma RestrictIsLinked(t: Table, alive: set<int>)
    requires Linked(t) && alive <= t.handles.Keys
    ensures Linked(Restrict(t, alive))
  {
    var r := Restrict(t, alive);
    forall k | k in r.handles
      ensures Distinct(r.objects[k].children)
      ensures r.objects[k].parent.Some? ==>
                var p := r.objects[k].parent.value; p in r.handles && p < k && k in r.objects[p].children
      ensures forall c :: c in r.objects[k].children ==> c in r.handles && r.objects[c].parent == Some(k)
    {
      TrimmedChildren(t, alive, k);
      if r.objects[k].parent.Some? {
        TrimmedChildren(t, alive, r.objects[k].parent.value);
      }
    }
  }

  /** A second sweep finds nothing to do. */
  lemma PruneIsIdempotent(t: Table)
    requires Shaped(t) && Linked(t)
    ensures PruneFrom(PruneFrom(t, 0), 0) == PruneFrom(t, 0)
  {
    PruneReachesTheFixpoint(t);
    var r := Restrict(t, Survivors(t));
    RestrictKeepsLinks(t, Survivors(t));
    PruneReachesTheFixpoint(r);
    forall id | id in r.handles ensures Survives(r, id) {
      SurvivorsStillSurvive(t, id);
    }
    assert Survivors(r) == r.handles.Keys;
    RestrictToAll(r);
  }

  lemma {:induction false} SurvivorsStillSurvive(t: Table, id: int)
    requires Shaped(t) && Linked(t) && Survives(t, id)
    ensures Linked(Restrict(t, Survivors(t))) && Survives(Restrict(t, Survivors(t)), id)
    decreases id
  {
    RestrictKeepsLinks(t, Survivors(t));
    if !t.handles[id] {
      SurvivorsStillSurvive(t, t.objects[id].parent.value);
    }
  }

  /** A chain of registries upwards from `id`, each kept by the next, up to one with an R handle. */
  predicate HeldBy(t: Table, chain: seq<int>)
    requires Linked(t)
  {
    && chain != []
    && (forall i :: 0 <= i < |chain| ==> chain[i] in t.handles)
    && (forall i :: 0 <= i < |chain| - 1 ==>
          Busy(t, chain[i]) && t.objects[chain[i]].parent == Some(chain[i + 1]))
    && t.handles[chain[|chain| - 1]]
  }

  /** What survives is held by an R handle, its own or an ancestor's, with work all the way up. */
  lemma {:induction false} SurvivorsAreHeld(t: Table, id: int) returns (chain: seq<int>)
    requires Linked(t) && Survives(t, id)
    ensures HeldBy(t, chain) && chain[0] == id
    decreases id
  {
    if t.handles[id] {
      chain := [id];
    } else {
      var rest := SurvivorsAreHeld(t, t.objects[id].parent.value);
      chain := [id] + rest;
    }
  }

  /** ... and whatever is so held survives. */
  lemma {:induction false} HeldSurvive(t: Table, chain: seq<int>)
    requires Shaped(t) && Linked(t) && HeldBy(t, chain)
    ensures Survives(t, chain[0])
    decreases |chain|
  {
    if |chain| > 1 {
      var rest := chain[1..];
      assert forall i :: 0 <= i < |rest| ==> rest[i] == chain[i + 1];
      HeldSurvive(t, rest);
    }
  }
}
