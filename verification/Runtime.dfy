/** The event loop as it runs: registry objects linked by references, the table that names them,
    and the static state of the package. Every method is tied to the functions on values. */
module Runtime {
  import opened Options
  import opened Timestamps
  import opened Callbacks
  import opened Forest
  import opened Pass
  import opened Ledger
  import opened Answers

  lemma {:induction false} EraseAt(q: seq<Callback>, i: nat, id: nat)
    requires i < |q| && q[i].id == id && forall j :: 0 <= j < i ==> q[j].id != id
    ensures Erase(q, id) == q[..i] + q[i + 1..]
  {
    if i > 0 {
      EraseAt(q[1..], i - 1, id);
      assert q[..i] + q[i + 1..] == [q[0]] + (q[1..][..i - 1] + q[1..][i..]);
    }
  }

  lemma {:induction false} EraseAbsent(q: seq<Callback>, id: nat)
    requires forall j :: 0 <= j < |q| ==> q[j].id != id
    ensures Erase(q, id) == q
  {
    if q != [] {
      EraseAbsent(q[1..], id);
    }
  }

  lemma {:induction false} EraseFirstAt(s: seq<int>, i: nat, x: int)
    requires i < |s| && s[i] == x && forall j :: 0 <= j < i ==> s[j] != x
    ensures EraseFirst(s, x) == s[..i] + s[i + 1..]
  {
    if i > 0 {
      EraseFirstAt(s[1..], i - 1, x);
      assert s[..i] + s[i + 1..] == [s[0]] + (s[1..][..i - 1] + s[1..][i..]);
    }
  }

  lemma {:induction false} EraseFirstAbsent(s: seq<int>, x: int)
    requires forall j :: 0 <= j < |s| ==> s[j] != x
    ensures EraseFirst(s, x) == s
  {
    if s != [] {
      EraseFirstAbsent(s[1..], x);
    }
  }

  /** After `i` children the minimum is `least`, and the rest of the loop yields the tree's. */
  ghost predicate LeastSoFar(t: Table, id: int, kids: seq<int>, i: nat, least: Option<Timestamp>) {
    && Shaped(t) && id in t.objects && kids == t.objects[id].children && Below(t, id, kids) && i <= |kids|
    && NextAmong(t, id, kids[i..], least) == NextTimestamp(t, id)
  }

  lemma LeastAtFirst(t: Table, id: int, kids: seq<int>, least: Option<Timestamp>)
    requires Shaped(t) && id in t.objects && kids == t.objects[id].children && least == Head(t.objects[id].queue)
    ensures LeastSoFar(t, id, kids, 0, least)
  {
    ChildrenAreBelow(t, id);
    assert kids[0..] == kids;
  }

  lemma LeastStep(t: Table, id: int, kids: seq<int>, i: nat, least: Option<Timestamp>)
    requires LeastSoFar(t, id, kids, i, least) && i < |kids|
    ensures kids[i] in t.objects
    ensures LeastSoFar(t, id, kids, i + 1, Earlier(least, NextTimestamp(t, kids[i])))
  {
    assert kids[i..][1..] == kids[i + 1..];
  }

  lemma LeastAtLast(t: Table, id: int, kids: seq<int>, least: Option<Timestamp>)
    requires LeastSoFar(t, id, kids, |kids|, least)
    ensures least == NextTimestamp(t, id)
  {
  }

  lemma DueAmongStep(t: Table, above: int, kids: seq<int>, i: nat, now: Timestamp)
    requires Shaped(t) && above < t.limit && Below(t, above, kids) && i < |kids|
    ensures kids[i] in t.objects && Below(t, above, kids[i..]) && Below(t, above, kids[i + 1..])
    ensures DueAmong(t, above, kids[i..], now) <==> DueTree(t, kids[i], now) || DueAmong(t, above, kids[i + 1..], now)
  {
    assert kids[i..][1..] == kids[i + 1..];
  }

  lemma DueUnfold(t: Table, id: int, kids: seq<int>, now: Timestamp)
    requires Shaped(t) && id in t.objects && kids == t.objects[id].children
    ensures id < t.limit && Below(t, id, kids) && kids[0..] == kids
    ensures DueTree(t, id, now) <==> Due(t.objects[id].queue, now) || DueAmong(t, id, kids, now)
  {
    ChildrenAreBelow(t, id);
  }

  lemma NoneDueAmongNone(t: Table, above: int, kids: seq<int>, now: Timestamp)
    requires Shaped(t) && above < t.limit && Below(t, above, kids)
    ensures Below(t, above, kids[|kids|..]) && !DueAmong(t, above, kids[|kids|..], now)
  {
  }

  /** The ids of a list of registries. */
  ghost function IdsOf(rs: seq<CallbackRegistry>): seq<int> {
    seq(|rs|, i requires 0 <= i < |rs| => rs[i].id)
  }

  class CallbackRegistry {
    const id: int
    var queue: seq<Callback>
    var fdWaits: int
    var parent: CallbackRegistry?
    var children: seq<CallbackRegistry>

    constructor (id: int)
      ensures this.id == id && queue == [] && fdWaits == 0 && parent == null && children == []
    {
      this.id := id;
      queue, fdWaits, parent, children := [], 0, null, [];
    }

    ghost function View(): Registry
      reads this
    {
      Registry(queue, fdWaits, if parent == null then None else Some(parent.id), IdsOf(children))
    }

    /** An ordered queue stays ordered, gains exactly the new callback, and loses none. */
    method Add(cb: Callback)
      modifies this`queue
      ensures queue == Insert(old(queue), cb)
      ensures old(Sorted(queue) && cb !in queue) ==>
        Sorted(queue) && |queue| == |old(queue)| + 1 && forall x :: x in queue <==> x in old(queue) || x == cb
    {
      if Sorted(queue) {
        InsertKeepsOrder(queue, cb);
      }
      queue := Insert(queue, cb);
    }

    method Cancel(cbId: nat) returns (found: bool)
      modifies this`queue
      ensures queue == Erase(old(queue), cbId)
      ensures found <==> HasId(old(queue), cbId)
    {
      var i := 0;
      while i < |queue|
        invariant 0 <= i <= |queue| && queue == old(queue)
        invariant forall j :: 0 <= j < i ==> queue[j].id != cbId
      {
        if queue[i].id == cbId {
          EraseAt(queue, i, cbId);
          queue := queue[..i] + queue[i + 1..];
          return true;
        }
        i := i + 1;
      }
      EraseAbsent(queue, cbId);
      return false;
    }

    /** The head of the queue, taken out, if it is due. */
    method TakeDue(now: Timestamp) returns (taken: Option<Callback>)
      modifies this`queue
      ensures taken == if Due(old(queue), now) then Some(old(queue)[0]) else None
      ensures queue == if Due(old(queue), now) then old(queue)[1..] else old(queue)
    {
      taken := None;
      if queue != [] && !Greater(queue[0].when, now) {
        taken := Some(queue[0]);
        queue := queue[1..];
      }
    }

    /** Drops the first reference to `r` from the children. */
    method EraseChild(r: CallbackRegistry)
      requires forall i :: 0 <= i < |children| && children[i].id == r.id ==> children[i] == r
      modifies this`children
      ensures IdsOf(children) == EraseFirst(old(IdsOf(children)), r.id)
      ensures forall c :: c in children ==> c in old(children)
    {
      var i := 0;
      while i < |children|
        invariant 0 <= i <= |children| && children == old(children)
        invariant forall j :: 0 <= j < i ==> children[j] != r
      {
        if children[i] == r {
          EraseFirstAt(IdsOf(children), i, r.id);
          children := children[..i] + children[i + 1..];
          return;
        }
        i := i + 1;
      }
      EraseFirstAbsent(IdsOf(children), r.id);
    }

    /** Empty means that no descriptor wait is under way and nothing at all is queued. */
    method Empty() returns (empty: bool)
      ensures empty <==> fdWaits <= 0 && |queue| == 0
      ensures empty <==> View().Empty()
    {
      if fdWaits > 0 {
        return false;
      }
      return queue == [];
    }
  }

  datatype RegistryHandle = RegistryHandle(registry: CallbackRegistry, rRefExists: bool)

  class EventLoop {
    var registries: map<int, RegistryHandle>
    var nextCallback: nat
    var nextLoop: int
    var loops: set<int>
    var current: int
    var depth: nat

    // every registry object made so far, by id
    ghost var objs: map<int, CallbackRegistry>
    ghost var nodes: set<CallbackRegistry>
    ghost var limit: int

    ghost predicate Holds(r: CallbackRegistry)
      reads this`nodes
    {
      r in nodes
    }

    ghost predicate NodeWired(r: CallbackRegistry)
      reads this`nodes, r
    {
      && (r.parent != null ==> Holds(r.parent))
      && (forall i :: 0 <= i < |r.children| ==> Holds(r.children[i]))
    }

    /** References and ids agree. */
    ghost predicate Wired()
      reads this`objs, this`nodes, this`registries, nodes
    {
      && (forall k :: k in objs ==> objs[k] in nodes && objs[k].id == k)
      && (forall r :: r in nodes ==> r.id in objs && objs[r.id] == r && NodeWired(r))
      && (forall k :: k in registries ==> k in objs && registries[k].registry == objs[k])
    }

    ghost function TheTable(): Table
      reads this`objs, this`registries, this`limit, objs.Values
    {
      Table(map k | k in objs :: objs[k].View(), map k | k in registries :: registries[k].rRefExists, limit)
    }

    ghost function TheWorld(): World
      reads this, objs.Values
    {
      World(TheTable(), nextCallback, nextLoop, loops, current, depth)
    }

    ghost predicate Good()
      reads this`objs, this`nodes, this`registries, this`limit, this`nextLoop, nodes, objs.Values
    {
      Wired() && Shaped(TheTable()) && Linked(TheTable()) && limit <= nextLoop
    }

    lemma GoodAgain(w: World)
      requires Wired() && TheWorld() == w && Sound(w)
      ensures Good()
    {
    }

    lemma GoodTable(t: Table)
      requires Wired() && TheTable() == t && Shaped(t) && Linked(t) && t.limit <= nextLoop
      ensures Good()
    {
    }

    /** The state right after the package is loaded. */
    constructor ()
      ensures Good() && TheWorld() == Loaded() && fresh(nodes)
    {
      var global := new CallbackRegistry(GLOBAL_LOOP);
      registries := map[GLOBAL_LOOP := RegistryHandle(global, true)];
      nextCallback, nextLoop, loops, current, depth := 1, 1, {GLOBAL_LOOP}, GLOBAL_LOOP, 0;
      objs := map[GLOBAL_LOOP := global];
      nodes := {global};
      limit := 1;
      new;
      assert IdsOf([]) == [];
      assert TheTable().objects == Loaded().table.objects;
      assert TheTable().handles == Loaded().table.handles;
      LoadedIsValid();
    }

    method GetRegistry(id: int) returns (r: CallbackRegistry?)
      requires Wired()
      ensures r == null <==> id !in registries
      ensures r != null ==> Holds(r) && r.id == id
      ensures TheTable() == old(TheTable())
    {
      if id in registries {
        return registries[id].registry;
      }
      return null;
    }

    /** Objects are only ever added. */
    twostate predicate Grown()
      reads this`nodes
    {
      old(nodes) <= nodes && fresh(nodes - old(nodes))
    }

    /** The table is `want` once it agrees with it id by id. */
    lemma TableIs(want: Table)
      requires objs.Keys == want.objects.Keys && registries.Keys == want.handles.Keys && limit == want.limit
      requires forall k :: k in objs ==> objs[k].View() == want.objects[k]
      requires forall k :: k in registries ==> registries[k].rRefExists == want.handles[k]
      ensures TheTable() == want
    {
      var t := TheTable();
      assert t.objects.Keys == objs.Keys;
      assert t.handles.Keys == registries.Keys;
      forall k | k in objs ensures t.objects[k] == want.objects[k] {
        assert t.objects[k] == objs[k].View();
      }
      forall k | k in registries ensures t.handles[k] == want.handles[k] {
        assert t.handles[k] == registries[k].rRefExists;
      }
      MapsAgree(t.objects, want.objects);
      MapsAgree(t.handles, want.handles);
    }

    /** The ids in the table are below the limit. */
    lemma RegisteredAreOld(id: int)
      requires Good() && id >= limit
      ensures id !in registries && id !in objs
    {
      assert id !in TheTable().objects;
    }

    /** Makes a registry and links it below its parent, unless the id is taken or the parent missing. */
    method Create(id: int, parentId: Option<int>) returns (made: bool)
      requires Good() && (id in registries || id >= limit)
      modifies this`registries, this`objs, this`nodes, this`limit, nodes
      ensures Wired() && Grown()
      ensures made <==> id !in old(registries) && (parentId.None? || parentId.value in old(TheTable().handles))
      ensures TheTable() == if made then Forest.Create(old(TheTable()), id, parentId) else old(TheTable())
    {
      hide Forest.Create, Shaped, Linked;
      if id in registries {
        return false;
      }
      RegisteredAreOld(id);
      var p: CallbackRegistry? := null;
      if parentId.Some? {
        p := GetRegistry(parentId.value);
        if p == null {
          return false;
        }
      }
      Enter(id, p);
      made := true;
    }

    /** Names a new registry in the table, and links it and its parent. */
    method Enter(id: int, p: CallbackRegistry?)
      requires Wired() && id >= limit && id !in objs && (p != null ==> Holds(p))
      modifies this`registries, this`objs, this`nodes, this`limit, p
      ensures Wired() && Grown()
      ensures TheTable() == Forest.Create(old(TheTable()), id, if p == null then None else Some(p.id))
    {
      hide Forest.Create;
      ghost var before := TheTable();
      var r := Make(id);
      if p != null {
        AttachNew(before, r, p);
      }
    }

    method Make(id: int) returns (r: CallbackRegistry)
      requires Wired() && id !in objs
      modifies this`registries, this`objs, this`nodes, this`limit
      ensures Wired() && fresh(r) && r.id == id && r.View() == Registry([], 0, None, [])
      ensures objs == old(objs)[id := r] && nodes == old(nodes) + {r}
      ensures registries == old(registries)[id := RegistryHandle(r, true)]
      ensures limit == if id < old(limit) then old(limit) else id + 1
      ensures TheTable() == Forest.Create(old(TheTable()), id, None)
    {
      ghost var before := TheTable();
      r := new CallbackRegistry(id);
      Name(r);
      TableIs(Forest.Create(before, id, None));
    }

    /** Names a registry that has no links yet. */
    method Name(r: CallbackRegistry)
      requires Wired() && r.id !in objs
      requires r.queue == [] && r.fdWaits == 0 && r.parent == null && r.children == []
      modifies this`registries, this`objs, this`nodes, this`limit
      ensures Wired() && objs == old(objs)[r.id := r] && nodes == old(nodes) + {r}
      ensures registries == old(registries)[r.id := RegistryHandle(r, true)]
      ensures limit == if r.id < old(limit) then old(limit) else r.id + 1
    {
      registries := registries[r.id := RegistryHandle(r, true)];
      objs := objs[r.id := r];
      nodes := nodes + {r};
      limit := if r.id < limit then limit else r.id + 1;
      forall n | n in nodes ensures NodeWired(n) {
        if n != r {
          assert old(NodeWired(n));
        }
      }
    }

    /** Links two registries, parent to child and back. */
    method Attach(r: CallbackRegistry, p: CallbackRegistry)
      requires Wired() && Holds(r) && Holds(p) && r != p
      modifies r`parent, p`children
      ensures Wired() && r.View() == old(r.View()).(parent := Some(p.id))
      ensures p.View() == old(p.View()).(children := old(p.View()).children + [r.id])
      ensures forall k :: k in objs && objs[k] != r && objs[k] != p ==> objs[k].View() == old(objs[k].View())
    {
      r.parent := p;
      p.children := p.children + [r];
      assert IdsOf(p.children) == IdsOf(old(p.children)) + [r.id];
      forall n | n in nodes ensures NodeWired(n) {
        assert old(NodeWired(n));
      }
    }

    /** Links a registry just made and its parent. */
    method AttachNew(ghost before: Table, r: CallbackRegistry, p: CallbackRegistry)
      requires Wired() && Holds(r) && Holds(p) && r != p && r.id !in before.objects && p.id in before.objects
      requires TheTable() == Forest.Create(before, r.id, None)
      modifies r`parent, p`children
      ensures Wired() && TheTable() == Forest.Create(before, r.id, Some(p.id))
    {
      ghost var made, want := TheTable(), Forest.Create(before, r.id, Some(p.id));
      assert forall k :: k in objs ==> objs[k].View() == made.objects[k];
      Attach(r, p);
      assert want.objects.Keys == made.objects.Keys;
      forall k | k in objs ensures objs[k].View() == want.objects[k] {
        if k != r.id {
          CreateEffect(before, r.id, None, k);
          CreateEffect(before, r.id, Some(p.id), k);
        }
      }
      TableIs(want);
    }

    /** Tells each of these registries that it has no parent any more. */
    method Orphan(kids: seq<CallbackRegistry>)
      requires Wired() && forall i :: 0 <= i < |kids| ==> Holds(kids[i])
      modifies (set c | c in kids)`parent
      ensures Wired()
      ensures forall k :: k in objs ==>
                objs[k].View() == old(objs[k].View()).(
                  parent := if k in IdsOf(kids) then None else old(objs[k].View()).parent)
    {
      var i := 0;
      while i < |kids|
        invariant 0 <= i <= |kids|
        invariant forall k :: k in objs ==>
                    objs[k].parent == if objs[k] in kids[..i] then null else old(objs[k].parent)
      {
        kids[i].parent := null;
        i := i + 1;
        assert kids[..i] == kids[..i - 1] + [kids[i - 1]];
      }
      assert kids[..i] == kids;
      forall n | n in nodes ensures NodeWired(n) {
        assert old(NodeWired(n));
      }
      forall k | k in objs ensures objs[k] in kids <==> k in IdsOf(kids) {
        if objs[k] in kids {
          var j :| 0 <= j < |kids| && kids[j] == objs[k];
          assert IdsOf(kids)[j] == k;
        }
        if k in IdsOf(kids) {
          var j :| 0 <= j < |kids| && IdsOf(kids)[j] == k;
          assert Holds(kids[j]);
        }
      }
    }

    /** How removal leaves the object with id `k`. */
    ghost function Unlinked(t: Table, id: int, k: int): Registry
      requires id in t.objects && k in t.objects
    {
      t.objects[k].(
        children := if t.objects[id].parent == Some(k) then EraseFirst(t.objects[k].children, id)
                    else t.objects[k].children,
        parent := if k in t.objects[id].children then None else t.objects[k].parent)
    }

    lemma RemovalDone(before: Table, id: int)
      requires id in before.objects && id in before.handles && before.objects.Keys == objs.Keys
      requires forall k :: k in objs ==> objs[k].View() == Unlinked(before, id, k)
      requires limit == before.limit && registries.Keys == before.handles.Keys - {id}
      requires forall k :: k in registries ==> registries[k].rRefExists == before.handles[k]
      ensures TheTable() == Forest.Remove(before, id)
    {
      var want := Forest.Remove(before, id);
      assert want.objects.Keys == objs.Keys;
      forall k | k in objs ensures objs[k].View() == want.objects[k] {
        RemoveEffect(before, id, k);
      }
      TableIs(want);
    }

    /** Deregisters `r` from its parent, if it has one. */
    method Unlist(r: CallbackRegistry)
      requires Wired() && Holds(r) && r.parent != r
      modifies nodes`children
      ensures Wired() && r.View().children == old(r.View().children)
      ensures forall k :: k in objs ==>
                objs[k].View() == old(objs[k].View()).(children :=
                  if old(r.View().parent) == Some(k) then EraseFirst(old(objs[k].View().children), r.id)
                  else old(objs[k].View().children))
    {
      var p := r.parent;
      if p != null {
        assert old(NodeWired(p));
        p.EraseChild(r);
      }
      forall n | n in nodes ensures NodeWired(n) {
        assert old(NodeWired(n));
        forall i | 0 <= i < |n.children| ensures Holds(n.children[i]) {
          var c := n.children[i];
          assert c in n.children;
          assert c in old(n.children);
        }
      }
    }

    method Forget(id: int)
      requires Wired()
      modifies this`registries
      ensures Wired() && registries == old(registries) - {id}
    {
      registries := registries - {id};
      forall n | n in nodes ensures NodeWired(n) {
        assert old(NodeWired(n));
      }
    }

    /** Both directions of the links around `r`. */
    method Unlink(r: CallbackRegistry)
      requires Wired() && Holds(r) && r.parent != r
      modifies nodes
      ensures Wired()
      ensures forall k :: k in objs ==> objs[k].View() == Unlinked(old(TheTable()), r.id, k)
    {
      ghost var before := TheTable();
      assert forall k :: k in objs ==> before.objects[k] == objs[k].View();
      Unlist(r);
      assert NodeWired(r);
      Orphan(r.children);
    }

    /** Takes an unlinked registry's id out of the table. */
    method Strike(id: int, ghost before: Table)
      requires Wired() && id in before.objects && id in registries && before.objects.Keys == objs.Keys
      requires before.handles == (map k | k in registries :: registries[k].rRefExists) && limit == before.limit
      requires forall k :: k in objs ==> objs[k].View() == Unlinked(before, id, k)
      modifies this`registries
      ensures Wired() && id in before.handles && TheTable() == Forest.Remove(before, id)
    {
      hide Forest.Remove, EraseFirst;
      Forget(id);
      RemovalDone(before, id);
    }

    /** Takes a registry out of the table: out of its parent's list, its children orphaned. */
    method Remove(id: int) returns (removed: bool)
      requires Wired() && (id in registries ==> objs[id].parent != objs[id])
      modifies this`registries, nodes
      ensures Wired()
      ensures removed <==> id in old(registries)
      ensures TheTable() == if removed then Forest.Remove(old(TheTable()), id) else old(TheTable())
    {
      hide Forest.Remove, Unlinked, EraseFirst, Shaped, Linked;
      ghost var before := TheTable();
      var r := GetRegistry(id);
      if r == null {
        return false;
      }
      Unlink(r);
      Strike(id, before);
      return true;
    }

    method TakeOut(id: int)
      requires Good() && id in registries
      modifies this`registries, nodes
      ensures Good() && TheTable() == Forest.Remove(old(TheTable()), id)
    {
      hide Forest.Remove, Shaped, Linked, Wired;
      RemovalIsGood(TheTable(), id);
      NotItsOwnParent(id);
      ghost var want := Forest.Remove(TheTable(), id);
      var removed := Remove(id);
      GoodTable(want);
    }

    lemma RemovalIsGood(t: Table, id: int)
      requires Shaped(t) && Linked(t) && id in t.handles
      ensures id in t.objects && Shaped(Forest.Remove(t, id)) && Linked(Forest.Remove(t, id))
      ensures Forest.Remove(t, id).limit == t.limit
    {
      RemoveKeepsLinks(t, id);
    }

    /** One stop of the sweep. */
    method SweepAt(it: int)
      requires Good()
      modifies this`registries, nodes
      ensures Good()
      ensures TheTable() == if Prunable(old(TheTable()), it) then Forest.Remove(old(TheTable()), it)
                            else old(TheTable())
    {
      hide Forest.Remove, Shaped, Linked;
      if it in registries && !registries[it].rRefExists {
        var r := registries[it].registry;
        var empty := r.Empty();
        assert TheTable().objects[it] == r.View();
        if empty || r.parent == null {
          TakeOut(it);
        }
      }
    }

    /** Visits the ids in ascending order, as the ordered map's iterator does. */
    method PruneRegistries()
      requires Good()
      modifies this`registries, nodes
      ensures Good()
      ensures TheTable() == PruneFrom(old(TheTable()), 0)
    {
      var it := 0;
      while it < nextLoop
        invariant Good()
        invariant PruneFrom(TheTable(), it) == PruneFrom(old(TheTable()), 0)
      {
        SweepAt(it);
        it := it + 1;
      }
    }

    // ---- queries over a loop's tree

    lemma Seen(r: CallbackRegistry)
      requires Good() && Holds(r)
      ensures r.id in TheTable().objects && TheTable().objects[r.id] == r.View()
    {
    }

    method DueInTree(r: CallbackRegistry, now: Timestamp) returns (due: bool)
      requires Good() && Holds(r)
      ensures due <==> DueTree(TheTable(), r.id, now)
      decreases limit - r.id, 1
    {
      hide DueTree, DueAmong, Below, Shaped, Linked, Wired;
      Seen(r);
      ghost var t, kids := TheTable(), IdsOf(r.children);
      DueUnfold(t, r.id, kids, now);
      if r.queue != [] && !Greater(r.queue[0].when, now) {
        return true;
      }
      due := false;
      var i := 0;
      while i < |r.children| && !due
        invariant 0 <= i <= |r.children| && Below(t, r.id, kids[i..])
        invariant DueAmong(t, r.id, kids, now) <==> due || DueAmong(t, r.id, kids[i..], now)
      {
        DueAmongStep(t, r.id, kids, i, now);
        due := DueInChild(r, i, now);
        i := i + 1;
      }
      NoneDueAmongNone(t, r.id, kids, now);
    }

    /** The body of that loop. */
    method DueInChild(r: CallbackRegistry, i: nat, now: Timestamp) returns (due: bool)
      requires Good() && Holds(r) && i < |r.children|
      ensures r.children[i].id in TheTable().objects
      ensures due <==> DueTree(TheTable(), r.children[i].id, now)
      decreases limit - r.id, 0
    {
      ChildIsBelow(r, i);
      due := DueInTree(r.children[i], now);
    }

    lemma ChildIsBelow(r: CallbackRegistry, i: nat)
      requires Good() && Holds(r) && i < |r.children|
      ensures Holds(r.children[i]) && r.id < r.children[i].id < limit && r.children[i].id in TheTable().objects
    {
      assert TheTable().objects[r.id] == r.View() && NodeWired(r);
      ChildrenAreBelow(TheTable(), r.id);
      assert IdsOf(r.children)[i] == r.children[i].id;
    }

    static method TakeEarlier(least: Option<Timestamp>, next: Option<Timestamp>) returns (r: Option<Timestamp>)
      ensures r == Earlier(least, next)
    {
      r := least;
      if next.Some? {
        if least.Some? {
          if Less(next.value, least.value) {
            r := next;
          }
        } else {
          r := next;
        }
      }
    }

    method EarliestInTree(r: CallbackRegistry) returns (least: Option<Timestamp>)
      requires Good() && Holds(r)
      ensures least == NextTimestamp(TheTable(), r.id)
      decreases limit - r.id, 1
    {
      hide NextTimestamp, NextAmong, LeastSoFar, Shaped, Linked, Wired;
      Seen(r);
      ghost var t, kids := TheTable(), IdsOf(r.children);
      least := if r.queue == [] then None else Some(r.queue[0].when);
      LeastAtFirst(t, r.id, kids, least);
      var i := 0;
      while i < |r.children|
        invariant 0 <= i <= |r.children|
        invariant LeastSoFar(t, r.id, kids, i, least)
      {
        LeastStep(t, r.id, kids, i, least);
        least := EarlierOfChild(r, i, least);
        i := i + 1;
      }
      LeastAtLast(t, r.id, kids, least);
    }

    /** The body of that loop. */
    method EarlierOfChild(r: CallbackRegistry, i: nat, least: Option<Timestamp>) returns (earlier: Option<Timestamp>)
      requires Good() && Holds(r) && i < |r.children|
      ensures r.children[i].id in TheTable().objects
      ensures earlier == Earlier(least, NextTimestamp(TheTable(), r.children[i].id))
      decreases limit - r.id, 0
    {
      hide Shaped, Linked, Wired;
      ChildIsBelow(r, i);
      var next := EarliestInTree(r.children[i]);
      earlier := TakeEarlier(least, next);
    }

    // ---- what a callback may do

    /** The table when only the queue of `r` has changed. */
    twostate lemma QueueReplaced(r: CallbackRegistry)
      requires old(Good()) && Holds(r) && objs == old(objs) && nodes == old(nodes) && registries == old(registries) &&
          limit == old(limit)
      requires forall k :: k in objs && objs[k] != r ==> unchanged(objs[k])
      requires unchanged(r`fdWaits, r`parent, r`children)
      ensures Wired()
      ensures TheTable() == WithQueue(old(TheWorld()), r.id, r.queue).table
    {
      forall n | n in nodes ensures NodeWired(n) {
        assert old(NodeWired(n));
      }
      TableIs(WithQueue(old(TheWorld()), r.id, r.queue).table);
    }

    method ScheduleOn(loop: int, when: Timestamp) returns (failed: bool)
      requires Good()
      modifies this`nextCallback, nodes`queue
      ensures Good() && (failed <==> Fails(old(TheWorld()), Schedule(loop, when)))
      ensures TheWorld() == Pass.Perform(old(TheWorld()), Schedule(loop, when))
    {
      hide Pass.Perform, Insert, Shaped, Linked;
      ScheduleUnfold(TheWorld(), loop, when);
      var r := GetRegistry(loop);
      if r == null {
        return true;
      }
      assert TheTable().objects[loop] == r.View();
      r.Add(Callback(when, nextCallback));
      nextCallback := nextCallback + 1;
      QueueReplaced(r);
      return false;
    }

    method CancelOn(loop: int, cbId: nat) returns (found: bool)
      requires Good()
      modifies nodes`queue
      ensures Good()
      ensures found <==> loop in old(registries) && HasId(old(TheTable().objects[loop].queue), cbId)
      ensures TheWorld() == Pass.Perform(old(TheWorld()), Pass.Cancel(loop, cbId))
    {
      hide Pass.Perform, Erase, Shaped, Linked;
      CancelUnfold(TheWorld(), loop, cbId);
      var r := GetRegistry(loop);
      if r == null {
        return false;
      }
      assert TheTable().objects[loop] == r.View();
      found := r.Cancel(cbId);
      QueueReplaced(r);
    }

    /** `create_loop`: the id is used up even when the parent is gone. */
    method CreateLoop(parentId: Option<int>) returns (failed: bool)
      requires Good()
      modifies this`registries, this`objs, this`nodes, this`limit, this`nextLoop, this`loops, nodes
      ensures Good() && Grown()
      ensures failed <==> Fails(old(TheWorld()), Pass.CreateLoop(parentId))
      ensures TheWorld() == Pass.Perform(old(TheWorld()), Pass.CreateLoop(parentId))
    {
      hide Shaped, Linked, Forest.Create, Pass.Perform, Fails;
      ghost var want := Pass.Perform(TheWorld(), Pass.CreateLoop(parentId));
      CreateUnfold(TheWorld(), parentId);
      var id := nextLoop;
      RegisteredAreOld(id);
      var made := Create(id, parentId);
      RecordLoop(id, made, want);
      return !made;
    }

    /** The R side's part: the next id and the handle. */
    method RecordLoop(id: int, made: bool, ghost want: World)
      requires Wired() && TheTable() == want.table && Sound(want)
      requires want.nextLoop == id + 1 && want.loops == if made then loops + {id} else loops
      requires want.current == current && want.depth == depth && want.nextCallback == nextCallback
      modifies this`nextLoop, this`loops
      ensures Good() && TheWorld() == want
    {
      nextLoop := id + 1;
      if made {
        loops := loops + {id};
      }
      GoodAgain(want);
    }

    /** A registry in the table is not its own parent. */
    lemma NotItsOwnParent(id: int)
      requires Good()
      ensures Wired()
      ensures id in registries ==> objs[id].parent != objs[id]
    {
      assert id in registries ==> TheTable().objects[id] == objs[id].View();
    }

    /** The R side's part when a loop goes: its handle is forgotten. */
    method UnrecordLoop(id: int, removed: bool, ghost want: World)
      requires Wired() && TheTable() == want.table && Sound(want)
      requires want.nextLoop == nextLoop && want.loops == if removed then loops - {id} else loops
      requires want.current == current && want.depth == depth && want.nextCallback == nextCallback
      modifies this`loops
      ensures Good() && TheWorld() == want
    {
      if removed {
        loops := loops - {id};
      }
      GoodAgain(want);
    }

    /** `destroy_loop`, with the refusals of the global and the current loop. */
    method DestroyLoop(loop: int) returns (failed: bool)
      requires Good()
      modifies this`registries, this`loops, nodes
      ensures Good() && (failed <==> Fails(old(TheWorld()), Pass.DestroyLoop(loop)))
      ensures TheWorld() == Pass.Perform(old(TheWorld()), Pass.DestroyLoop(loop))
    {
      hide Pass.Perform, Forest.Remove, Shaped, Linked, Wired;
      ghost var want := Pass.Perform(TheWorld(), Pass.DestroyLoop(loop));
      DestroyUnfold(TheWorld(), loop);
      if loop == GLOBAL_LOOP || loop == current {
        return true;
      }
      NotItsOwnParent(loop);
      var removed := Remove(loop);
      UnrecordLoop(loop, removed, want);
      return false;
    }

    /** `notify_r_ref_deleted`, run when the R handle of a loop is collected. */
    method DropHandle(loop: int)
      requires Good()
      modifies this`registries, this`loops, nodes
      ensures Good()
      ensures TheWorld() == Pass.Perform(old(TheWorld()), Pass.DropHandle(loop))
    {
      hide Pass.Perform, PruneFrom, Lowered, Shaped, Linked, Wired;
      ghost var want := Pass.Perform(TheWorld(), Pass.DropHandle(loop));
      DropUnfold(TheWorld(), loop);
      if loop == GLOBAL_LOOP || loop == current || loop !in registries || !registries[loop].rRefExists {
        return;
      }
      LowerAndPrune(loop);
      UnrecordLoop(loop, true, want);
    }

    method LowerAndPrune(loop: int)
      requires Good() && loop in registries
      modifies this`registries, nodes
      ensures Wired() && TheTable() == PruneFrom(Lowered(old(TheTable()), loop), 0)
    {
      hide PruneFrom, Lowered, Shaped, Linked, Wired;
      LoweredKeepsLinks(TheTable(), loop);
      ghost var lowered := Lowered(TheTable(), loop);
      LowerFlag(loop);
      GoodTable(lowered);
      PruneRegistries();
    }

    method LowerFlag(loop: int)
      requires Wired() && loop in registries
      modifies this`registries
      ensures Wired() && TheTable() == Lowered(old(TheTable()), loop)
    {
      registries := registries[loop := registries[loop].(rRefExists := false)];
      forall n | n in nodes ensures NodeWired(n) {
        assert old(NodeWired(n));
      }
      TableIs(Lowered(old(TheTable()), loop));
    }

    // ---- the pass

    /** Everything is in order, and the state is `w`. */
    ghost predicate Is(w: World)
      reads this, nodes, objs.Values
    {
      Good() && TheWorld() == w && Sound(w)
    }

    /** The loop has come to where this run comes. */
    ghost predicate At(r: Run, outcome: Outcome, left: nat)
      reads this, nodes, objs.Values
    {
      Is(r.world) && outcome == r.outcome && left == r.left
    }

    lemma Known()
      requires Good()
      ensures Is(TheWorld())
    {
    }

    lemma OldIds(w: World, id: int)
      requires Is(w) && id in w.table.objects
      ensures id < limit
    {
    }

    method Perform(e: Effect, ghost w: World) returns (failed: bool)
      requires Is(w) && !e.RunNow?
      modifies this, nodes
      ensures Is(Pass.Perform(w, e)) && Grown()
      ensures failed <==> Fails(w, e)
    {
      PerformKeepsSound(w, e);
      failed := false;
      match e
      case Schedule(loop, when) => failed := ScheduleOn(loop, when);
      case Cancel(loop, cbId) => var found := CancelOn(loop, cbId);
      case CreateLoop(parent) => failed := CreateLoop(parent);
      case DestroyLoop(loop) => failed := DestroyLoop(loop);
      case DropHandle(loop) => DropHandle(loop);
      case Fail => failed := true;
    }

    /** Runs a callback's effects until one fails. The ghost argument is the state at the call. */
    method Invoke(script: Script, effects: seq<Effect>, b: nat, ghost w: World) returns (outcome: Outcome, left: nat)
      requires Is(w)
      modifies this, nodes
      ensures At(RunEffects(w, script, effects, b), outcome, left) && Grown()
      decreases b, 1, |effects|, 0, 0
    {
      outcome, left := Finished, b;
      ghost var now := w;
      assert effects[0..] == effects;
      var i := 0;
      while i < |effects| && outcome.Finished?
        invariant 0 <= i <= |effects| && left <= b && Is(now) && Grown()
        invariant outcome.Finished? ==>
            SameEnd(RunEffects(now, script, effects[i..], left), RunEffects(w, script, effects, b))
        invariant !outcome.Finished? ==> At(RunEffects(w, script, effects, b), outcome, left)
      {
        assert effects[i..][1..] == effects[i + 1..];
        EffectsUnfold(now, script, effects[i..], left);
        ghost var first := FirstRun(now, script, effects[i], left);
        outcome, left := InvokeOne(script, effects[i], left, now);
        now := first.world;
        i := i + 1;
      }
    }

    method InvokeOne(script: Script, e: Effect, b: nat, ghost w: World) returns (outcome: Outcome, left: nat)
      requires Is(w)
      modifies this, nodes
      ensures At(FirstRun(w, script, e, b), outcome, left) && Grown()
      decreases b, 1, 0, 0, 0
    {
      if e.RunNow? {
        var answer;
        outcome, left, answer := ExecCallbacks(script, e.loop, e.all, e.checkedAt, e.now, b, w);
      } else {
        var failed := Perform(e, w);
        outcome, left := if failed then Threw else Finished, b;
      }
    }

    /** The do-while loop: one callback at a time, so that an error loses no other. */
    method RunOwn(script: Script, all: bool, r: CallbackRegistry, now: Timestamp, b: nat, ghost w: World)
      returns (outcome: Outcome, left: nat)
      requires Is(w) && Holds(r) && r.id in w.table.objects
      modifies this, nodes
      ensures At(RunQueue(w, script, all, r.id, now, b), outcome, left) && Grown()
      decreases b, 0, limit - r.id, 0, 0
    {
      hide RunQueue, Shaped, Linked, Wired;
      OldIds(w, r.id);
      outcome, left := Finished, b;
      ghost var state := w;
      var again := true;
      while again
        invariant left <= b && Is(state) && Grown()
        invariant again ==> outcome.Finished?
        invariant again ==> Resumes(w, b, state, left, script, all, r.id, now)
        invariant !again ==> At(RunQueue(w, script, all, r.id, now, b), outcome, left)
        decreases left, again
      {
        outcome, left, again, state := RunFirst(script, all, r, now, left, state);
      }
    }

    /** The body of that loop. */
    method RunFirst(script: Script, all: bool, r: CallbackRegistry, now: Timestamp, b: nat, ghost w: World)
      returns (outcome: Outcome, left: nat, again: bool, ghost after: World)
      requires Is(w) && Holds(r) && r.id in w.table.objects
      modifies this, nodes
      ensures Is(after) && Grown()
      ensures !again ==> At(RunQueue(w, script, all, r.id, now, b), outcome, left)
      ensures again ==> outcome.Finished? && left < b
      ensures again ==> Resumes(w, b, after, left, script, all, r.id, now)
      decreases b, 0, 0, 1, 0
    {
      hide RunEffects, RunQueue, Popped, Resumes, Due, Shaped, Linked, Wired;
      ghost var q := w.table.objects[r.id].queue;
      QueueUnfold(w, script, all, r.id, now, b);
      after := w;
      var stuck, cb := TakeNext(r, now, b, w);
      if cb.None? {
        outcome, left, again := if stuck then Suspended else Finished, b, false;
      } else {
        outcome, left, after := InvokePopped(script, cb.value, r.id, now, b, w);
        again := all && outcome.Finished?;
      }
    }

    /** Invokes the callback just taken from the queue of `id`. */
    method InvokePopped(script: Script, cb: Callback, ghost id: int, ghost now: Timestamp, b: nat, ghost w: World)
      returns (outcome: Outcome, left: nat, ghost after: World)
      requires Sound(w) && id in w.table.objects && Due(w.table.objects[id].queue, now) && b > 0
      requires Is(Popped(w, id, now)) && cb == w.table.objects[id].queue[0]
      modifies this, nodes
      ensures var one := RunEffects(Popped(w, id, now), script, script(cb.id), b - 1);
              At(one, outcome, left) && after == one.world && left < b
      ensures Grown()
      decreases b, 0, 0, 0, 0
    {
      hide RunEffects, Popped, Due, Shaped, Linked, Wired;
      outcome, left := Invoke(script, script(cb.id), b - 1, Popped(w, id, now));
      after := RunEffects(Popped(w, id, now), script, script(cb.id), b - 1).world;
    }

    /** The next due callback, unless the observation of the run ends in front of it. */
    method TakeNext(r: CallbackRegistry, now: Timestamp, b: nat, ghost w: World)
          returns (stuck: bool, cb: Option<Callback>)
      requires Is(w) && Holds(r) && r.id in w.table.objects
      modifies nodes`queue
      ensures var q := w.table.objects[r.id].queue;
              && (stuck <==> b == 0 && Due(q, now))
              && if Due(q, now) && b > 0 then cb == Some(q[0]) && Is(Popped(w, r.id, now)) else cb == None && Is(w)
    {
      assert w.table.objects[r.id] == r.View();
      stuck, cb := b == 0 && r.queue != [] && !Greater(r.queue[0].when, now), None;
      if !stuck {
        cb := PopDue(r, now, w);
      }
    }

    /** `pop`: takes the head of the queue if it is due. */
    method PopDue(r: CallbackRegistry, now: Timestamp, ghost w: World) returns (cb: Option<Callback>)
      requires Is(w) && Holds(r) && r.id in w.table.objects
      modifies nodes`queue
      ensures var q := w.table.objects[r.id].queue;
              if Due(q, now) then cb == Some(q[0]) && Is(Popped(w, r.id, now)) else cb == None && Is(w)
    {
      assert w.table.objects[r.id] == r.View();
      cb := r.TakeDue(now);
      QueueReplaced(r);
      if cb.None? {
        assert TheWorld() == w;
        GoodAgain(w);
      } else {
        StepKeepsSound(w, Pop(r.id, cb.value, now));
        GoodAgain(Apply(w, Pop(r.id, cb.value, now)));
      }
    }

    /** The loop over the snapshot of children, all of whose due callbacks are run. */
    method RunKids(script: Script, ghost above: int, kids: seq<CallbackRegistry>, now: Timestamp, b: nat,
          ghost w: World)
      returns (outcome: Outcome, left: nat)
      requires Is(w) && above < w.table.limit && Below(w.table, above, IdsOf(kids))
      requires forall i :: 0 <= i < |kids| ==> Holds(kids[i])
      modifies this, nodes
      ensures At(RunChildren(w, script, above, IdsOf(kids), now, b), outcome, left) && Grown()
      decreases b, 0, limit - above, 0, |kids|
    {
      hide Pass.RunOne, RunChildren, Below, Shaped, Linked, Wired;
      outcome, left := Finished, b;
      ghost var ids, state := IdsOf(kids), w;
      assert ids[0..] == ids;
      var i := 0;
      while i < |kids| && outcome.Finished?
        invariant 0 <= i <= |kids| && left <= b && Is(state) && Grown()
        invariant above < state.table.limit && Below(state.table, above, ids[i..])
        invariant left == b ==> state.table.limit == w.table.limit
        invariant outcome.Finished? ==>
                    SameEnd(RunChildren(state, script, above, ids[i..], now, left),
                        RunChildren(w, script, above, ids, now, b))
        invariant !outcome.Finished? ==> At(RunChildren(w, script, above, ids, now, b), outcome, left)
      {
        KidUnfold(state, script, above, ids, i, now, left);
        ghost var first := RunOne(state, script, true, kids[i].id, now, left);
        outcome, left := ExecCallbacksOne(script, true, kids[i], now, left, state);
        state := first.world;
        i := i + 1;
      }
      if outcome.Finished? {
        NoChildrenLeft(state, script, above, ids[i..], now, left);
      }
    }

    /** The registry's own callbacks, then its children as they stand after that. */
    method RunTree(script: Script, all: bool, r: CallbackRegistry, now: Timestamp, b: nat, ghost w: World)
      returns (outcome: Outcome, left: nat)
      requires Is(w) && Holds(r) && r.id in w.table.objects
      modifies this, nodes
      ensures At(RunInside(w, script, all, r.id, now, b), outcome, left) && Grown()
      decreases b, 0, limit - r.id, 2, 0
    {
      hide RunInside, RunQueue, RunChildren, ChildrenRun, Shaped, Linked, Wired;
      ghost var own := RunQueue(w, script, all, r.id, now, b);
      InsideUnfold(w, script, all, r.id, now, b);
      outcome, left := RunOwn(script, all, r, now, b, w);
      if outcome.Finished? {
        outcome, left := RunChildrenOf(script, r, now, left, own.world);
      }
    }

    method RunChildrenOf(script: Script, r: CallbackRegistry, now: Timestamp, b: nat, ghost w: World)
      returns (outcome: Outcome, left: nat)
      requires Is(w) && Holds(r) && r.id in w.table.objects
      modifies this, nodes
      ensures At(ChildrenRun(w, script, r.id, now, b), outcome, left) && Grown()
      decreases b, 0, limit - r.id, 1, 0
    {
      assert w.table.objects[r.id] == r.View() && NodeWired(r);
      ChildrenAreBelow(w.table, r.id);
      outcome, left := RunKids(script, r.id, r.children, now, b, w);
    }

    /** Only the current loop and the depth have changed. */
    twostate lemma TableUntouched()
      requires old(Good()) && objs == old(objs) && nodes == old(nodes) && registries == old(registries)
      requires limit == old(limit) && nextLoop == old(nextLoop)
      requires forall k :: k in objs ==> unchanged(objs[k])
      ensures Good() && TheTable() == old(TheTable())
    {
      forall n | n in nodes ensures NodeWired(n) {
        assert old(NodeWired(n));
      }
      TableIs(old(TheTable()));
    }

    /** Sets the current loop and the depth; both guards of a pass come down to this. */
    method SetScope(loop: int, passes: nat, ghost w: World)
      requires Is(w)
      modifies this`current, this`depth
      ensures Is(w.(current := loop, depth := passes))
    {
      current := loop;
      depth := passes;
      TableUntouched();
    }

    method ExecCallbacksOne(script: Script, all: bool, r: CallbackRegistry, now: Timestamp, b: nat, ghost w: World)
      returns (outcome: Outcome, left: nat)
      requires Is(w) && Holds(r) && r.id in w.table.objects
      modifies this, nodes
      ensures At(RunOne(w, script, all, r.id, now, b), outcome, left) && Grown()
      decreases b, 0, limit - r.id, 3, 0
    {
      hide Pass.RunOne, RunInside, RunQueue, RunChildren, Shaped, Linked, Wired;
      OneUnfold(w, script, all, r.id, now, b);
      var saved := current;
      SetScope(r.id, depth + 1, w);
      ghost var entered := w.(current := r.id, depth := w.depth + 1);
      ghost var tree := RunInside(entered, script, all, r.id, now, b);
      outcome, left := RunTree(script, all, r, now, b, entered);
      if !outcome.Suspended? {
        SetScope(saved, depth - 1, tree.world);
      }
    }

    method ExecCallbacks(script: Script, id: int, all: bool, checkedAt: Timestamp, now: Timestamp, b: nat,
          ghost w: World)
      returns (outcome: Outcome, left: nat, answer: bool)
      requires Is(w)
      modifies this, nodes
      ensures At(Pass.ExecCallbacks(w, script, id, all, checkedAt, now, b), outcome, left) && Grown()
      ensures outcome.Finished? ==> id in w.table.handles && answer == Answer(w, id, checkedAt)
      decreases b, 0, if id < limit then limit - id else 0, 5, 0
    {
      hide Pass.RunOne, Pass.ExecCallbacks, PrunedRun, DueTree, Shaped, Linked, Wired;
      ExecUnfold(w, script, id, all, checkedAt, now, b);
      var r := Lookup(id, w);
      if r == null {
        return Threw, b, false;
      }
      var due := DueNow(r, checkedAt, w);
      if !due {
        return Finished, b, false;
      }
      answer := true;
      outcome, left := RunAndPrune(script, all, r, now, b, w);
    }

    /** The pass proper, and the pruning after it, which a throw skips. */
    method RunAndPrune(script: Script, all: bool, r: CallbackRegistry, now: Timestamp, b: nat, ghost w: World)
      returns (outcome: Outcome, left: nat)
      requires Is(w) && Holds(r) && r.id in w.table.objects
      modifies this, nodes
      ensures At(PrunedRun(w, script, all, r.id, now, b), outcome, left) && Grown()
      decreases b, 0, limit - r.id, 4, 0
    {
      hide Pass.RunOne, Apply, Shaped, Linked, Wired;
      ghost var one := RunOne(w, script, all, r.id, now, b);
      outcome, left := ExecCallbacksOne(script, all, r, now, b, w);
      if outcome.Finished? {
        SweepTable(one.world);
      }
    }

    /** Up to twenty passes over the global loop, stopping at the first that finds no work. */
    method ExecCallbacksForTopLevel(script: Script, clock: Clock, b: nat, ghost w: World)
      returns (outcome: Outcome, left: nat, any: bool)
      requires Is(w)
      modifies this, nodes
      ensures At(TopLevel(w, script, clock, 0, b).0, outcome, left) && Grown()
      ensures outcome.Finished? ==> (any <==> TopLevel(w, script, clock, 0, b).1)
    {
      hide TopLevel, TopResumes, Shaped, Linked, Wired;
      outcome, left, any := Finished, b, false;
      TopStarts(w, b, script, clock);
      ghost var state := w;
      var i, going := 0, true;
      while i < PASSES && going
        invariant 0 <= i <= PASSES && Grown()
        invariant any <==> i > 1 || (going && i > 0)
        invariant going ==> outcome.Finished? && Is(state) && TopResumes(w, b, state, left, script, clock, i)
        invariant !going ==> i > 0 && At(TopLevel(w, script, clock, 0, b).0, outcome, left)
        invariant !going && outcome.Finished? ==> (i > 1 <==> TopLevel(w, script, clock, 0, b).1)
      {
        outcome, left, going, state := TopPass(script, clock, i, left, w, b, state);
        any := any || going;
        i := i + 1;
      }
      if going {
        TopEnds(w, b, state, left, script, clock, i);
      }
    }

    /** The body of that loop. */
    method TopPass(script: Script, clock: Clock, i: nat, b: nat, ghost w: World, ghost total: nat, ghost now: World)
      returns (outcome: Outcome, left: nat, going: bool, ghost after: World)
      requires Is(now) && i < PASSES && TopResumes(w, total, now, b, script, clock, i)
      modifies this, nodes
      ensures Grown()
      ensures going ==> outcome.Finished? && Is(after) && TopResumes(w, total, after, left, script, clock, i + 1)
      ensures !going ==> At(TopLevel(w, script, clock, 0, total).0, outcome, left)
      ensures !going && outcome.Finished? ==> (i > 0 <==> TopLevel(w, script, clock, 0, total).1)
    {
      hide TopLevel, TopResumes, Pass.ExecCallbacks, Shaped, Linked, Wired;
      TopUnfold(w, total, now, b, script, clock, i);
      after := Pass.ExecCallbacks(now, script, GLOBAL_LOOP, true, clock(i).0, clock(i).1, b).world;
      var worked;
      outcome, left, worked := ExecCallbacks(script, GLOBAL_LOOP, true, clock(i).0, clock(i).1, b, now);
      going := outcome.Finished? && worked;
    }

    method Lookup(id: int, ghost w: World) returns (r: CallbackRegistry?)
      requires Is(w)
      ensures r == null <==> id !in w.table.handles
      ensures r != null ==> Holds(r) && r.id == id && id in w.table.objects
    {
      r := GetRegistry(id);
    }

    method DueNow(r: CallbackRegistry, now: Timestamp, ghost w: World) returns (due: bool)
      requires Is(w) && Holds(r) && r.id in w.table.objects
      ensures due <==> DueTree(w.table, r.id, now)
    {
      due := DueInTree(r, now);
    }

    method SweepTable(ghost w: World)
      requires Is(w)
      modifies this`registries, nodes
      ensures Is(Apply(w, Sweep))
    {
      StepKeepsSound(w, Sweep);
      PruneRegistries();
      GoodAgain(Apply(w, Sweep));
    }
  }

  /** The run of the children of `id`, as they stand. */
  ghost function ChildrenRun(w: World, script: Script, id: int, now: Timestamp, b: nat): Run
    requires Sound(w) && id in w.table.objects
  {
    ChildrenAreBelow(w.table, id);
    RunChildren(w, script, id, w.table.objects[id].children, now, b)
  }

  lemma InsideUnfold(w: World, script: Script, all: bool, id: int, now: Timestamp, b: nat)
    requires Sound(w) && id in w.table.objects
    ensures var own, inside := RunQueue(w, script, all, id, now, b), RunInside(w, script, all, id, now, b);
            SameEnd(inside, if own.outcome.Finished? then ChildrenRun(own.world, script, id, now, own.left) else own)
  {
  }

  lemma OneUnfold(w: World, script: Script, all: bool, id: int, now: Timestamp, b: nat)
    requires Sound(w) && id in w.table.objects
    ensures Sound(w.(current := id, depth := w.depth + 1))
    ensures var one, inside := RunOne(w, script, all, id, now, b),
                               RunInside(w.(current := id, depth := w.depth + 1), script, all, id, now, b);
            one.outcome == inside.outcome && one.left == inside.left &&
            one.world == if inside.outcome.Suspended? then inside.world
                         else inside.world.(current := w.current, depth := w.depth)
  {
    hide RunInside;
  }

  lemma KidUnfold(w: World, script: Script, above: int, kids: seq<int>, i: nat, now: Timestamp, b: nat)
    requires Sound(w) && above < w.table.limit && i < |kids| && Below(w.table, above, kids[i..])
    ensures kids[i] in w.table.objects && above < kids[i]
    ensures var first, all := RunOne(w, script, true, kids[i], now, b),
                              RunChildren(w, script, above, kids[i..], now, b);
            Sound(first.world) && first.left <= b &&
            above < first.world.table.limit && Below(first.world.table, above, kids[i + 1..]) &&
            (first.left == b ==> first.world.table == w.table) &&
            if first.outcome.Finished?
            then SameEnd(all, RunChildren(first.world, script, above, kids[i + 1..], now, first.left))
            else SameEnd(all, first)
  {
    hide RunOne;
    assert kids[i..][0] == kids[i] && kids[i..][1..] == kids[i + 1..];
  }

  lemma CreateUnfold(w: World, parent: Option<int>)
    requires Sound(w)
    ensures Sound(Pass.Perform(w, Pass.CreateLoop(parent)))
    ensures parent.Some? && parent.value in w.table.handles ==> parent.value in w.table.objects
    ensures var made := parent.None? || parent.value in w.table.handles;
      && (Fails(w, Pass.CreateLoop(parent)) <==> !made)
      && Pass.Perform(w, Pass.CreateLoop(parent))
         == if !made then w.(nextLoop := w.nextLoop + 1)
            else w.(table := Forest.Create(w.table, w.nextLoop, parent), nextLoop := w.nextLoop + 1,
                    loops := w.loops + {w.nextLoop})
  {
    PerformKeepsSound(w, Pass.CreateLoop(parent));
  }

  lemma ScheduleUnfold(w: World, loop: int, when: Timestamp)
    requires Sound(w)
    ensures Sound(Pass.Perform(w, Schedule(loop, when)))
    ensures loop in w.table.handles ==> loop in w.table.objects
    ensures Fails(w, Schedule(loop, when)) <==> loop !in w.table.handles
    ensures Pass.Perform(w, Schedule(loop, when))
         == if loop !in w.table.handles then w
            else WithQueue(w, loop, Insert(w.table.objects[loop].queue, Callback(when, w.nextCallback)))
              .(nextCallback := w.nextCallback + 1)
  {
    PerformKeepsSound(w, Schedule(loop, when));
  }

  lemma DropUnfold(w: World, loop: int)
    requires Sound(w)
    ensures Sound(Pass.Perform(w, Pass.DropHandle(loop)))
    ensures Pass.Perform(w, Pass.DropHandle(loop)) ==
            if loop == GLOBAL_LOOP || loop == w.current || loop !in w.table.handles || !w.table.handles[loop] then w
            else w.(table := PruneFrom(Lowered(w.table, loop), 0), loops := w.loops - {loop})
  {
    PerformKeepsSound(w, Pass.DropHandle(loop));
  }

  lemma DestroyUnfold(w: World, loop: int)
    requires Sound(w)
    ensures Sound(Pass.Perform(w, Pass.DestroyLoop(loop)))
    ensures Fails(w, Pass.DestroyLoop(loop)) <==> loop == GLOBAL_LOOP || loop == w.current
    ensures loop in w.table.handles ==> loop in w.table.objects
    ensures Pass.Perform(w, Pass.DestroyLoop(loop)) ==
            if loop == GLOBAL_LOOP || loop == w.current || loop !in w.table.handles then w
            else w.(table := Forest.Remove(w.table, loop), loops := w.loops - {loop})
  {
    PerformKeepsSound(w, Pass.DestroyLoop(loop));
  }

  lemma CancelUnfold(w: World, loop: int, cbId: nat)
    requires Sound(w)
    ensures Sound(Pass.Perform(w, Pass.Cancel(loop, cbId)))
    ensures loop in w.table.handles ==> loop in w.table.objects
    ensures Pass.Perform(w, Pass.Cancel(loop, cbId)) ==
            if loop !in w.table.handles then w else WithQueue(w, loop, Erase(w.table.objects[loop].queue, cbId))
  {
    PerformKeepsSound(w, Pass.Cancel(loop, cbId));
  }

  lemma NoChildrenLeft(w: World, script: Script, above: int, kids: seq<int>, now: Timestamp, b: nat)
    requires Sound(w) && above < w.table.limit && kids == []
    ensures SameEnd(RunChildren(w, script, above, kids, now, b), Run(w, [], Finished, b))
  {
  }

  /** The loop over one queue, taken up again in `after`, ends as it would have from `w`. */
  ghost predicate Resumes(w: World, b: nat, after: World, left: nat, script: Script, all: bool, id: int,
        now: Timestamp) {
    && Sound(w) && id in w.table.objects && Sound(after) && id in after.table.objects
    && SameEnd(RunQueue(after, script, all, id, now, left), RunQueue(w, script, all, id, now, b))
  }

  /** The state once the due head of the queue is taken out. */
  ghost function Popped(w: World, id: int, now: Timestamp): (w': World)
    requires Sound(w) && id in w.table.objects && Due(w.table.objects[id].queue, now)
    ensures Sound(w')
  {
    var pop := Pop(id, w.table.objects[id].queue[0], now);
    StepKeepsSound(w, pop);
    Apply(w, pop)
  }

  lemma QueueUnfold(w: World, script: Script, all: bool, id: int, now: Timestamp, b: nat)
    requires Sound(w) && id in w.table.objects
    ensures var q, r := w.table.objects[id].queue, RunQueue(w, script, all, id, now, b);
            && (!Due(q, now) ==> SameEnd(r, Run(w, [], Finished, b)))
            && (Due(q, now) && b == 0 ==> SameEnd(r, Run(w, [], Suspended, 0)))
            && (Due(q, now) && b > 0 ==>
                  var one := RunEffects(Popped(w, id, now), script, script(q[0].id), b - 1);
                  && one.left < b
                  && (one.outcome.Finished? && all ==> Resumes(w, b, one.world, one.left, script, all, id, now))
                  && (!one.outcome.Finished? || !all ==> SameEnd(r, one)))
  {
    var q := w.table.objects[id].queue;
    if Due(q, now) && b > 0 {
      StepKeepsSound(w, Pop(id, q[0], now));
    }
  }

  ghost function PrunedRun(w: World, script: Script, all: bool, id: int, now: Timestamp, b: nat): Run
    requires Sound(w) && id in w.table.objects
  {
    var one := RunOne(w, script, all, id, now, b);
    if one.outcome.Finished? then one.(world := Apply(one.world, Sweep)) else one
  }

  lemma ExecUnfold(w: World, script: Script, id: int, all: bool, checkedAt: Timestamp, now: Timestamp, b: nat)
    requires Sound(w)
    ensures var r := Pass.ExecCallbacks(w, script, id, all, checkedAt, now, b);
            if id !in w.table.handles then SameEnd(r, Run(w, [], Threw, b))
            else if !DueTree(w.table, id, checkedAt) then SameEnd(r, Run(w, [], Finished, b))
            else
              SameEnd(r, PrunedRun(w, script, all, id, now, b))
  {
  }

  /** The passes from number `i` on, in `after`, end as all of them do from `w`. */
  ghost predicate TopResumes(w: World, b: nat, after: World, left: nat, script: Script, clock: Clock, i: nat) {
    && Sound(w) && Sound(after) && i <= PASSES
    && SameEnd(TopLevel(after, script, clock, i, left).0, TopLevel(w, script, clock, 0, b).0)
    && (TopLevel(w, script, clock, 0, b).0.outcome.Finished? ==>
          (TopLevel(w, script, clock, 0, b).1 <==> i > 0 || TopLevel(after, script, clock, i, left).1))
  }

  lemma TopStarts(w: World, b: nat, script: Script, clock: Clock)
    requires Sound(w)
    ensures TopResumes(w, b, w, b, script, clock, 0)
  {
  }

  lemma TopUnfold(w: World, b: nat, now: World, left: nat, script: Script, clock: Clock, i: nat)
    requires TopResumes(w, b, now, left, script, clock, i) && i < PASSES
    ensures Sound(w) && Sound(now)
    ensures var top, pass := TopLevel(w, script, clock, 0, b),
                             Pass.ExecCallbacks(now, script, GLOBAL_LOOP, true, clock(i).0, clock(i).1, left);
            if !pass.outcome.Finished? then SameEnd(top.0, pass)
            else if GLOBAL_LOOP in now.table.handles && !Answer(now, GLOBAL_LOOP, clock(i).0) then
              SameEnd(top.0, pass) && (top.1 <==> i > 0)
            else TopResumes(w, b, pass.world, pass.left, script, clock, i + 1)
  {
  }

  lemma TopEnds(w: World, b: nat, now: World, left: nat, script: Script, clock: Clock, i: nat)
    requires TopResumes(w, b, now, left, script, clock, i) && i == PASSES
    ensures Sound(w) && SameEnd(TopLevel(w, script, clock, 0, b).0, Run(now, [], Finished, left))
    ensures TopLevel(w, script, clock, 0, b).1
  {
  }

  /** What the first of several effects does. */
  ghost function FirstRun(w: World, script: Script, e: Effect, b: nat): Run
    requires Sound(w)
  {
    if e.RunNow? then Pass.ExecCallbacks(w, script, e.loop, e.all, e.checkedAt, e.now, b)
    else Run(Pass.Perform(w, e), [Act(e)], if Fails(w, e) then Threw else Finished, b)
  }

  lemma EffectsUnfold(w: World, script: Script, effects: seq<Effect>, b: nat)
    requires Sound(w) && effects != []
    ensures var first, all := FirstRun(w, script, effects[0], b), RunEffects(w, script, effects, b);
            Sound(first.world) && first.left <= b &&
            if first.outcome.Finished? then SameEnd(all, RunEffects(first.world, script, effects[1..], first.left))
            else SameEnd(all, first)
  {
    if !effects[0].RunNow? {
      PerformKeepsSound(w, effects[0]);
    }
  }

  /** Two runs that end alike, whatever steps led there. */
  ghost predicate SameEnd(a: Run, b: Run) {
    a.world == b.world && a.outcome == b.outcome && a.left == b.left
  }
}
