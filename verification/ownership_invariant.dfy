/** Conservation and destroy order of the ownership graph, over every history. */
module OwnershipInvariant {
  import opened Native
  import opened Ownership

  /** Who holds a database or connection shell: its slot, its dependents, its installed request. */
  function Holders(m: map<Id, Owner>, id: Id): nat
    requires id in m
  {
    B(m[id].slot) + |Dependents(m, id)| + B(m[id].active.Some?)
  }

  predicate Counted(o: Owner) { o.kind == Database || o.kind == Connection }

  /** owing names the shell whose count has not yet been dropped for a holder that is already gone. */
  predicate OwnerOk(m: map<Id, Owner>, id: Id, owing: Option<Id>)
    requires id in m
  {
    var o := m[id];
    && (Counted(o) ==> o.refs == Holders(m, id) + B(owing == Some(id)) && o.refs > 0)
    && (Parented(o) ==> o.parent in m && m[o.parent].kind == if o.kind == Connection then Database else Connection)
    && (o.active.Some? ==> o.kind == Connection && o.active.value in m && m[o.active.value].kind == Request
                           && m[o.active.value].owner == Some(id))
    && (o.kind == Request ==> (o.state == Installed <==> o.owner.Some?) && o.held == 0)
    && (o.owner.Some? ==> o.kind == Request && o.owner.value in m && m[o.owner.value].kind == Connection
                          && m[o.owner.value].active == Some(id))
    && (!Counted(o) ==> o.slot && !o.closed)
    && (o.closed ==> !o.open && Dependents(m, id) == {} && o.active == None)
  }

  predicate Shape(m: map<Id, Owner>, owing: Option<Id>) {
    forall id {:trigger OwnerOk(m, id, owing)} | id in m :: OwnerOk(m, id, owing)
  }

  predicate Unique(log: seq<Event>) {
    forall i, j | 0 <= i < j < |log| && log[i].Freed? :: log[i] != log[j]
  }

  /** No child outlives its connection in the engine, and no connection its database. */
  predicate Ordered(log: seq<Event>) {
    forall i, j | 0 <= i < j < |log| :: !Misordered(log[i], log[j])
  }

  predicate Misordered(first: Event, second: Event) {
    || (first.Disconnected? && second.ChildDestroyed? && second.parent == first.id)
    || (first.DatabaseClosed? && second.Disconnected? && second.parent == first.id)
  }

  /** gone: shells already cleared and detached from their parent but not yet freed. */
  ghost predicate LogOk(s: State, gone: set<Id>) {
    && Unique(s.log) && Ordered(s.log)
    && s.owners.Keys <= s.used
    && (forall e | e in s.log :: e.id in s.used)
    && (forall e | e in s.log && e.Freed? :: e.id !in s.owners)
    && (forall id | id in s.used :: id in s.owners || Freed(id) in s.log)
    && (forall e | e in s.log && (e.Disconnected? || e.DatabaseClosed?) ::
          e.id in s.owners && e.id !in gone ==> s.owners[e.id].closed)
  }

  ghost predicate InvWith(s: State, gone: set<Id>, owing: Option<Id>) {
    && !s.bad
    && s.live == Total(s.owners) + s.leaked
    && gone <= s.owners.Keys && (forall z | z in gone :: s.owners[z].held == 0)
    && Shape(s.owners - gone, owing)
    && LogOk(s, gone)
  }

  ghost predicate Inv(s: State) {
    InvWith(s, {}, None)
  }

  // ----- pieces

  lemma LogAppend(s: State, t: State, gone: set<Id>, e: Event)
    requires LogOk(s, gone) && t.log == s.log + [e] && t.used == s.used && t.owners.Keys <= s.owners.Keys
    requires e.id in s.used
    requires e.Freed? ==> e.id in s.owners && e.id !in t.owners
    requires forall id | id in s.owners :: id in t.owners || e == Freed(id)
    requires forall f | f in s.log :: !Misordered(f, e)
    requires forall id | id in t.owners && id !in gone ::
               (s.owners[id].closed ==> t.owners[id].closed)
               && (e.id == id && (e.Disconnected? || e.DatabaseClosed?) ==> t.owners[id].closed)
    ensures LogOk(t, gone)
  {
    forall i, j | 0 <= i < j < |t.log| ensures !Misordered(t.log[i], t.log[j]) {
      assert i < |s.log| && t.log[i] == s.log[i] && s.log[i] in s.log;
    }
    forall i, j | 0 <= i < j < |t.log| && t.log[i].Freed? ensures t.log[i] != t.log[j] {
      assert t.log[i] == s.log[i] && s.log[i] in s.log;
    }
    forall f | f in t.log ensures f in s.log || f == e {
    }
  }

  /** Freeing a shell that is already out of the graph. */
  lemma FreeGone(s: State, gone: set<Id>, id: Id)
    requires InvWith(s, gone, None) && id in gone
    ensures InvWith(Free(s, id), gone - {id}, None)
  {
    var t := Free(s, id);
    TotalRemove(s.owners, id);
    assert t.owners - (gone - {id}) == s.owners - gone;
    LogAppend(s, t, gone, Freed(id));
    assert forall z | z in gone - {id} :: t.owners[z].held == 0;
    assert LogOk(t, gone - {id});
  }

  /** Destroying what an owner holds; it leaves the graph when it joins gone. */
  lemma EmptyLog(s: State, gone: set<Id>, id: Id, after: Owner)
    requires LogOk(s, gone) && id in s.owners && id !in gone
    requires s.owners[id].closed ==> !s.owners[id].open
    requires Parented(s.owners[id]) ==>
               s.owners[id].parent in s.owners && s.owners[id].parent !in gone && !s.owners[s.owners[id].parent].closed
    ensures LogOk(s.(owners := s.owners[id := after], log := s.log + DestroyEvents(id, s.owners[id])), gone + {id})
  {
    var o := s.owners[id];
    var t := s.(owners := s.owners[id := after], log := s.log + DestroyEvents(id, o));
    if DestroyEvents(id, o) == [] {
      assert t.log == s.log;
    } else {
      var e := DestroyEvents(id, o)[0];
      assert t.log == s.log + [e];
      LogAppend(s.(owners := t.owners), t, gone + {id}, e);
    }
  }

  lemma LeaveGraph(m: map<Id, Owner>, id: Id)
    requires id in m && m[id].kind != Request && Dependents(m, id) == {} && m[id].active == None && m[id].owner == None
    requires Parented(m[id]) ==> m[id].parent in m && m[id].parent != id
    requires forall x | x in m && x != id :: OwnerOk(m, x, None)
    ensures Shape(m - {id}, if Parented(m[id]) then Some(m[id].parent) else None)
  {
    var n := m - {id};
    forall x | x in n ensures OwnerOk(n, x, if Parented(m[id]) then Some(m[id].parent) else None) {
      assert OwnerOk(m, x, None);
      DependentsRemove(m, id, x);
      assert x !in Dependents(m, id);
      if Parented(m[id]) && m[id].parent == x {
        assert id in Dependents(m, x);
      }
    }
  }

  lemma LeaveRequest(m: map<Id, Owner>, r: Id)
    requires Shape(m, None) && r in m && m[r].kind == Request && m[r].owner == None
    ensures Shape(m - {r}, None)
  {
    var n := m - {r};
    assert OwnerOk(m, r, None);
    forall x | x in n ensures OwnerOk(n, x, None) {
      assert OwnerOk(m, x, None);
      DependentsRemove(m, r, x);
      assert r !in Dependents(m, x);
    }
  }

  predicate SameLinks(o: Owner, p: Owner) {
    o.kind == p.kind && o.parent == p.parent && o.active == p.active && o.owner == p.owner
  }

  lemma OtherOwnerOk(m: map<Id, Owner>, id: Id, o: Owner, x: Id, before: Option<Id>, owing: Option<Id>)
    requires id in m && x in m && x != id && SameLinks(o, m[id]) && OwnerOk(m, x, before)
    requires before == Some(x) <==> owing == Some(x)
    ensures OwnerOk(m[id := o], x, owing)
  {
    var n := m[id := o];
    DependentsPut(m, id, o, x);
    assert Dependents(n, x) == Dependents(m, x);
    assert n[x] == m[x];
  }

  /** Changing fields that no other owner's condition mentions. */
  lemma ShapePut(m: map<Id, Owner>, id: Id, o: Owner, before: Option<Id>, owing: Option<Id>)
    requires Shape(m, before) && id in m && SameLinks(o, m[id])
    requires forall x | x in m && x != id :: (before == Some(x) <==> owing == Some(x))
    requires OwnerOk(m[id := o], id, owing)
    ensures Shape(m[id := o], owing)
  {
    var n := m[id := o];
    forall x | x in n ensures OwnerOk(n, x, owing) {
      if x != id {
        OtherOwnerOk(m, id, o, x, before, owing);
      }
    }
  }

  /** One owner's plain fields change, and the counter with them. */
  lemma PutKeeps(s: State, gone: set<Id>, id: Id, o: Owner, before: Option<Id>, owing: Option<Id>)
    requires InvWith(s, gone, before) && id in s.owners && id !in gone
    requires SameLinks(o, s.owners[id])
    requires o.closed == s.owners[id].closed
    requires forall x | x in s.owners && x != id :: (before == Some(x) <==> owing == Some(x))
    requires OwnerOk((s.owners - gone)[id := o], id, owing)
    ensures InvWith(Put(s, id, o).(live := s.live - Weight(s.owners[id]) + Weight(o)), gone, owing)
  {
    var t := Put(s, id, o).(live := s.live - Weight(s.owners[id]) + Weight(o));
    TotalPut(s.owners, id, o);
    assert t.owners - gone == (s.owners - gone)[id := o];
    ShapePut(s.owners - gone, id, o, before, owing);
  }

  // ----- dropping references

  lemma DatabaseUnrefKeeps(s: State, gone: set<Id>, d: Id)
    requires InvWith(s, gone, Some(d)) && Is(s, d, Database) && d !in gone
    ensures InvWith(DatabaseUnref(s, d), gone, None)
    ensures forall z | z in gone :: z in DatabaseUnref(s, d).owners
  {
    var m := s.owners - gone;
    assert OwnerOk(m, d, Some(d));
    var o := s.owners[d].(refs := s.owners[d].refs - 1);
    var n := Put(s, d, o);
    if o.refs > 0 {
      DependentsPut(m, d, o, d);
      assert Dependents(m[d := o], d) == Dependents(m, d);
      PutKeeps(s, gone, d, o, Some(d), None);
    } else {
      LastDatabaseHolder(s, gone, d);
    }
  }

  /** A shell that owed its last count leaves the shape of the others intact. */
  lemma OthersStand(m: map<Id, Owner>, p: Id)
    requires Shape(m, Some(p)) && p in m
    ensures forall x {:trigger OwnerOk(m, x, None)} | x in m && x != p :: OwnerOk(m, x, None)
  {
    forall x | x in m && x != p ensures OwnerOk(m, x, None) {
      assert OwnerOk(m, x, Some(p));
    }
  }

  /** A database nobody holds any more is cleared and leaves the graph. */
  lemma DatabaseLeaves(s: State, gone: set<Id>, d: Id) returns (t: State)
    requires InvWith(s, gone, Some(d)) && Is(s, d, Database) && d !in gone && s.owners[d].refs == 1
    ensures t == Empty(Put(s, d, s.owners[d].(refs := 0)), d) && d in t.owners
    ensures InvWith(t, gone + {d}, None)
  {
    var m := s.owners - gone;
    assert OwnerOk(m, d, Some(d));
    assert |Dependents(m, d)| == 0 && Dependents(m, d) == {};
    var o := s.owners[d].(refs := 0, open := false, held := 0);
    t := Empty(Put(s, d, s.owners[d].(refs := 0)), d);
    assert t.owners == s.owners[d := o];
    TotalPut(s.owners, d, o);
    OthersStand(m, d);
    LeaveGraph(m, d);
    assert t.owners - (gone + {d}) == m - {d};
    EmptyLog(s, gone, d, o);
    assert t.log == s.log + DestroyEvents(d, s.owners[d]);
  }

  lemma LastDatabaseHolder(s: State, gone: set<Id>, d: Id)
    requires InvWith(s, gone, Some(d)) && Is(s, d, Database) && d !in gone && s.owners[d].refs == 1
    ensures InvWith(DatabaseUnref(s, d), gone, None)
    ensures forall z | z in gone :: z in DatabaseUnref(s, d).owners
  {
    var t := DatabaseLeaves(s, gone, d);
    FreeGone(t, gone + {d}, d);
    assert gone + {d} - {d} == gone;
    assert DatabaseUnref(s, d) == Free(t, d);
  }

  lemma ConnectionDeleteKeeps(s: State, gone: set<Id>, c: Id)
    requires InvWith(s, gone, Some(c)) && Is(s, c, Connection) && c !in gone
    ensures InvWith(ConnectionDelete(s, c), gone, None)
    ensures forall z | z in gone :: z in ConnectionDelete(s, c).owners
  {
    var m := s.owners - gone;
    assert OwnerOk(m, c, Some(c));
    var o := s.owners[c].(refs := s.owners[c].refs - 1);
    if o.refs > 0 {
      DependentsPut(m, c, o, c);
      assert Dependents(m[c := o], c) == Dependents(m, c);
      PutKeeps(s, gone, c, o, Some(c), None);
    } else {
      LastConnectionHolder(s, gone, c);
    }
  }

  /** A connection nobody holds any more is cleared and leaves the graph, owing its database one drop. */
  lemma ConnectionLeaves(s: State, gone: set<Id>, c: Id) returns (t: State)
    requires InvWith(s, gone, Some(c)) && Is(s, c, Connection) && c !in gone && s.owners[c].refs == 1
    ensures s.owners[c].active == None && t == Empty(Put(s, c, s.owners[c].(refs := 0)), c)
    ensures InvWith(t, gone + {c}, Some(s.owners[c].parent))
    ensures Is(t, s.owners[c].parent, Database) && s.owners[c].parent !in gone + {c}
  {
    var m := s.owners - gone;
    assert OwnerOk(m, c, Some(c));
    assert |Dependents(m, c)| == 0 && Dependents(m, c) == {};
    var d := s.owners[c].parent;
    assert OwnerOk(m, d, Some(c));
    assert c in Dependents(m, d);
    var o := s.owners[c].(refs := 0, open := false, held := 0);
    t := Empty(Put(s, c, s.owners[c].(refs := 0)), c);
    assert t.owners == s.owners[c := o];
    TotalPut(s.owners, c, o);
    OthersStand(m, c);
    LeaveGraph(m, c);
    assert t.owners - (gone + {c}) == m - {c};
    EmptyLog(s, gone, c, o);
    assert t.log == s.log + DestroyEvents(c, s.owners[c]);
  }

  lemma LastConnectionHolder(s: State, gone: set<Id>, c: Id)
    requires InvWith(s, gone, Some(c)) && Is(s, c, Connection) && c !in gone && s.owners[c].refs == 1
    ensures InvWith(ConnectionDelete(s, c), gone, None)
    ensures forall z | z in gone :: z in ConnectionDelete(s, c).owners
  {
    var t := ConnectionLeaves(s, gone, c);
    var d := s.owners[c].parent;
    assert c !in gone;
    DatabaseUnrefKeeps(t, gone + {c}, d);
    FreeGone(DatabaseUnref(t, d), gone + {c}, c);
    assert gone + {c} - {c} == gone;
    assert ConnectionDelete(s, c) == Free(DatabaseUnref(t, d), c);
  }

  // ----- the steps

  lemma NewKeeps(s: State, id: Id, o: Owner, gone: set<Id>)
    requires InvWith(s, gone, None) && id !in s.used && o.held == 0 && !o.closed && gone == {}
    requires o == Shell(o.kind, o.refs, o.parent) && (Counted(o) ==> o.refs == 1) && !Parented(o)
    ensures Inv(NewOwner(s, id, o))
  {
    var t := NewOwner(s, id, o);
    TotalPut(s.owners, id, o);
    var m := s.owners;
    assert s.owners - gone == m && t.owners - {} == t.owners;
    forall x | x in t.owners ensures OwnerOk(t.owners, x, None) {
      DependentsPut(m, id, o, x);
      assert id !in Dependents(m, x);
      if x != id {
        assert OwnerOk(m, x, None);
      } else {
        forall y | y in m ensures y !in Dependents(m, id) {
          assert OwnerOk(m, y, None);
        }
        assert Dependents(t.owners, id) == {};
      }
    }
  }

  /** The graph with a new dependent and the reference it takes on its parent. */
  lemma AdoptShape(m: map<Id, Owner>, id: Id, o: Owner, x: Id)
    requires Shape(m, None) && id !in m && Parented(o)
    requires o == Shell(o.kind, if o.kind == Connection then 1 else 0, o.parent)
    requires o.parent in m && m[o.parent].kind == (if o.kind == Connection then Database else Connection)
    requires m[o.parent].slot && !m[o.parent].closed
    ensures var n := m[o.parent := m[o.parent].(refs := m[o.parent].refs + 1)][id := o];
            x in n ==> OwnerOk(n, x, None)
  {
    var p := o.parent;
    var raised := m[p].(refs := m[p].refs + 1);
    var n := m[p := raised][id := o];
    AdoptDependents(m, id, o, raised, x);
    if x == p {
      AdoptParent(m, id, o, raised);
    } else if x in m {
      assert OwnerOk(m, x, None);
      assert n[x] == m[x];
    }
  }

  lemma AdoptParent(m: map<Id, Owner>, id: Id, o: Owner, raised: Owner)
    requires o.parent in m && id !in m && OwnerOk(m, o.parent, None) && Counted(m[o.parent]) && !m[o.parent].closed
    requires raised == m[o.parent].(refs := m[o.parent].refs + 1)
    requires id !in Dependents(m, o.parent) && o.kind != Request && o.owner == None
    requires Dependents(m[o.parent := raised][id := o], o.parent) == Dependents(m, o.parent) + {id}
    requires m[o.parent].active == None || m[o.parent].active.value in m
    ensures OwnerOk(m[o.parent := raised][id := o], o.parent, None)
  {
    var n := m[o.parent := raised][id := o];
    assert n[o.parent] == raised;
    assert |Dependents(n, o.parent)| == |Dependents(m, o.parent)| + 1;
    if raised.parent in m {
      assert n[raised.parent].kind == m[raised.parent].kind;
    }
  }

  lemma AdoptDependents(m: map<Id, Owner>, id: Id, o: Owner, raised: Owner, x: Id)
    requires Shape(m, None) && id !in m && Parented(o) && o.parent in m
    requires SameLinks(raised, m[o.parent])
    ensures id !in Dependents(m, x)
    ensures Dependents(m[o.parent := raised][id := o], x) == Dependents(m, x) + if x == o.parent then {id} else {}
    ensures Dependents(m, id) == {}
  {
    DependentsPut(m, o.parent, raised, x);
    DependentsPut(m[o.parent := raised], id, o, x);
    assert Dependents(m[o.parent := raised], x) == Dependents(m, x);
    forall y | y in m ensures y !in Dependents(m, id) {
      assert OwnerOk(m, y, None);
    }
  }

  /** A change of plain fields or links that leaves the log alone. */
  lemma LogSame(s: State, t: State)
    requires LogOk(s, {}) && t.log == s.log && s.used <= t.used && t.owners.Keys <= t.used
    requires forall id | id in t.used :: id in t.owners || (id in s.used && id !in s.owners)
    requires forall id | id in t.owners ::
        if id in s.owners then s.owners[id].closed ==> t.owners[id].closed else id !in s.used
    ensures LogOk(t, {})
  {
  }

  lemma NewDependentKeeps(s: State, id: Id, o: Owner)
    requires Inv(s) && id !in s.used && Parented(o)
        && o == Shell(o.kind, if o.kind == Connection then 1 else 0, o.parent)
    requires Usable(s, o.parent, if o.kind == Connection then Database else Connection)
    ensures Inv(NewOwner(AddReference(s, o.parent), id, o))
  {
    var p, m := o.parent, s.owners;
    assert s.owners - {} == m;
    var raised := m[p].(refs := m[p].refs + 1);
    var t := NewOwner(AddReference(s, p), id, o);
    assert t.owners == m[p := raised][id := o] && t.owners - {} == t.owners;
    AdoptTotal(m, id, o, raised);
    AdoptAll(m, id, o);
    LogSame(s, t);
  }

  lemma AdoptTotal(m: map<Id, Owner>, id: Id, o: Owner, raised: Owner)
    requires o.parent in m && id !in m && o.held == 0 && raised == m[o.parent].(refs := raised.refs)
    ensures Total(m[o.parent := raised][id := o]) == Total(m) + 1
  {
    TotalPut(m, o.parent, raised);
    TotalPut(m[o.parent := raised], id, o);
  }

  lemma AdoptAll(m: map<Id, Owner>, id: Id, o: Owner)
    requires Shape(m, None) && id !in m && Parented(o)
    requires o == Shell(o.kind, if o.kind == Connection then 1 else 0, o.parent)
    requires o.parent in m && m[o.parent].kind == (if o.kind == Connection then Database else Connection)
    requires m[o.parent].slot && !m[o.parent].closed
    ensures Shape(m[o.parent := m[o.parent].(refs := m[o.parent].refs + 1)][id := o], None)
  {
    var n := m[o.parent := m[o.parent].(refs := m[o.parent].refs + 1)][id := o];
    forall x | x in n ensures OwnerOk(n, x, None) {
      AdoptShape(m, id, o, x);
    }
  }

  lemma AcquireShape(m: map<Id, Owner>, id: Id, o: Owner)
    requires id in m && OwnerOk(m, id, None) && !m[id].closed && m[id].kind != Request
    requires o == m[id].(open := o.open, held := o.held)
    ensures OwnerOk(m[id := o], id, None)
  {
    DependentsPut(m, id, o, id);
    assert Dependents(m[id := o], id) == Dependents(m, id);
  }

  lemma AcquireKeeps(s: State, id: Id, count: nat)
    requires Inv(s) && Enabled(s, Acquire(id, count))
    ensures Inv(Next(s, Acquire(id, count)))
  {
    var o := s.owners[id].(open := true, held := s.owners[id].held + count);
    assert s.owners - {} == s.owners;
    AcquireShape(s.owners, id, o);
    PutKeeps(s, {}, id, o, None, None);
  }

  /** Binding a request to a connection, or releasing it; owing says whose drop is still due. */
  lemma BindShape(m: map<Id, Owner>, r: Id, c: Id, k: Owner, q: Owner, owing: Option<Id>, x: Id)
    requires Shape(m, None) && r in m && c in m && m[r].kind == Request && m[c].kind == Connection && r != c
    requires SameLinks(k.(active := m[c].active), m[c]) && k.slot == m[c].slot && k.closed == m[c].closed
        && k.open == m[c].open
    requires q == m[r].(state := q.state, owner := q.owner)
    requires || (m[c].active == None && !m[c].closed && m[r].owner == None && k.active == Some(r) && q.owner == Some(c)
                 && q.state == Installed && k.refs == m[c].refs + 1 && owing == None)
             || (m[c].active == Some(r) && m[r].owner == Some(c) && k.active == None && q.owner == None
                 && q.state == Detached && k.refs == m[c].refs && owing == Some(c))
    ensures var n := m[c := k][r := q]; x in n ==> OwnerOk(n, x, owing)
  {
    var n := m[c := k][r := q];
    if x in n {
      assert OwnerOk(m, x, None);
      BindDependents(m, r, c, k, q, x);
      if x == c {
        assert n[c] == k;
      } else if x == r {
        assert n[r] == q;
      } else {
        assert n[x] == m[x];
      }
    }
  }

  lemma BindDependents(m: map<Id, Owner>, r: Id, c: Id, k: Owner, q: Owner, x: Id)
    requires r in m && c in m && r != c
    requires k.kind == m[c].kind && k.parent == m[c].parent && q.kind == m[r].kind && q.parent == m[r].parent
    ensures Dependents(m[c := k][r := q], x) == Dependents(m, x)
  {
    DependentsPut(m, c, k, x);
    DependentsPut(m[c := k], r, q, x);
  }

  lemma InstallKeeps(s: State, r: Id, c: Id)
    requires Inv(s) && Enabled(s, Install(r, c))
    ensures Inv(Next(s, Install(r, c)))
  {
    var m := s.owners;
    assert s.owners - {} == m && OwnerOk(m, r, None);
    var q, k := m[r], m[c];
    if q.state == Fresh && !k.closed && k.open && k.active == None {
      InstallBinds(s, r, c, k.(refs := k.refs + 1, active := Some(r)), q.(state := Installed, owner := Some(c)));
    }
  }

  lemma InstallBinds(s: State, r: Id, c: Id, k: Owner, q: Owner)
    requires Inv(s) && Is(s, r, Request) && Is(s, c, Connection) && s.owners[r].state == Fresh
        && s.owners[r].owner == None
    requires !s.owners[c].closed && s.owners[c].active == None
    requires k == s.owners[c].(refs := s.owners[c].refs + 1, active := Some(r))
    requires q == s.owners[r].(state := Installed, owner := Some(c))
    ensures Inv(Put(Put(s, c, k), r, q))
  {
    var m: map<Id, Owner> := s.owners;
    var t := Put(Put(s, c, k), r, q);
    assert s.owners - {} == m && t.owners == m[c := k][r := q] && t.owners - {} == t.owners;
    TotalPut(m, c, k);
    TotalPut(m[c := k], r, q);
    forall x | x in t.owners ensures OwnerOk(t.owners, x, None) {
      BindShape(m, r, c, k, q, None, x);
    }
    LogSame(s, t);
  }

  lemma ReleaseBinding(s: State, r: Id, c: Id) returns (t: State)
    requires Inv(s) && Is(s, r, Request) && s.owners[r].state == Installed && s.owners[r].owner == Some(c)
    ensures Is(s, c, Connection) && s.owners[c].active == Some(r) && r != c
    ensures t == Put(Put(s, c, s.owners[c].(active := None)), r, s.owners[r].(state := Detached, owner := None))
    ensures InvWith(t, {}, Some(c)) && Is(t, c, Connection)
  {
    var m := s.owners;
    assert s.owners - {} == m && OwnerOk(m, r, None);
    var k := m[c].(active := None);
    var q := m[r].(state := Detached, owner := None);
    t := Put(Put(s, c, k), r, q);
    assert t.owners == m[c := k][r := q] && t.owners - {} == t.owners;
    TotalPut(m, c, k);
    TotalPut(m[c := k], r, q);
    forall x | x in t.owners ensures OwnerOk(t.owners, x, Some(c)) {
      BindShape(m, r, c, k, q, Some(c), x);
    }
    LogSame(s, t);
  }

  lemma UninstallKeeps(s: State, r: Id)
    requires Inv(s) && Is(s, r, Request)
    ensures Inv(DoUninstall(s, r))
    ensures Is(DoUninstall(s, r), r, Request) && DoUninstall(s, r).owners[r].owner == None
    ensures DoUninstall(s, r).owners[r].held == s.owners[r].held
  {
    assert s.owners - {} == s.owners && OwnerOk(s.owners, r, None);
    if s.owners[r].state == Installed {
      var c := s.owners[r].owner.value;
      var t := ReleaseBinding(s, r, c);
      ConnectionDeleteKeeps(t, {}, c);
      DeleteSparesRequests(t, c, r);
    }
  }

  lemma DeleteSparesRequests(s: State, c: Id, r: Id)
    requires Is(s, r, Request) && Is(s, c, Connection)
    ensures Is(ConnectionDelete(s, c), r, Request) && ConnectionDelete(s, c).owners[r] == s.owners[r]
  {
  }

  lemma DisposeKeeps(s: State, r: Id)
    requires Inv(s) && Is(s, r, Request) && s.owners[r].owner == None && s.owners[r].held == 0
    ensures Inv(Free(s, r))
  {
    var m := s.owners;
    assert s.owners - {} == m;
    LeaveRequest(m, r);
    assert InvWith(s, {r}, None);
    FreeGone(s, {r}, r);
    assert {r} - {r} == {};
  }

  lemma ChildLeaves(s: State, id: Id) returns (t: State)
    requires Inv(s) && Is(s, id, Child)
    ensures t == Empty(s, id) && id in t.owners
    ensures InvWith(t, {id}, Some(s.owners[id].parent))
    ensures Is(t, s.owners[id].parent, Connection) && s.owners[id].parent != id
  {
    var m := s.owners;
    assert s.owners - {} == m && OwnerOk(m, id, None);
    var o := m[id].(open := false, held := 0);
    t := Empty(s, id);
    assert t.owners == m[id := o];
    TotalPut(m, id, o);
    forall x | x in m ensures x !in Dependents(m, id) {
      assert OwnerOk(m, x, None);
    }
    assert OwnerOk(m, m[id].parent, None) && id in Dependents(m, m[id].parent);
    LeaveGraph(m, id);
    assert t.owners - {id} == m - {id};
    EmptyLog(s, {}, id, o);
    assert {} + {id} == {id};
    assert t.log == s.log + DestroyEvents(id, m[id]);
  }

  lemma FinishChildKeeps(s: State, id: Id)
    requires Inv(s) && Is(s, id, Child)
    ensures Inv(Free(ConnectionDelete(Empty(s, id), s.owners[id].parent), id))
  {
    var t := ChildLeaves(s, id);
    var c := s.owners[id].parent;
    ConnectionDeleteKeeps(t, {id}, c);
    FreeGone(ConnectionDelete(t, c), {id}, id);
    assert {id} - {id} == {};
  }

  /** A slot stops pointing at a counted shell; the reference it held is now owed. */
  lemma SlotCleared(s: State, id: Id) returns (t: State)
    requires Inv(s) && id in s.owners && Counted(s.owners[id]) && s.owners[id].slot
    ensures t == Put(s, id, s.owners[id].(slot := false)) && InvWith(t, {}, Some(id)) && Is(t, id, s.owners[id].kind)
  {
    var o := s.owners[id].(slot := false);
    t := Put(s, id, o);
    assert s.owners - {} == s.owners && OwnerOk(s.owners, id, None);
    SlotShape(s.owners, id, o);
    PutKeeps(s, {}, id, o, None, Some(id));
  }

  lemma SlotShape(m: map<Id, Owner>, id: Id, o: Owner)
    requires id in m && OwnerOk(m, id, None) && Counted(m[id]) && m[id].slot && o == m[id].(slot := false)
    ensures OwnerOk(m[id := o], id, Some(id))
  {
    DependentsPut(m, id, o, id);
    assert Dependents(m[id := o], id) == Dependents(m, id);
  }

  lemma FinalizeKeeps(s: State, r: Id, granted: bool)
    requires Inv(s) && Is(s, r, Request) && (s.owners[r].state == Installed ==> granted)
    ensures Inv(DoFinalize(s, r, granted))
  {
    assert s.owners - {} == s.owners && OwnerOk(s.owners, r, None);
    UninstallKeeps(s, r);
    DisposeKeeps(DoUninstall(s, r), r);
  }

  lemma FinishKeeps(s: State, id: Id)
    requires Inv(s) && !Is(s, id, Request)
    ensures Inv(DoFinish(s, id))
  {
    if id in s.owners && s.owners[id].slot {
      match s.owners[id].kind
      case Database =>
        var t := SlotCleared(s, id);
        DatabaseUnrefKeeps(t, {}, id);
      case Connection =>
        var t := SlotCleared(s, id);
        ConnectionDeleteKeeps(t, {}, id);
      case Child => FinishChildKeeps(s, id);
    }
  }

  lemma CloseKeeps(s: State, id: Id, closing: bool)
    requires Inv(s) && id in s.owners && s.owners[id].kind != Request
    requires closing <==> Counted(s.owners[id])
    requires closing ==> Dependents(s.owners, id) == {} && s.owners[id].active == None
    ensures var n := Empty(s, id); Inv(Put(n, id, n.owners[id].(closed := closing)))
  {
    var m := s.owners;
    var o := m[id].(open := false, held := 0, closed := closing);
    var n := Empty(s, id);
    var t := Put(n, id, n.owners[id].(closed := closing));
    assert s.owners - {} == m && OwnerOk(m, id, None);
    assert t.owners == m[id := o] && t.owners - {} == t.owners;
    TotalPut(m, id, o);
    DependentsPut(m, id, o, id);
    assert Dependents(m[id := o], id) == Dependents(m, id);
    ShapePut(m, id, o, None, None);
    CloseLog(s, t, id, o);
  }

  lemma CloseLog(s: State, t: State, id: Id, o: Owner)
    requires Inv(s) && id in s.owners && o.closed == Counted(s.owners[id])
    requires t.owners == s.owners[id := o] && t.used == s.used && t.log == s.log + DestroyEvents(id, s.owners[id])
    ensures LogOk(t, {})
  {
    var m := s.owners;
    assert s.owners - {} == m && OwnerOk(m, id, None);
    if DestroyEvents(id, m[id]) == [] {
      assert t.log == s.log;
      LogSame(s, t);
    } else {
      var e := DestroyEvents(id, m[id])[0];
      assert t.log == s.log + [e];
      if Parented(m[id]) {
        var p := m[id].parent;
        assert OwnerOk(m, p, None) && id in Dependents(m, p);
      }
      LogAppend(s, t, {}, e);
    }
  }

  lemma EveryStepKeeps(s: State, step: Step)
    requires Inv(s) && Enabled(s, step)
    ensures Inv(Next(s, step))
  {
    match step
    case NewDatabase(id) => NewKeeps(s, id, Shell(Database, 1, 0), {});
    case NewConnection(id, d) => NewDependentKeeps(s, id, Shell(Connection, 1, d));
    case NewChild(id, c) => NewDependentKeeps(s, id, Shell(Child, 0, c));
    case NewRequest(id) => NewKeeps(s, id, Shell(Request, 0, 0), {});
    case Acquire(id, count) => AcquireKeeps(s, id, count);
    case Install(r, c) => InstallKeeps(s, r, c);
    case RaiseSelect(_, _) => LogSame(s, Next(s, step));
    case Uninstall(r, granted) =>
      if granted {
        UninstallKeeps(s, r);
      }
    case Finish(id) => FinishKeeps(s, id);
    case FinalizeRequest(r, granted) => FinalizeKeeps(s, r, granted);
    case Dispose(r) =>
      assert s.owners - {} == s.owners && OwnerOk(s.owners, r, None);
      if s.owners[r].state != Installed {
        DisposeKeeps(s, r);
      }
    case CloseChild(id) =>
      assert s.owners - {} == s.owners && OwnerOk(s.owners, id, None);
      CloseKeeps(s, id, false);
      var n := Empty(s, id);
      assert Put(n, id, n.owners[id].(closed := false)) == n by {
        assert n.owners[id := n.owners[id]] == n.owners;
      }
    case CloseConnection(id) => CloseKeeps(s, id, true);
    case CloseDatabase(id) =>
      assert s.owners - {} == s.owners && OwnerOk(s.owners, id, None);
      CloseKeeps(s, id, true);
  }

  lemma {:induction false} RunKeeps(s: State, steps: seq<Step>)
    requires Inv(s) && Legal(s, steps)
    ensures Inv(After(s, steps))
    decreases |steps|
  {
    if steps != [] {
      EveryStepKeeps(s, steps[0]);
      RunKeeps(Next(s, steps[0]), steps[1..]);
    }
  }

  lemma Reachable(steps: seq<Step>)
    requires Legal(EMPTY, steps)
    ensures Inv(After(EMPTY, steps))
  {
    assert Inv(EMPTY);
    RunKeeps(EMPTY, steps);
  }

  // ----- theorems

  /** In every reachable state a count is the number of live holders, and nothing freed was touched. */
  lemma ReferencesAreHolders(steps: seq<Step>, id: Id)
    requires Legal(EMPTY, steps) && id in After(EMPTY, steps).owners && Counted(After(EMPTY, steps).owners[id])
    ensures var s := After(EMPTY, steps);
            !s.bad && s.owners[id].refs == Holders(s.owners, id) && s.owners[id].refs > 0
  {
    Reachable(steps);
    var s := After(EMPTY, steps);
    assert s.owners - {} == s.owners && OwnerOk(s.owners, id, None);
  }

  /** Every shell ever created is either still in the graph or has been freed, exactly once. */
  lemma FreedExactlyOnce(steps: seq<Step>, id: Id)
    requires Legal(EMPTY, steps) && id in After(EMPTY, steps).used
    ensures var s := After(EMPTY, steps);
            && (id in s.owners <==> Freed(id) !in s.log)
            && (forall i, j | 0 <= i < j < |s.log| && s.log[i] == Freed(id) :: s.log[j] != Freed(id))
  {
    Reachable(steps);
  }

  /** The engine destroys children before their connection and connections before their database. */
  lemma DestroyOrder(steps: seq<Step>, i: nat, j: nat)
    requires Legal(EMPTY, steps) && i < j < |After(EMPTY, steps).log|
    ensures !Misordered(After(EMPTY, steps).log[i], After(EMPTY, steps).log[j])
  {
    Reachable(steps);
  }

  predicate NoneRaises(steps: seq<Step>) {
    forall i | 0 <= i < |steps| :: !steps[i].RaiseSelect?
  }

  lemma {:induction false} LeakedBySelections(s: State, steps: seq<Step>)
    requires Legal(s, steps)
    ensures After(s, steps).leaked >= s.leaked
    ensures After(s, steps).leaked == s.leaked <==> NoneRaises(steps)
    decreases |steps|
  {
    if steps != [] {
      StepLeak(s, steps[0]);
      LeakedBySelections(Next(s, steps[0]), steps[1..]);
      assert forall i | 0 < i < |steps| :: steps[i] == steps[1..][i - 1];
    }
  }

  lemma DeleteLeaksNothing(s: State, c: Id)
    ensures ConnectionDelete(s, c).leaked == s.leaked
  {
  }

  lemma UninstallLeaksNothing(s: State, r: Id)
    requires Is(s, r, Request)
    ensures DoUninstall(s, r).leaked == s.leaked
  {
    var q := s.owners[r];
    if q.state == Installed && q.owner.Some? && Is(s, q.owner.value, Connection) {
      var c := q.owner.value;
      var detached := Put(s, c, s.owners[c].(active := None));
      DeleteLeaksNothing(Put(detached, r, q.(state := Detached, owner := None)), c);
    }
  }

  lemma FinishLeaksNothing(s: State, id: Id)
    requires !Is(s, id, Request)
    ensures DoFinish(s, id).leaked == s.leaked
  {
    if id in s.owners && s.owners[id].slot {
      DeleteLeaksNothing(Put(s, id, s.owners[id].(slot := false)), id);
      DeleteLeaksNothing(Empty(s, id), s.owners[id].parent);
    }
  }

  lemma StepLeak(s: State, step: Step)
    requires Enabled(s, step)
    ensures Next(s, step).leaked == s.leaked + if step.RaiseSelect? then 3 + step.copies else 0
  {
    match step
    case Uninstall(r, _) => UninstallLeaksNothing(s, r);
    case FinalizeRequest(r, _) => UninstallLeaksNothing(s, r);
    case Finish(id) => FinishLeaksNothing(s, id);
    case _ =>
  }

  /** The live counter is the number of shells, plus what they hold, plus what raising selections leaked. It
      returns to 0 with the last owner exactly when no selection raised, and never while an owner is left. */
  lemma LiveIsConserved(steps: seq<Step>)
    requires Legal(EMPTY, steps)
    ensures var s := After(EMPTY, steps);
            && s.live == Total(s.owners) + s.leaked
            && (s.leaked == 0 <==> NoneRaises(steps))
            && (s.live == 0 <==> s.owners == map[] && s.leaked == 0)
  {
    EmptyOk();
    LiveFrom(EMPTY, steps);
  }

  lemma LiveFrom(from: State, steps: seq<Step>)
    requires Inv(from) && from.leaked == 0 && Legal(from, steps)
    ensures var s := After(from, steps);
            && s.live == Total(s.owners) + s.leaked
            && (s.leaked == 0 <==> NoneRaises(steps))
            && (s.live == 0 <==> s.owners == map[] && s.leaked == 0)
  {
    RunCounts(from, steps);
    LeakedBySelections(from, steps);
    TotalZero(After(from, steps).owners);
  }

  ghost predicate Counts(s: State) {
    s.live == Total(s.owners) + s.leaked
  }

  lemma InvCounts(s: State)
    requires Inv(s)
    ensures Counts(s)
  {
  }

  lemma RunCounts(s: State, steps: seq<Step>)
    requires Inv(s) && Legal(s, steps)
    ensures Counts(After(s, steps))
  {
    RunKeeps(s, steps);
    InvCounts(After(s, steps));
  }

  lemma EmptyOk()
    ensures Inv(EMPTY)
  {
  }

  lemma TotalZero(owners: map<Id, Owner>)
    ensures Total(owners) == 0 <==> owners == map[]
  {
    if owners != map[] {
      var id :| id in owners;
      TotalRemove(owners, id);
    }
  }

  /** Without the environment's assumption, a request's finalizer reaches its fatal error exactly when the
      request is installed and its uninstall is not granted. */
  lemma FinalizerBadIff(steps: seq<Step>, r: Id, granted: bool)
    requires Legal(EMPTY, steps) && Is(After(EMPTY, steps), r, Request)
    ensures var s := After(EMPTY, steps); DoFinalize(s, r, granted).bad <==> s.owners[r].state == Installed && !granted
  {
    Reachable(steps);
    var s := After(EMPTY, steps);
    if s.owners[r].state != Installed || granted {
      FinalizeKeeps(s, r, granted);
    }
  }

  // ----- nothing stays behind

  predicate Unheld(s: State) {
    forall id | id in s.owners :: Counted(s.owners[id]) && !s.owners[id].slot
  }

  /** Once every child and request has been finished and every slot cleared, in whatever order, the
      graph is empty: no shell is kept alive by another. */
  lemma AllFinishedMeansEmpty(steps: seq<Step>)
    requires Legal(EMPTY, steps) && Unheld(After(EMPTY, steps))
    ensures After(EMPTY, steps).owners == map[] && After(EMPTY, steps).live == After(EMPTY, steps).leaked
  {
    EmptyOk();
    FinishedFrom(EMPTY, steps);
  }

  lemma FinishedFrom(from: State, steps: seq<Step>)
    requires Inv(from) && Legal(from, steps) && Unheld(After(from, steps))
    ensures After(from, steps).owners == map[] && After(from, steps).live == After(from, steps).leaked
  {
    RunKeeps(from, steps);
    RunCounts(from, steps);
    NobodyHolds(After(from, steps));
    TotalZero(After(from, steps).owners);
  }

  lemma NobodyHolds(s: State)
    requires Inv(s) && Unheld(s)
    ensures s.owners == map[]
  {
    assert s.owners - {} == s.owners;
    forall id | id in s.owners ensures s.owners[id].kind == Database {
      assert OwnerOk(s.owners, id, None);
      if s.owners[id].kind == Connection {
        var x := Holder(s, id);
        assert OwnerOk(s.owners, x, None);
      }
    }
    forall id | id in s.owners ensures false {
      assert OwnerOk(s.owners, id, None);
      var x := Holder(s, id);
      assert false;
    }
  }

  /** A counted shell whose slot is clear is held by some other shell. */
  lemma Holder(s: State, id: Id) returns (x: Id)
    requires Inv(s) && id in s.owners && Counted(s.owners[id]) && !s.owners[id].slot
    ensures x in s.owners
    ensures s.owners[id].active == Some(x) || x in Dependents(s.owners, id)
  {
    assert s.owners - {} == s.owners && OwnerOk(s.owners, id, None);
    if s.owners[id].active.Some? {
      x := s.owners[id].active.value;
    } else {
      assert |Dependents(s.owners, id)| > 0;
      x :| x in Dependents(s.owners, id);
    }
  }
}
