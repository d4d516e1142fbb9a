/** The ownership graph: databases, connections, children and requests, released in any order.

    Shells live in a map so that freeing one is observable: a step that touches a shell outside the map
    is a use after free and sets `bad`, as does a count that would drop below zero or a close that would
    reach its fatal check. Finish, finalizer and uninstall calls run with the runtime held, so each is
    one step. `live` is the process counter: one for each shell plus what its fields hold. */
module Ownership {
  import opened Native

  type Id = nat

  datatype Kind = Database | Connection | Child | Request

  /** One C shell. refs counts for databases and connections only; state and owner belong to requests.
      slot: the OCaml slot still points here. closed: explicitly closed. open: the engine object exists.
      held: counted resources in the owner's fields. */
  datatype Owner = Owner(
    kind: Kind,
    refs: int,
    slot: bool,
    closed: bool,
    open: bool,
    held: nat, parent: Id,
    active: Option<Id>,
    state: RequestState,
    owner: Option<Id>)

  function Shell(kind: Kind, refs: int, parent: Id): Owner {
    Owner(kind, refs, true, false, false, 0, parent, None, Fresh, None)
  }

  datatype Event =
    | Freed(id: Id)
    | ChildDestroyed(id: Id, parent: Id)
    | Disconnected(id: Id, parent: Id)
    | DatabaseClosed(id: Id)

  /** leaked: resources still counted that no shell holds any more. */
  datatype State = State(owners: map<Id, Owner>, used: set<Id>, live: int, leaked: nat, log: seq<Event>, bad: bool)

  const EMPTY := State(map[], {}, 0, 0, [], false)

  datatype Step =
    | NewDatabase(id: Id) | NewConnection(id: Id, database: Id) | NewChild(id: Id, connection: Id) | NewRequest(id: Id)
    | Acquire(id: Id, count: nat)             // open, connect, prepare, create: the fields come to hold resources
    | RaiseSelect(id: Id, copies: nat)        // select_columns runs out of memory after copying this many names
    | Install(request: Id, connection: Id)
    | Uninstall(request: Id, granted: bool)   // granted: the attempt is answered REQUEST_UNINSTALLED
    | Finish(id: Id)                          // finish_*_close or the finalizer of the slot, in any order
    | FinalizeRequest(request: Id, granted: bool)
    | Dispose(request: Id)
    | CloseChild(id: Id) | CloseConnection(id: Id) | CloseDatabase(id: Id) // explicit closes, shells kept

  predicate Parented(o: Owner) { o.kind == Connection || o.kind == Child }

  /** The shells that hold a counted reference on p through their parent field. */
  function Dependents(owners: map<Id, Owner>, p: Id): set<Id> {
    set id | id in owners && Parented(owners[id]) && owners[id].parent == p
  }

  // ----- the environment

  predicate Is(s: State, id: Id, kind: Kind) {
    id in s.owners && s.owners[id].kind == kind
  }

  predicate Usable(s: State, id: Id, kind: Kind) {
    Is(s, id, kind) && s.owners[id].slot && !s.owners[id].closed
  }

  /** A new owner is made from a usable parent. An engine object is made under an open parent and lives
      on an owner that was not closed. A parent is closed explicitly only once its children are finished
      and its request detached. An installed request is finalized only where its uninstall is granted. */
  predicate Enabled(s: State, step: Step) {
    match step
    case NewDatabase(id) => id !in s.used
    case NewConnection(id, d) => id !in s.used && Usable(s, d, Database)
    case NewChild(id, c) => id !in s.used && Usable(s, c, Connection)
    case NewRequest(id) => id !in s.used
    case Acquire(id, _) => id in s.owners && !Is(s, id, Request) && !s.owners[id].closed
    case Install(r, c) => Is(s, r, Request) && Is(s, c, Connection) && s.owners[c].slot
    case RaiseSelect(id, _) => Is(s, id, Child)
    case Uninstall(r, _) => Is(s, r, Request)
    case Finish(id) => !Is(s, id, Request)
    case FinalizeRequest(r, granted) => Is(s, r, Request) && (s.owners[r].state == Installed ==> granted)
    case Dispose(r) => Is(s, r, Request)
    case CloseChild(id) => Is(s, id, Child)
    case CloseConnection(id) =>
      Is(s, id, Connection) && s.owners[id].slot && Dependents(s.owners, id) == {} && s.owners[id].active == None
    case CloseDatabase(id) => Is(s, id, Database) && s.owners[id].slot && Dependents(s.owners, id) == {}
  }

  // ----- the code

  function Put(s: State, id: Id, o: Owner): State {
    s.(owners := s.owners[id := o])
  }

  /** free(owner); released(). */
  function Free(s: State, id: Id): State {
    s.(owners := s.owners - {id}, live := s.live - 1, log := s.log + [Freed(id)])
  }

  function DestroyEvents(id: Id, o: Owner): seq<Event> {
    if !o.open then []
    else match o.kind
      case Database => [DatabaseClosed(id)]
      case Connection => [Disconnected(id, o.parent)]
      case Child => [ChildDestroyed(id, o.parent)]
      case Request => []
  }

  /** Every field the clear functions destroy, one released() each. */
  function Empty(s: State, id: Id): State
    requires id in s.owners
  {
    var o := s.owners[id];
    Put(s, id, o.(open := false, held := 0)).(live := s.live - o.held, log := s.log + DestroyEvents(id, o))
  }

  /** database_unref */
  function DatabaseUnref(s: State, d: Id): State {
    if !Is(s, d, Database) || s.owners[d].refs <= 0 then s.(bad := true)
    else
      var n := Put(s, d, s.owners[d].(refs := s.owners[d].refs - 1));
      if n.owners[d].refs > 0 then n else Free(Empty(n, d), d)
  }

  /** connection_delete: clear, drop the parent, free the shell. */
  function ConnectionDelete(s: State, c: Id): State {
    if !Is(s, c, Connection) || s.owners[c].refs <= 0 then s.(bad := true)
    else
      var n := Put(s, c, s.owners[c].(refs := s.owners[c].refs - 1));
      if n.owners[c].refs > 0 then n
      else if n.owners[c].active.Some? then s.(bad := true) // native_close_begin's fatal check
      else Free(DatabaseUnref(Empty(n, c), s.owners[c].parent), c)
  }

  function DoUninstall(s: State, r: Id): State
    requires Is(s, r, Request)
  {
    var q := s.owners[r];
    if q.state != Installed then s
    else if q.owner == None || !Is(s, q.owner.value, Connection) || s.owners[q.owner.value].active != Some(r)
        then s.(bad := true)
    else
      var c := q.owner.value;
      var detached := Put(s, c, s.owners[c].(active := None));
      ConnectionDelete(Put(detached, r, q.(state := Detached, owner := None)), c)
  }

  /** finalize_native_request: any other answer than REQUEST_UNINSTALLED to its one attempt is fatal. */
  function DoFinalize(s: State, r: Id, granted: bool): State
    requires Is(s, r, Request)
  {
    if s.owners[r].state == Installed && !granted then s.(bad := true) else Free(DoUninstall(s, r), r)
  }

  /** finish_*_close and the finalizers clear the slot and drop what it owned; an empty slot is a no-op. */
  function DoFinish(s: State, id: Id): State
    requires !Is(s, id, Request)
  {
    if id !in s.owners || !s.owners[id].slot then s
    else match s.owners[id].kind
      case Database => DatabaseUnref(Put(s, id, s.owners[id].(slot := false)), id)
      case Connection => ConnectionDelete(Put(s, id, s.owners[id].(slot := false)), id)
      // the child's shell is freed after its parent reference is dropped
      case Child => Free(ConnectionDelete(Empty(s, id), s.owners[id].parent), id)
  }

  function NewOwner(s: State, id: Id, o: Owner): State {
    Put(s, id, o).(used := s.used + {id}, live := s.live + 1)
  }

  function AddReference(s: State, p: Id): State
    requires p in s.owners
  {
    Put(s, p, s.owners[p].(refs := s.owners[p].refs + 1))
  }

  function Next(s: State, step: Step): State
    requires Enabled(s, step)
  {
    match step
    case NewDatabase(id) => NewOwner(s, id, Shell(Database, 1, 0))
    case NewConnection(id, d) => NewOwner(AddReference(s, d), id, Shell(Connection, 1, d))
    case NewChild(id, c) => NewOwner(AddReference(s, c), id, Shell(Child, 0, c))
    case NewRequest(id) => NewOwner(s, id, Shell(Request, 0, 0))
    case Acquire(id, count) =>
      var o := s.owners[id];
      Put(s, id, o.(open := true, held := o.held + count)).(live := s.live + count)
    case Install(r, c) =>
      var q, k := s.owners[r], s.owners[c];
      if q.state != Fresh || k.closed || !k.open || k.active.Some? then s
      else Put(Put(s, c, k.(refs := k.refs + 1, active := Some(r))), r, q.(state := Installed, owner := Some(c)))
    case RaiseSelect(_, copies) => s.(live := s.live + 3 + copies, leaked := s.leaked + 3 + copies)
    case Uninstall(r, granted) => if granted then DoUninstall(s, r) else s
    case Finish(id) => DoFinish(s, id)
    case FinalizeRequest(r, granted) => DoFinalize(s, r, granted)
    case Dispose(r) => if s.owners[r].state == Installed then s else Free(s, r)
    case CloseChild(id) => Empty(s, id)
    case CloseConnection(id) =>
      var n := Empty(s, id);
      Put(n, id, n.owners[id].(closed := true))
    case CloseDatabase(id) =>
      var n := Empty(s, id);
      Put(n, id, n.owners[id].(closed := true))
  }

  ghost predicate Legal(s: State, steps: seq<Step>)
    decreases |steps|
  {
    steps == [] || (Enabled(s, steps[0]) && Legal(Next(s, steps[0]), steps[1..]))
  }

  ghost function After(s: State, steps: seq<Step>): State
    requires Legal(s, steps)
    decreases |steps|
  {
    if steps == [] then s else After(Next(s, steps[0]), steps[1..])
  }

  // ----- counting

  function Weight(o: Owner): nat { 1 + o.held }

  ghost function Total(owners: map<Id, Owner>): nat
    decreases |owners|
  {
    if owners == map[] then 0
    else
      var id :| id in owners;
      Weight(owners[id]) + Total(owners - {id})
  }

  lemma {:induction false} TotalRemove(owners: map<Id, Owner>, id: Id)
    requires id in owners
    ensures Total(owners) == Weight(owners[id]) + Total(owners - {id})
    decreases |owners|
  {
    var other :| other in owners && Total(owners) == Weight(owners[other]) + Total(owners - {other});
    if other != id {
      TotalRemove(owners - {other}, id);
      assert owners - {other} - {id} == owners - {id} - {other};
      TotalRemove(owners - {id}, other);
    }
  }

  lemma TotalPut(owners: map<Id, Owner>, id: Id, o: Owner)
    ensures Total(owners[id := o]) == Total(owners - {id}) + Weight(o)
    ensures id in owners ==> Total(owners[id := o]) == Total(owners) - Weight(owners[id]) + Weight(o)
    ensures id !in owners ==> Total(owners[id := o]) == Total(owners) + Weight(o)
  {
    TotalRemove(owners[id := o], id);
    assert owners[id := o] - {id} == owners - {id};
    if id in owners {
      TotalRemove(owners, id);
    } else {
      assert owners - {id} == owners;
    }
  }

  lemma DependentsPut(owners: map<Id, Owner>, id: Id, o: Owner, p: Id)
    ensures var before, after := Dependents(owners, p), Dependents(owners[id := o], p);
            after == if Parented(o) && o.parent == p then before + {id} else before - {id}
  {
  }

  lemma DependentsRemove(owners: map<Id, Owner>, id: Id, p: Id)
    ensures Dependents(owners - {id}, p) == Dependents(owners, p) - {id}
  {
  }
}
