/** The admin store of src/context/AdminContext.tsx: a reducer over three
    independent collections (catalogue, users, orders) and the provider that
    starts from the fixtures and dispatches to it. */
module AdminContext {
  import opened Types
  import Seqs
  import Laptops
  import AdminData

  datatype AdminState = AdminState(laptops: seq<Laptop>, users: seq<User>, orders: seq<Order>)

  datatype AdminAction =
    | AddLaptop(laptop: Laptop)
    | UpdateLaptop(laptop: Laptop)
    | DeleteLaptop(laptopId: string)
    | UpdateUserStatus(userId: string, userStatus: UserStatus)
    | DeleteUser(userId: string)
    | UpdateOrderStatus(orderId: string, orderStatus: OrderStatus)

  /** `laptops.map(l => l.id === laptop.id ? laptop : l)`. */
  function ReplaceLaptop(ls: seq<Laptop>, laptop: Laptop): (r: seq<Laptop>) {
    Seqs.Map((l: Laptop) => if l.id == laptop.id then laptop else l, ls)
  }

  /** `laptops.filter(l => l.id !== id)`. */
  function WithoutLaptop(ls: seq<Laptop>, id: string): (r: seq<Laptop>) {
    Seqs.Filter((l: Laptop) => l.id != id, ls)
  }

  /** `users.map(u => u.id === id ? { ...u, status } : u)`. */
  function SetUserStatus(us: seq<User>, id: string, status: UserStatus): (r: seq<User>) {
    Seqs.Map((u: User) => if u.id == id then u.(status := status) else u, us)
  }

  /** `users.filter(u => u.id !== id)`. */
  function WithoutUser(us: seq<User>, id: string): (r: seq<User>) {
    Seqs.Filter((u: User) => u.id != id, us)
  }

  /** `orders.map(o => o.id === id ? { ...o, status } : o)`. */
  function SetOrderStatus(os: seq<Order>, id: string, status: OrderStatus): (r: seq<Order>) {
    Seqs.Map((o: Order) => if o.id == id then o.(status := status) else o, os)
  }

  /** `adminReducer`. */
  function AdminReducer(state: AdminState, action: AdminAction): (r: AdminState) {
    match action
    case AddLaptop(laptop) => state.(laptops := state.laptops + [laptop])
    case UpdateLaptop(laptop) => state.(laptops := ReplaceLaptop(state.laptops, laptop))
    case DeleteLaptop(id) => state.(laptops := WithoutLaptop(state.laptops, id))
    case UpdateUserStatus(id, status) => state.(users := SetUserStatus(state.users, id, status))
    case DeleteUser(id) => state.(users := WithoutUser(state.users, id))
    case UpdateOrderStatus(id, status) => state.(orders := SetOrderStatus(state.orders, id, status))
  }

  /** The state the provider starts from: the three fixtures. */
  function InitialState(): (r: AdminState) {
    AdminState(Laptops.Seed, AdminData.Users, AdminData.Orders)
  }

  predicate IsCatalogAction(a: AdminAction) {
    a.AddLaptop? || a.UpdateLaptop? || a.DeleteLaptop?
  }

  predicate IsUserAction(a: AdminAction) {
    a.UpdateUserStatus? || a.DeleteUser?
  }

  /** Each action rewrites only its own collection; the other two are
      identical afterwards. */
  lemma OnlyOwnCollection(state: AdminState, action: AdminAction)
    ensures !IsCatalogAction(action) ==> AdminReducer(state, action).laptops == state.laptops
    ensures !IsUserAction(action) ==> AdminReducer(state, action).users == state.users
    ensures !action.UpdateOrderStatus? ==> AdminReducer(state, action).orders == state.orders
  {
  }

  /** ADD_LAPTOP appends at the end without looking at ids: adding a laptop
      whose id is taken leaves two entries with that id. */
  lemma AddLaptopSpec(state: AdminState, laptop: Laptop)
    ensures AdminReducer(state, AddLaptop(laptop)).laptops == state.laptops + [laptop]
    ensures forall i :: 0 <= i < |state.laptops| && state.laptops[i].id == laptop.id ==>
      var r := AdminReducer(state, AddLaptop(laptop)).laptops;
      r[i].id == r[|r| - 1].id && i != |r| - 1
  {
  }

  /** UPDATE_LAPTOP puts the new record at every position whose id matches
      and leaves all other positions alone; an unknown id changes nothing. */
  lemma UpdateLaptopSpec(state: AdminState, laptop: Laptop)
    ensures var r := AdminReducer(state, UpdateLaptop(laptop)).laptops;
      && |r| == |state.laptops|
      && (forall i :: 0 <= i < |r| && state.laptops[i].id == laptop.id ==> r[i] == laptop)
      && (forall i :: 0 <= i < |r| && state.laptops[i].id != laptop.id ==> r[i] == state.laptops[i])
    ensures (forall i :: 0 <= i < |state.laptops| ==> state.laptops[i].id != laptop.id) ==>
      AdminReducer(state, UpdateLaptop(laptop)).laptops == state.laptops
  {
  }

  /** DELETE_LAPTOP keeps, in order and with their multiplicities, exactly
      the laptops with another id; it is idempotent and does nothing when the
      id is absent. */
  lemma DeleteLaptopSpec(state: AdminState, id: string)
    ensures var r := AdminReducer(state, DeleteLaptop(id)).laptops;
      && Seqs.IsSubsequence(r, state.laptops)
      && (forall l: Laptop :: l in r <==> l in state.laptops && l.id != id)
      && (forall l: Laptop :: l.id != id ==> multiset(r)[l] == multiset(state.laptops)[l])
      && (forall i :: 0 <= i < |r| ==> r[i].id != id)
    ensures AdminReducer(AdminReducer(state, DeleteLaptop(id)), DeleteLaptop(id)) == AdminReducer(state, DeleteLaptop(id))
    ensures (forall i :: 0 <= i < |state.laptops| ==> state.laptops[i].id != id) ==>
      AdminReducer(state, DeleteLaptop(id)) == state
  {
    var r := AdminReducer(state, DeleteLaptop(id)).laptops;
    assert forall i :: 0 <= i < |r| ==> r[i] in r;
    WithoutLaptopCounts(state.laptops, id);
    WithoutLaptopTwice(state.laptops, id);
    if forall i :: 0 <= i < |state.laptops| ==> state.laptops[i].id != id {
      Seqs.FilterAll((l: Laptop) => l.id != id, state.laptops);
    }
  }

  lemma WithoutLaptopCounts(ls: seq<Laptop>, id: string)
    ensures forall l: Laptop :: l.id != id ==> multiset(WithoutLaptop(ls, id))[l] == multiset(ls)[l]
  {
  }

  lemma WithoutLaptopTwice(ls: seq<Laptop>, id: string)
    ensures WithoutLaptop(WithoutLaptop(ls, id), id) == WithoutLaptop(ls, id)
  {
    Seqs.FilterIdempotent((l: Laptop) => l.id != id, ls);
  }

  /** UPDATE_USER_STATUS: matching users get the new status and differ in
      nothing else; every other user is unchanged. */
  lemma UpdateUserStatusSpec(state: AdminState, id: string, status: UserStatus)
    ensures var r := AdminReducer(state, UpdateUserStatus(id, status)).users;
      && |r| == |state.users|
      && (forall i :: 0 <= i < |r| ==> r[i].(status := state.users[i].status) == state.users[i])
      && (forall i :: 0 <= i < |r| ==>
            r[i].status == if state.users[i].id == id then status else state.users[i].status)
  {
  }

  /** DELETE_USER keeps exactly the other users, in order and with their
      multiplicities; it is idempotent and does nothing when the id is absent. */
  lemma DeleteUserSpec(state: AdminState, id: string)
    ensures var r := AdminReducer(state, DeleteUser(id)).users;
      && Seqs.IsSubsequence(r, state.users)
      && (forall u: User :: u in r <==> u in state.users && u.id != id)
      && (forall u: User :: u.id != id ==> multiset(r)[u] == multiset(state.users)[u])
    ensures AdminReducer(AdminReducer(state, DeleteUser(id)), DeleteUser(id)) == AdminReducer(state, DeleteUser(id))
    ensures (forall i :: 0 <= i < |state.users| ==> state.users[i].id != id) ==>
      AdminReducer(state, DeleteUser(id)) == state
  {
    WithoutUserCounts(state.users, id);
    WithoutUserTwice(state.users, id);
    if forall i :: 0 <= i < |state.users| ==> state.users[i].id != id {
      Seqs.FilterAll((u: User) => u.id != id, state.users);
    }
  }

  lemma WithoutUserCounts(users: seq<User>, id: string)
    ensures forall u: User :: u.id != id ==> multiset(WithoutUser(users, id))[u] == multiset(users)[u]
  {
  }

  lemma WithoutUserTwice(users: seq<User>, id: string)
    ensures WithoutUser(WithoutUser(users, id), id) == WithoutUser(users, id)
  {
    Seqs.FilterIdempotent((u: User) => u.id != id, users);
  }

  /** UPDATE_ORDER_STATUS: matching orders get the new status, whatever
      status they had (there is no transition rule), and differ in nothing
      else; every other order is unchanged. */
  lemma UpdateOrderStatusSpec(state: AdminState, id: string, status: OrderStatus)
    ensures var r := AdminReducer(state, UpdateOrderStatus(id, status)).orders;
      && |r| == |state.orders|
      && (forall i :: 0 <= i < |r| ==> r[i].(status := state.orders[i].status) == state.orders[i])
      && (forall i :: 0 <= i < |r| ==>
            r[i].status == if state.orders[i].id == id then status else state.orders[i].status)
  {
  }

  /** A cancelled order can be set back to pending, and a delivered one too. */
  lemma NoTransitionRule(o: Order, status: OrderStatus)
    ensures AdminReducer(AdminState([], [], [o]), UpdateOrderStatus(o.id, status)).orders == [o.(status := status)]
  {
  }

  /** Starting from the fixtures, setting ORD-004 to shipped changes exactly
      that order's status. */
  lemma ShipFixtureOrder()
    ensures var r := AdminReducer(InitialState(), UpdateOrderStatus("ORD-004", Shipped));
      && r.laptops == Laptops.Seed && r.users == AdminData.Users
      && |r.orders| == 5
      && r.orders[3] == AdminData.Orders[3].(status := Shipped)
      && (forall k :: 0 <= k < 5 && k != 3 ==> r.orders[k] == AdminData.Orders[k])
  {
    AdminData.FixtureOrderIds();
    UpdateOrderStatusSpec(InitialState(), "ORD-004", Shipped);
  }

  /** `AdminProvider`: holds the three collections, starting from the
      fixtures, and dispatches each operation to the reducer. */
  class AdminStore {
    var laptops: seq<Laptop>
    var users: seq<User>
    var orders: seq<Order>

    function State(): (r: AdminState)
      reads this
    {
      AdminState(laptops, users, orders)
    }

    constructor ()
      ensures State() == InitialState()
    {
      laptops := Laptops.Seed;
      users := AdminData.Users;
      orders := AdminData.Orders;
    }

    method Dispatch(action: AdminAction)
      modifies this
      ensures State() == AdminReducer(old(State()), action)
    {
      var next := AdminReducer(State(), action);
      laptops, users, orders := next.laptops, next.users, next.orders;
    }

    method AddLaptop(laptop: Laptop)
      modifies this
      ensures State() == AdminReducer(old(State()), AdminAction.AddLaptop(laptop))
    {
      Dispatch(AdminAction.AddLaptop(laptop));
    }

    method UpdateLaptop(laptop: Laptop)
      modifies this
      ensures State() == AdminReducer(old(State()), AdminAction.UpdateLaptop(laptop))
    {
      Dispatch(AdminAction.UpdateLaptop(laptop));
    }

    method DeleteLaptop(laptopId: string)
      modifies this
      ensures State() == AdminReducer(old(State()), AdminAction.DeleteLaptop(laptopId))
    {
      Dispatch(AdminAction.DeleteLaptop(laptopId));
    }

    method UpdateUserStatus(userId: string, status: UserStatus)
      modifies this
      ensures State() == AdminReducer(old(State()), AdminAction.UpdateUserStatus(userId, status))
    {
      Dispatch(AdminAction.UpdateUserStatus(userId, status));
    }

    method DeleteUser(userId: string)
      modifies this
      ensures State() == AdminReducer(old(State()), AdminAction.DeleteUser(userId))
    {
      Dispatch(AdminAction.DeleteUser(userId));
    }

    method UpdateOrderStatus(orderId: string, status: OrderStatus)
      modifies this
      ensures State() == AdminReducer(old(State()), AdminAction.UpdateOrderStatus(orderId, status))
    {
      Dispatch(AdminAction.UpdateOrderStatus(orderId, status));
    }
  }
}
