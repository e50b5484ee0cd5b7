/** The admin fixtures of src/data/adminData.ts: the user list, the order
    list (whose lines point at seed laptops) and the dashboard figures. */
module AdminData {
  import opened Types
  import Seqs
  import Laptops
  import CartContext

  const Users: seq<User> := [
    User(id := "1", name := "John Smith", email := "john.smith@email.com",
      role := Customer, status := Active, joinDate := "2024-01-15", totalOrders := 5),
    User(id := "2", name := "Sarah Johnson", email := "sarah.johnson@email.com",
      role := Customer, status := Active, joinDate := "2024-02-20", totalOrders := 3),
    User(id := "3", name := "Mike Chen", email := "mike.chen@email.com",
      role := Customer, status := Active, joinDate := "2024-03-10", totalOrders := 8),
    User(id := "4", name := "Emily Davis", email := "emily.davis@email.com",
      role := Customer, status := Blocked, joinDate := "2024-01-05", totalOrders := 2),
    User(id := "5", name := "Admin User", email := "admin@laptopshop.com",
      role := Admin, status := Active, joinDate := "2023-12-01", totalOrders := 0)
  ]

  const Orders: seq<Order> := [
    Order(id := "ORD-001", userId := "1", userName := "John Smith", userEmail := "john.smith@email.com",
      items := [CartItem(Laptops.Seed[0], 1)], total := 3499, status := Delivered,
      orderDate := "2024-12-01", shippingAddress := "123 Main St, New York, NY 10001"),
    Order(id := "ORD-002", userId := "2", userName := "Sarah Johnson", userEmail := "sarah.johnson@email.com",
      items := [CartItem(Laptops.Seed[1], 1), CartItem(Laptops.Seed[4], 1)], total := 4498, status := Shipped,
      orderDate := "2024-12-15", shippingAddress := "456 Oak Ave, Los Angeles, CA 90210"),
    Order(id := "ORD-003", userId := "3", userName := "Mike Chen", userEmail := "mike.chen@email.com",
      items := [CartItem(Laptops.Seed[2], 2)], total := 3798, status := Processing,
      orderDate := "2024-12-20", shippingAddress := "789 Pine St, Chicago, IL 60601"),
    Order(id := "ORD-004", userId := "1", userName := "John Smith", userEmail := "john.smith@email.com",
      items := [CartItem(Laptops.Seed[3], 1)], total := 2599, status := Pending,
      orderDate := "2024-12-22", shippingAddress := "123 Main St, New York, NY 10001"),
    Order(id := "ORD-005", userId := "4", userName := "Emily Davis", userEmail := "emily.davis@email.com",
      items := [CartItem(Laptops.Seed[5], 1)], total := 1799, status := Cancelled,
      orderDate := "2024-12-18", shippingAddress := "321 Elm St, Miami, FL 33101")
  ]

  /** The dashboard figures; the two growth percentages are left out. */
  datatype DashboardStats = DashboardStats(
    totalSales: int,
    totalOrders: int,
    totalProducts: int,
    totalUsers: int,
    recentOrders: seq<Order>)

  predicate IsCustomer(u: User) { u.role == Customer }

  /** `dashboardStats`: totalSales and totalOrders are literals, the other
      figures are computed from the fixtures. */
  function Stats(): (r: DashboardStats) {
    DashboardStats(
      totalSales := 16093,
      totalOrders := 5,
      totalProducts := |Laptops.Seed|,
      totalUsers := |Seqs.Filter(IsCustomer, Users)|,
      recentOrders := Orders[..3])
  }

  /** The computed dashboard figures: six products, four customers (the
      admin account is not counted), an order count equal to the length of
      the fixture, and the first three orders as the recent ones. */
  lemma StatsFigures()
    ensures Stats().totalProducts == 6
    ensures Stats().totalUsers == 4
    ensures Stats().totalOrders == |Orders|
    ensures Stats().recentOrders == Orders[..3]
  {
    CustomerCount();
  }

  lemma {:induction false} CustomerCount()
    ensures |Seqs.Filter(IsCustomer, Users)| == 4
  {
    var admins := Seqs.Filter(IsCustomer, Users[4..]);
    assert admins == [] by {
      assert Users[4..] == [Users[4]];
      assert Users[4..][1..] == [];
    }
    assert Users[3..][1..] == Users[4..];
    assert Users[2..][1..] == Users[3..];
    assert Users[1..][1..] == Users[2..];
    assert Users[0..][1..] == Users[1..];
    assert Users[0..] == Users;
  }

  /** The recent orders are ORD-001, ORD-002 and ORD-003. */
  lemma RecentOrderIds()
    ensures |Stats().recentOrders| == 3
    ensures Stats().recentOrders[0].id == "ORD-001"
    ensures Stats().recentOrders[1].id == "ORD-002"
    ensures Stats().recentOrders[2].id == "ORD-003"
  {
    StatsFigures();
    FixtureOrderIds();
  }

  lemma FixtureOrderIds()
    ensures |Orders| == 5
    ensures Orders[0].id == "ORD-001" && Orders[1].id == "ORD-002" && Orders[2].id == "ORD-003"
    ensures Orders[3].id == "ORD-004" && Orders[4].id == "ORD-005"
  {
  }

  /** Every fixture order's total is what the cart would charge for its lines. */
  lemma OrderTotalsMatchLines()
    ensures forall k :: 0 <= k < |Orders| ==> Orders[k].total == CartContext.TotalPrice(Orders[k].items)
  {
    SingleLineTotal(Orders[0], Laptops.Seed[0], 1);
    SingleLineTotal(Orders[2], Laptops.Seed[2], 2);
    SingleLineTotal(Orders[3], Laptops.Seed[3], 1);
    SingleLineTotal(Orders[4], Laptops.Seed[5], 1);
    var items := Orders[1].items;
    assert items[..1] == [items[0]];
    CartContext.SumSnoc([], items[0], CartContext.LineTotal);
    assert [] + [items[0]] == [items[0]];
  }

  lemma SingleLineTotal(o: Order, l: Laptop, q: int)
    requires o.items == [CartItem(l, q)] && o.total == l.price * q
    ensures o.total == CartContext.TotalPrice(o.items)
  {
    CartContext.SumSnoc([], CartItem(l, q), CartContext.LineTotal);
    assert [] + [CartItem(l, q)] == [CartItem(l, q)];
  }

  /** Fixture users carry distinct ids. */
  lemma UsersDistinct()
    ensures forall i, j :: 0 <= i < j < |Users| ==> Users[i].id != Users[j].id
  {
  }

  /** Fixture orders carry distinct ids, positive quantities and no two lines
      for one laptop, i.e. each one's lines form a well-formed cart. */
  lemma OrdersWellFormed()
    ensures forall i, j :: 0 <= i < j < |Orders| ==> Orders[i].id != Orders[j].id
    ensures forall k :: 0 <= k < |Orders| ==> CartContext.WellFormed(Orders[k].items)
  {
  }

  /** Each order belongs to a customer of the user fixture and copies that
      customer's name and e-mail. */
  lemma OrdersBelongToCustomers()
    ensures forall k :: 0 <= k < |Orders| ==>
      exists u :: 0 <= u < |Users| && Users[u].id == Orders[k].userId && IsCustomer(Users[u])
        && Users[u].name == Orders[k].userName && Users[u].email == Orders[k].userEmail
  {
    assert Users[0].id == Orders[0].userId;
    assert Users[1].id == Orders[1].userId;
    assert Users[2].id == Orders[2].userId;
    assert Users[0].id == Orders[3].userId;
    assert Users[3].id == Orders[4].userId;
  }
}
