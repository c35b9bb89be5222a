/** The mock persistence layer of services/api.ts: three services that read a
    whole collection out of local storage, change a copy and write it back.

    Local storage is `LocalStore`, with one field per storage key: the
    product list, the user list, the order list and the current-user
    pointer. Each service call is one atomic step. The collection rewrites
    are the pure functions declared before the class; each method of the
    class stores what one of them computes. */
module Api {
  import opened Types
  import opened Seqs

  /** The only verification code accepted. */
  const ValidOtp: string := "1234"
  /** The phone number that is registered with the admin role. */
  const AdminPhone: string := "6302382280"
  /** The name given to a user at registration. */
  const GuestName: string := "Guest User"
  /** The message of the rejection for a wrong code. */
  const InvalidOtpMessage: string := "Invalid OTP"

  // ---------------------------------------------------------------------------
  // Lookups (`find` / `findIndex` with an equality test on one field)
  // ---------------------------------------------------------------------------

  function IndexOfPhone(users: seq<User>, phone: string): (r: Option<nat>)
    ensures r.Some? ==> r.value < |users| && users[r.value].phone == phone
    ensures r.Some? ==> forall j :: 0 <= j < r.value ==> users[j].phone != phone
    ensures r.None? <==> forall j :: 0 <= j < |users| ==> users[j].phone != phone
  {
    FindIndex(users, (u: User) => u.phone == phone)
  }

  function IndexOfUserId(users: seq<User>, id: string): (r: Option<nat>)
    ensures r.Some? ==> r.value < |users| && users[r.value].id == id
    ensures r.Some? ==> forall j :: 0 <= j < r.value ==> users[j].id != id
    ensures r.None? <==> forall j :: 0 <= j < |users| ==> users[j].id != id
  {
    FindIndex(users, (u: User) => u.id == id)
  }

  function IndexOfOrderId(orders: seq<Order>, id: string): (r: Option<nat>)
    ensures r.Some? ==> r.value < |orders| && orders[r.value].id == id
    ensures r.Some? ==> forall j :: 0 <= j < r.value ==> orders[j].id != id
    ensures r.None? <==> forall j :: 0 <= j < |orders| ==> orders[j].id != id
  {
    FindIndex(orders, (o: Order) => o.id == id)
  }

  // ---------------------------------------------------------------------------
  // Users
  // ---------------------------------------------------------------------------

  /** No two users share a phone number. */
  ghost predicate UniquePhones(users: seq<User>)
  {
    forall i, j :: 0 <= i < j < |users| ==> users[i].phone != users[j].phone
  }

  /** Every user has the admin role exactly when their phone is the admin number. */
  ghost predicate RolesFollowPhones(users: seq<User>)
  {
    forall i :: 0 <= i < |users| ==> (users[i].role == Admin <==> users[i].phone == AdminPhone)
  }

  /** The record created for a phone number seen for the first time. */
  function Register(freshId: string, phone: string): (u: User)
    ensures u.id == freshId && u.name == GuestName && u.phone == phone && u.address == ""
    ensures u.role == Admin <==> phone == AdminPhone
  {
    User(freshId, GuestName, phone, if phone == AdminPhone then Admin else Customer, "")
  }

  /** A successful verification: the first user with the phone, or a new one
      appended to the list. Returns the user and the user list to store. */
  function LookupOrRegister(users: seq<User>, phone: string, freshId: string): (r: (User, seq<User>))
    ensures r.0.phone == phone && r.0 in r.1
    ensures IndexOfPhone(users, phone).Some? ==> r.1 == users
    ensures IndexOfPhone(users, phone).None? ==> r.0 == Register(freshId, phone) && r.1 == users + [r.0]
  {
    match IndexOfPhone(users, phone)
    case Some(i) => (users[i], users)
    case None => var u := Register(freshId, phone); (u, users + [u])
  }

  /** After a successful verification the stored list finds the returned user
      for that phone. */
  lemma LookupOrRegisterFinds(users: seq<User>, phone: string, freshId: string)
    ensures var (u, us) := LookupOrRegister(users, phone, freshId);
      IndexOfPhone(us, phone).Some? && us[IndexOfPhone(us, phone).value] == u
  {
    if IndexOfPhone(users, phone).None? {
      FindIndexAppend(users, Register(freshId, phone), (u: User) => u.phone == phone);
    }
  }

  /** Verifying the same phone a second time returns the same user, whatever
      fresh id is offered, and stores no second record. */
  lemma SignInAgainReturnsSameUser(users: seq<User>, phone: string, id1: string, id2: string)
    ensures var (u, us) := LookupOrRegister(users, phone, id1);
      LookupOrRegister(us, phone, id2) == (u, us)
  {
    LookupOrRegisterFinds(users, phone, id1);
  }

  /** Registration only happens for an unseen phone, so phones stay distinct. */
  lemma LookupOrRegisterKeepsPhonesUnique(users: seq<User>, phone: string, freshId: string)
    requires UniquePhones(users)
    ensures UniquePhones(LookupOrRegister(users, phone, freshId).1)
  {
    var us := LookupOrRegister(users, phone, freshId).1;
    if IndexOfPhone(users, phone).None? {
      forall i, j | 0 <= i < j < |us| ensures us[i].phone != us[j].phone {
        if j == |users| {
          assert us[i] == users[i];
        }
      }
    }
  }

  /** The role rule holds of every stored user after a successful verification,
      and so of the returned user. */
  lemma LookupOrRegisterKeepsRoleRule(users: seq<User>, phone: string, freshId: string)
    requires RolesFollowPhones(users)
    ensures RolesFollowPhones(LookupOrRegister(users, phone, freshId).1)
    ensures LookupOrRegister(users, phone, freshId).0.role == Admin <==> phone == AdminPhone
  {
    var (u, us) := LookupOrRegister(users, phone, freshId);
    var k :| 0 <= k < |us| && us[k] == u;
    assert us[k].role == Admin <==> us[k].phone == AdminPhone;
  }

  /** The user list after a profile update: the first record with the
      argument's id is replaced by it; nothing else changes. */
  function ReplaceUser(users: seq<User>, user: User): (r: seq<User>)
    ensures |r| == |users|
    ensures forall j :: 0 <= j < |users| ==>
      r[j] == if IndexOfUserId(users, user.id) == Some(j) then user else users[j]
  {
    match IndexOfUserId(users, user.id)
    case Some(i) => users[i := user]
    case None => users
  }

  /** A profile update without a matching id leaves the list as it was. */
  lemma ReplaceUserAbsentIsNoop(users: seq<User>, user: User)
    requires forall j :: 0 <= j < |users| ==> users[j].id != user.id
    ensures ReplaceUser(users, user) == users
  {
  }

  /** A profile update keeps phones distinct when no record other than the
      one it replaces holds the new phone. The update itself does not check this. */
  lemma ReplaceUserKeepsPhonesUnique(users: seq<User>, user: User)
    requires UniquePhones(users)
    requires forall j :: 0 <= j < |users| && IndexOfUserId(users, user.id) != Some(j) ==>
      users[j].phone != user.phone
    ensures UniquePhones(ReplaceUser(users, user))
  {
  }

  /** An update that changes the phone to one another record holds breaks the
      uniqueness of phones. */
  lemma ReplaceUserCanDuplicatePhone(a: User, b: User, user: User)
    requires a.phone != b.phone && a.id != b.id
    requires user.id == a.id && user.phone == b.phone
    ensures UniquePhones([a, b])
    ensures !UniquePhones(ReplaceUser([a, b], user))
  {
    assert ReplaceUser([a, b], user)[0] == user;
    assert ReplaceUser([a, b], user)[1] == b;
  }

  /** The update stores the role it is given: a customer without the admin
      phone, updated to the admin role, breaks the role rule. */
  lemma ReplaceUserCanGrantAdmin(a: User)
    requires a.phone != AdminPhone && a.role == Customer
    ensures RolesFollowPhones([a])
    ensures !RolesFollowPhones(ReplaceUser([a], a.(role := Admin)))
  {
    assert ReplaceUser([a], a.(role := Admin))[0] == a.(role := Admin);
  }

  /** A replacement whose own role follows the rule keeps the rule. */
  lemma ReplaceUserKeepsRoleRule(users: seq<User>, user: User)
    requires RolesFollowPhones(users)
    requires user.role == Admin <==> user.phone == AdminPhone
    ensures RolesFollowPhones(ReplaceUser(users, user))
  {
    var r := ReplaceUser(users, user);
    assert forall i :: 0 <= i < |r| ==> r[i] == user || r[i] == users[i];
  }

  /** Conversely, when an id matched, a list that follows the rule after the
      replacement was given a record that follows it. With no match the list
      is unchanged, whatever record is passed (`ReplaceUserAbsentIsNoop`). */
  lemma ReplaceUserRoleRuleNeedsRecord(users: seq<User>, user: User)
    requires IndexOfUserId(users, user.id).Some?
    requires RolesFollowPhones(ReplaceUser(users, user))
    ensures user.role == Admin <==> user.phone == AdminPhone
  {
    assert ReplaceUser(users, user)[IndexOfUserId(users, user.id).value] == user;
  }

  // ---------------------------------------------------------------------------
  // Products
  // ---------------------------------------------------------------------------

  /** The catalogue after a delete: the products whose id differs, in order. */
  function ProductsWithout(products: seq<Product>, id: string): (r: seq<Product>)
    ensures forall k :: 0 <= k < |r| ==> r[k].id != id && r[k] in products
    ensures forall k :: 0 <= k < |products| && products[k].id != id ==> products[k] in r
    ensures forall x :: multiset(r)[x] == if x.id != id then multiset(products)[x] else 0
  {
    FilterCounts(products, (p: Product) => p.id != id);
    Filter(products, (p: Product) => p.id != id)
  }

  /** Deleting from a concatenation deletes from each part, keeping the order. */
  lemma ProductsWithoutAppend(a: seq<Product>, b: seq<Product>, id: string)
    ensures ProductsWithout(a + b, id) == ProductsWithout(a, id) + ProductsWithout(b, id)
  {
    FilterAppend(a, b, (p: Product) => p.id != id);
  }

  /** Deleting an id that is not there changes nothing. */
  lemma ProductsWithoutAbsentIsNoop(products: seq<Product>, id: string)
    requires forall k :: 0 <= k < |products| ==> products[k].id != id
    ensures ProductsWithout(products, id) == products
  {
    FilterKeepsAll(products, (p: Product) => p.id != id);
  }

  /** Deleting the same id twice is deleting it once. */
  lemma ProductsWithoutIdempotent(products: seq<Product>, id: string)
    ensures ProductsWithout(ProductsWithout(products, id), id) == ProductsWithout(products, id)
  {
    FilterIdempotent(products, (p: Product) => p.id != id);
  }

  /** Deleting the id every stored product has leaves the catalogue empty. */
  lemma ProductsWithoutOnlyId(products: seq<Product>, id: string)
    requires forall k :: 0 <= k < |products| ==> products[k].id == id
    ensures ProductsWithout(products, id) == []
  {
    FilterDropsAll(products, (p: Product) => p.id != id);
  }

  /** Deleting each id of `ids` in turn. */
  function DeleteEach(products: seq<Product>, ids: seq<string>): seq<Product>
    decreases |ids|
  {
    if |ids| == 0 then products else DeleteEach(ProductsWithout(products, ids[0]), ids[1..])
  }

  /** Deleting, one after another, ids that cover every product's id leaves
      the catalogue empty. */
  lemma {:induction false} DeleteEachCoveringIds(products: seq<Product>, ids: seq<string>)
    requires forall k :: 0 <= k < |products| ==> products[k].id in ids
    ensures DeleteEach(products, ids) == []
    decreases |ids|
  {
    if |ids| > 0 {
      var rest := ProductsWithout(products, ids[0]);
      assert ids == [ids[0]] + ids[1..];
      forall k | 0 <= k < |rest| ensures rest[k].id in ids[1..] {
        var m :| 0 <= m < |products| && products[m] == rest[k];
      }
      DeleteEachCoveringIds(rest, ids[1..]);
    }
  }

  // ---------------------------------------------------------------------------
  // Orders
  // ---------------------------------------------------------------------------

  /** The orders placed by one user, in the order they were stored. */
  function OrdersOf(orders: seq<Order>, userId: string): (r: seq<Order>)
    ensures forall k :: 0 <= k < |r| ==> r[k].userId == userId && r[k] in orders
    ensures forall k :: 0 <= k < |orders| && orders[k].userId == userId ==> orders[k] in r
    ensures forall x :: multiset(r)[x] == if x.userId == userId then multiset(orders)[x] else 0
  {
    FilterCounts(orders, (o: Order) => o.userId == userId);
    Filter(orders, (o: Order) => o.userId == userId)
  }

  /** The per-user listing of a concatenation is the listings of the parts,
      in order. */
  lemma OrdersOfAppend(a: seq<Order>, b: seq<Order>, userId: string)
    ensures OrdersOf(a + b, userId) == OrdersOf(a, userId) + OrdersOf(b, userId)
  {
    FilterAppend(a, b, (o: Order) => o.userId == userId);
  }

  /** The order list after a status change: the first order with that id gets
      the new status; every other order and every other field is unchanged. */
  function SetStatus(orders: seq<Order>, orderId: string, status: OrderStatus): (r: seq<Order>)
    ensures |r| == |orders|
    ensures forall j :: 0 <= j < |orders| ==>
      r[j] == if IndexOfOrderId(orders, orderId) == Some(j) then orders[j].(status := status) else orders[j]
  {
    match IndexOfOrderId(orders, orderId)
    case Some(i) => orders[i := orders[i].(status := status)]
    case None => orders
  }

  /** A status change for an absent id changes nothing. */
  lemma SetStatusAbsentIsNoop(orders: seq<Order>, orderId: string, status: OrderStatus)
    requires forall j :: 0 <= j < |orders| ==> orders[j].id != orderId
    ensures SetStatus(orders, orderId, status) == orders
  {
  }

  /** The second of two status changes to one order wins, whatever the first
      one set: there is no forward-only rule (paid may go back to pending). */
  lemma SetStatusLastWins(orders: seq<Order>, orderId: string, s1: OrderStatus, s2: OrderStatus)
    ensures SetStatus(SetStatus(orders, orderId, s1), orderId, s2) == SetStatus(orders, orderId, s2)
  {
    var mid := SetStatus(orders, orderId, s1);
    FindIndexSameAnswers(orders, mid, (o: Order) => o.id == orderId);
  }

  // ---------------------------------------------------------------------------
  // Local storage and the three services
  // ---------------------------------------------------------------------------

  class LocalStore {
    var products: seq<Product>
    var users: seq<User>
    var orders: seq<Order>
    var currentUser: Option<User>
    /** The fixture the catalogue is seeded from (`INITIAL_PRODUCTS`). */
    const seed: seq<Product>

    /** Storage in which no key has been written yet. */
    constructor (seed: seq<Product>)
      ensures this.seed == seed
      ensures products == [] && users == [] && orders == [] && currentUser == None
    {
      this.seed := seed;
      products, users, orders, currentUser := [], [], [], None;
    }

    /** `authService.sendOtp`: always succeeds and writes nothing. */
    method SendOtp(phone: string) returns (sent: bool)
      ensures sent
    {
      sent := true;
    }

    /** `authService.verifyOtp`. */
    method VerifyOtp(phone: string, otp: string, freshId: string) returns (r: Result<User>)
      modifies this
      ensures products == old(products) && orders == old(orders)
      ensures otp != ValidOtp ==>
        r == Err(InvalidOtpMessage) && users == old(users) && currentUser == old(currentUser)
      ensures otp == ValidOtp ==>
        r.Ok? && (r.value, users) == LookupOrRegister(old(users), phone, freshId) && currentUser == Some(r.value)
      ensures UniquePhones(old(users)) ==> UniquePhones(users)
      ensures RolesFollowPhones(old(users)) ==> RolesFollowPhones(users)
    {
      if otp == ValidOtp {
        var all := users;
        var found := IndexOfPhone(all, phone);
        var user: User;
        if found.Some? {
          user := all[found.value];
        } else {
          user := Register(freshId, phone);
          all := all + [user];
          users := all;
        }
        currentUser := Some(user);
        r := Ok(user);
        if UniquePhones(old(users)) {
          LookupOrRegisterKeepsPhonesUnique(old(users), phone, freshId);
        }
        if RolesFollowPhones(old(users)) {
          LookupOrRegisterKeepsRoleRule(old(users), phone, freshId);
        }
      } else {
        r := Err(InvalidOtpMessage);
      }
    }

    /** `authService.getCurrentUser`: the stored pointer, if any. */
    function GetCurrentUser(): (u: Option<User>)
      reads this
      ensures u == currentUser
    {
      currentUser
    }

    /** `authService.logout`: removes the pointer; the user record stays. */
    method Logout()
      modifies this
      ensures currentUser == None
      ensures products == old(products) && users == old(users) && orders == old(orders)
    {
      currentUser := None;
    }

    /** `authService.updateProfile`: returns its argument in every case. */
    method UpdateProfile(user: User) returns (r: User)
      modifies this
      ensures r == user
      ensures users == ReplaceUser(old(users), user)
      ensures currentUser == if IndexOfUserId(old(users), user.id).Some? then Some(user) else old(currentUser)
      ensures products == old(products) && orders == old(orders)
    {
      var all := users;
      var index := IndexOfUserId(all, user.id);
      if index.Some? {
        all := all[index.value := user];
        users := all;
        currentUser := Some(user);
      }
      r := user;
    }

    /** `productService.getAll`: an empty catalogue is replaced by the seed. */
    method GetAllProducts() returns (r: seq<Product>)
      modifies this
      ensures old(products) != [] ==> r == old(products) && products == old(products)
      ensures old(products) == [] ==> r == seed && products == seed
      ensures users == old(users) && orders == old(orders) && currentUser == old(currentUser)
    {
      var stored := products;
      if |stored| == 0 {
        products := seed;
        r := seed;
      } else {
        r := stored;
      }
    }

    /** `productService.add`: the draft, under the fresh id, goes at the end. */
    method AddProduct(draft: ProductDraft, freshId: string) returns (r: Product)
      modifies this
      ensures r == WithId(draft, freshId)
      ensures products == old(products) + [r]
      ensures users == old(users) && orders == old(orders) && currentUser == old(currentUser)
    {
      var all := products;
      r := WithId(draft, freshId);
      all := all + [r];
      products := all;
    }

    /** `productService.delete`. */
    method DeleteProduct(id: string)
      modifies this
      ensures products == ProductsWithout(old(products), id)
      ensures users == old(users) && orders == old(orders) && currentUser == old(currentUser)
    {
      var filtered := ProductsWithout(products, id);
      products := filtered;
    }

    /** `orderService.create`: the order is stored as given, total included. */
    method CreateOrder(order: Order) returns (r: Order)
      modifies this
      ensures r == order
      ensures orders == old(orders) + [order]
      ensures products == old(products) && users == old(users) && currentUser == old(currentUser)
    {
      var all := orders;
      all := all + [order];
      orders := all;
      r := order;
    }

    /** `orderService.getAll`: every stored order, in insertion order. */
    function GetAllOrders(): (r: seq<Order>)
      reads this
      ensures r == orders
    {
      orders
    }

    /** `orderService.getUserOrders`: the stored orders with that user id. */
    function GetUserOrders(userId: string): (r: seq<Order>)
      reads this
      ensures r == OrdersOf(GetAllOrders(), userId)
    {
      OrdersOf(orders, userId)
    }

    /** `orderService.updateStatus`. */
    method UpdateStatus(orderId: string, status: OrderStatus)
      modifies this
      ensures orders == SetStatus(old(orders), orderId, status)
      ensures products == old(products) && users == old(users) && currentUser == old(currentUser)
    {
      var all := orders;
      var found := IndexOfOrderId(all, orderId);
      if found.Some? {
        all := all[found.value := all[found.value].(status := status)];
        orders := all;
      }
    }
  }

  // ---------------------------------------------------------------------------
  // Call sequences of the services
  // ---------------------------------------------------------------------------

  /** Two correct verifications of one phone return the same user and leave at
      most one new record. */
  method VerifyTwice(store: LocalStore, phone: string, id1: string, id2: string) returns (u1: User, u2: User)
    modifies store
    ensures u1 == u2
    ensures store.users == LookupOrRegister(old(store.users), phone, id1).1
  {
    var r1 := store.VerifyOtp(phone, ValidOtp, id1);
    var r2 := store.VerifyOtp(phone, ValidOtp, id2);
    SignInAgainReturnsSameUser(old(store.users), phone, id1, id2);
    u1, u2 := r1.value, r2.value;
  }

  /** Deleting the last product id in the catalogue and then listing it brings
      the seed back. */
  /** Deleting every product, one id at a time, and then listing brings the
      seed back and stores it again. */
  method DeleteAllThenList(store: LocalStore, ids: seq<string>) returns (r: seq<Product>)
    modifies store
    requires forall k :: 0 <= k < |store.products| ==> store.products[k].id in ids
    ensures r == store.seed && store.products == store.seed
  {
    DeleteEachCoveringIds(store.products, ids);
    var i := 0;
    while i < |ids|
      invariant i <= |ids|
      invariant DeleteEach(store.products, ids[i..]) == []
    {
      assert ids[i..][1..] == ids[i + 1..];
      store.DeleteProduct(ids[i]);
      i := i + 1;
    }
    r := store.GetAllProducts();
  }

  method DeleteLastThenList(store: LocalStore, id: string) returns (r: seq<Product>)
    modifies store
    ensures (forall k :: 0 <= k < |old(store.products)| ==> old(store.products)[k].id == id) ==>
      r == store.seed && store.products == store.seed
  {
    if forall k :: 0 <= k < |store.products| ==> store.products[k].id == id {
      ProductsWithoutOnlyId(store.products, id);
    }
    store.DeleteProduct(id);
    r := store.GetAllProducts();
  }

  /** Marking an order paid and then pending leaves it pending. */
  method PaidThenPending(store: LocalStore, orderId: string)
    modifies store
    ensures store.orders == SetStatus(old(store.orders), orderId, Pending)
  {
    store.UpdateStatus(orderId, Paid);
    store.UpdateStatus(orderId, Pending);
    SetStatusLastWins(old(store.orders), orderId, Paid, Pending);
  }
}
