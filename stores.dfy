/** The auth, menu, order and table stores of `useStore.ts`, and the browser
    storage that the auth store and the request layer share. */
module Stores {
  import opened Types
  import opened Seqs

  /** The browser's key-value storage (`localStorage`), as far as this client
      writes it by hand. */
  class LocalStorage {
    var entries: map<string, string>

    constructor (entries: map<string, string>)
      ensures this.entries == entries
    {
      this.entries := entries;
    }
  }

  /** Key under which the staff bearer token is kept */
  const AuthTokenKey := "authToken"

  /** The auth store: a staff session (token, user) and a customer session
      (session token, customer, table id), kept independently. */
  class AuthStore {
    var token: Option<string>
    var user: Option<StaffUser>
    var sessionToken: Option<string>
    var customer: Option<Customer>
    var tableId: Option<string>
    const storage: LocalStorage

    constructor (storage: LocalStorage)
      ensures token == None && user == None
      ensures sessionToken == None && customer == None && tableId == None
      ensures this.storage == storage
    {
      token, user := None, None;
      sessionToken, customer, tableId := None, None, None;
      this.storage := storage;
    }

    /** Starts a staff session and stores its token. The customer session is untouched. */
    method SetAuth(t: string, u: StaffUser)
      modifies this, storage
      ensures token == Some(t) && user == Some(u)
      ensures sessionToken == old(sessionToken) && customer == old(customer) && tableId == old(tableId)
      ensures storage.entries == old(storage.entries)[AuthTokenKey := t]
    {
      storage.entries := storage.entries[AuthTokenKey := t];
      token, user := Some(t), Some(u);
    }

    /** Ends the staff session and drops the stored token. The customer session is untouched. */
    method ClearAuth()
      modifies this, storage
      ensures token == None && user == None
      ensures sessionToken == old(sessionToken) && customer == old(customer) && tableId == old(tableId)
      ensures storage.entries == old(storage.entries) - {AuthTokenKey}
    {
      storage.entries := storage.entries - {AuthTokenKey};
      token, user := None, None;
    }

    /** Same effect as `ClearAuth`. */
    method Logout()
      modifies this, storage
      ensures token == None && user == None
      ensures sessionToken == old(sessionToken) && customer == old(customer) && tableId == old(tableId)
      ensures storage.entries == old(storage.entries) - {AuthTokenKey}
    {
      storage.entries := storage.entries - {AuthTokenKey};
      token, user := None, None;
    }

    /** Starts a customer session. The staff session and the storage are untouched. */
    method SetCustomerSession(st: string, c: Customer, table: string)
      modifies this
      ensures sessionToken == Some(st) && customer == Some(c) && tableId == Some(table)
      ensures token == old(token) && user == old(user)
    {
      sessionToken, customer, tableId := Some(st), Some(c), Some(table);
    }

    /** Ends the customer session. The staff session and the storage are untouched. */
    method ClearCustomerSession()
      modifies this
      ensures sessionToken == None && customer == None && tableId == None
      ensures token == old(token) && user == old(user)
    {
      sessionToken, customer, tableId := None, None, None;
    }
  }

  /** The menu page's dietary filter choice */
  datatype DietaryFilter = FilterAll | FilterVeg | FilterNonVeg

  /** The menu store: plain UI state with one setter per field. */
  class MenuStore {
    var categories: seq<Category>
    var selectedCategory: Option<string>
    var searchQuery: string
    var dietaryFilter: DietaryFilter

    constructor ()
      ensures categories == [] && selectedCategory == None
      ensures searchQuery == "" && dietaryFilter == FilterAll
    {
      categories, selectedCategory := [], None;
      searchQuery, dietaryFilter := "", FilterAll;
    }

    method SetCategories(cs: seq<Category>)
      modifies this
      ensures categories == cs
      ensures selectedCategory == old(selectedCategory) && searchQuery == old(searchQuery)
      ensures dietaryFilter == old(dietaryFilter)
    {
      categories := cs;
    }

    method SetSelectedCategory(id: Option<string>)
      modifies this
      ensures selectedCategory == id
      ensures categories == old(categories) && searchQuery == old(searchQuery)
      ensures dietaryFilter == old(dietaryFilter)
    {
      selectedCategory := id;
    }

    method SetSearchQuery(q: string)
      modifies this
      ensures searchQuery == q
      ensures categories == old(categories) && selectedCategory == old(selectedCategory)
      ensures dietaryFilter == old(dietaryFilter)
    {
      searchQuery := q;
    }

    method SetDietaryFilter(f: DietaryFilter)
      modifies this
      ensures dietaryFilter == f
      ensures categories == old(categories) && selectedCategory == old(selectedCategory)
      ensures searchQuery == old(searchQuery)
    {
      dietaryFilter := f;
    }
  }

  /** The fields of `Partial<Order>` this model lets an update carry; an absent
      field keeps the order's value. */
  datatype OrderPatch = OrderPatch(
    status: Option<OrderStatus>,
    paymentStatus: Option<PaymentStatus>,
    paymentMethod: Option<PaymentMethod>,
    discount: Option<int>,
    totalAmount: Option<int>)

  /** `{ ...order, ...updates }` */
  function ApplyOrderPatch(o: Order, p: OrderPatch): Order
  {
    o.(status := p.status.GetOr(o.status),
       paymentStatus := p.paymentStatus.GetOr(o.paymentStatus),
       paymentMethod := if p.paymentMethod.Some? then p.paymentMethod else o.paymentMethod,
       discount := p.discount.GetOr(o.discount),
       totalAmount := p.totalAmount.GetOr(o.totalAmount))
  }

  /** `updateOrder`: patch every order with the given id; length, order and ids
      are kept and every other order is left as it was. */
  function UpdateOrders(orders: seq<Order>, orderId: string, p: OrderPatch): (r: seq<Order>)
    ensures |r| == |orders|
    ensures forall i :: 0 <= i < |orders| ==> r[i].id == orders[i].id
    ensures forall i :: 0 <= i < |orders| && orders[i].id == orderId ==> r[i] == ApplyOrderPatch(orders[i], p)
    ensures forall i :: 0 <= i < |orders| && orders[i].id != orderId ==> r[i] == orders[i]
  {
    MapWhere(orders, (o: Order) => o.id == orderId, (o: Order) => ApplyOrderPatch(o, p))
  }

  /** An update for an id that no order carries changes nothing. */
  lemma UpdateOrdersUnknownId(orders: seq<Order>, orderId: string, p: OrderPatch)
    requires forall i :: 0 <= i < |orders| ==> orders[i].id != orderId
    ensures UpdateOrders(orders, orderId, p) == orders
  {
  }

  /** The order store */
  class OrderStore {
    var orders: seq<Order>
    var currentOrder: Option<Order>

    constructor ()
      ensures orders == [] && currentOrder == None
    {
      orders, currentOrder := [], None;
    }

    method SetOrders(os: seq<Order>)
      modifies this
      ensures orders == os && currentOrder == old(currentOrder)
    {
      orders := os;
    }

    /** New orders go to the front. */
    method AddOrder(o: Order)
      modifies this
      ensures orders == [o] + old(orders) && currentOrder == old(currentOrder)
    {
      orders := [o] + orders;
    }

    method UpdateOrder(orderId: string, p: OrderPatch)
      modifies this
      ensures orders == UpdateOrders(old(orders), orderId, p) && currentOrder == old(currentOrder)
    {
      orders := UpdateOrders(orders, orderId, p);
    }

    method SetCurrentOrder(o: Option<Order>)
      modifies this
      ensures currentOrder == o && orders == old(orders)
    {
      currentOrder := o;
    }
  }

  /** The fields of `Partial<Table>` this model lets an update carry */
  datatype TablePatch = TablePatch(
    tableNumber: Option<string>,
    capacity: Option<int>,
    status: Option<TableStatus>,
    currentAmount: Option<int>)

  /** `{ ...table, ...updates }` */
  function ApplyTablePatch(t: Table, p: TablePatch): Table
  {
    t.(tableNumber := p.tableNumber.GetOr(t.tableNumber),
       capacity := p.capacity.GetOr(t.capacity),
       status := p.status.GetOr(t.status),
       currentAmount := p.currentAmount.GetOr(t.currentAmount))
  }

  /** `updateTable`: patch every table with the given id; length, order and ids
      are kept and every other table is left as it was. */
  function UpdateTables(tables: seq<Table>, tableId: string, p: TablePatch): (r: seq<Table>)
    ensures |r| == |tables|
    ensures forall i :: 0 <= i < |tables| ==> r[i].id == tables[i].id
    ensures forall i :: 0 <= i < |tables| && tables[i].id == tableId ==> r[i] == ApplyTablePatch(tables[i], p)
    ensures forall i :: 0 <= i < |tables| && tables[i].id != tableId ==> r[i] == tables[i]
  {
    MapWhere(tables, (t: Table) => t.id == tableId, (t: Table) => ApplyTablePatch(t, p))
  }

  /** The table store */
  class TableStore {
    var tables: seq<Table>
    var selectedTable: Option<Table>

    constructor ()
      ensures tables == [] && selectedTable == None
    {
      tables, selectedTable := [], None;
    }

    method SetTables(ts: seq<Table>)
      modifies this
      ensures tables == ts && selectedTable == old(selectedTable)
    {
      tables := ts;
    }

    method SetSelectedTable(t: Option<Table>)
      modifies this
      ensures selectedTable == t && tables == old(tables)
    {
      selectedTable := t;
    }

    method UpdateTable(tableId: string, p: TablePatch)
      modifies this
      ensures tables == UpdateTables(old(tables), tableId, p) && selectedTable == old(selectedTable)
    {
      tables := UpdateTables(tables, tableId, p);
    }
  }
}
