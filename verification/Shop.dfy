/**
 * The tables of the shop and its routes as serial transactions: each yields the tables it commits,
 * or `None` when it raises and everything is undone. Stock movements are stated in closed form, for
 * all lines of an order at once; `Session` has the loops. Orders and payments are never deleted, so
 * their ids are their positions.
 */
module Shop {
  import opened Prelude
  import opened Sums
  import opened OrderGraph
  import opened Ledger

  type UserId = nat
  type ProductId = nat
  type OrderId = nat
  type Authority = nat

  datatype Product = Product(price: nat, discount: Option<nat>, active: bool)

  function UnitPrice(p: Product): nat {
    match p.discount
    case Some(d) => d
    case None => p.price
  }

  /** A row of `product_inventory`. */
  datatype Stock = Stock(total: int, reserved: int) {
    function Available(): int {
      total - reserved
    }

    /** The table's check constraints. */
    predicate ChecksHold() {
      0 <= reserved <= total
    }
  }

  /** A cart line, kept in the order with the unit price of that moment beside it. */
  datatype Line = Line(product: ProductId, quantity: nat)

  datatype Order = Order(
    user: UserId,
    status: OrderStatus,
    lines: seq<Line>,
    unitPrices: seq<nat>,
    total: nat,
    history: seq<HistoryEntry>,
    cancelStamped: bool)

  /** `Claimed` is the status `pending`. */
  datatype PaymentStatus = Initiated | Claimed | Verified | Failed

  datatype Payment = Payment(order: OrderId, user: UserId, amount: nat, status: PaymentStatus, authority: Authority)

  datatype MovementKind = Reserve | Release | Purchase | Restock | Adjust

  /** A row of `inventory_history`. */
  datatype Movement = Movement(product: ProductId, kind: MovementKind, quantity: int, order: Option<OrderId>)

  datatype Shop = Shop(
    products: map<ProductId, Product>,
    stock: map<ProductId, Stock>,
    movements: seq<Movement>,
    carts: map<UserId, seq<Line>>,
    orders: seq<Order>,
    payments: seq<Payment>,
    wallets: map<UserId, Wallet>)

  // ---- Lines -------------------------------------------------------------------------------

  function QuantityOf(p: ProductId): Line -> int {
    (l: Line) => if l.product == p then l.quantity else 0
  }

  /** How many units of `p` the lines ask for. */
  function Qty(lines: seq<Line>, p: ProductId): int {
    Sum(lines, QuantityOf(p))
  }

  predicate Listed(lines: seq<Line>, p: ProductId) {
    exists i :: 0 <= i < |lines| && lines[i].product == p
  }

  predicate DistinctProducts(lines: seq<Line>) {
    forall i, j :: 0 <= i < j < |lines| ==> lines[i].product != lines[j].product
  }

  predicate Stocked(stock: map<ProductId, Stock>, lines: seq<Line>) {
    forall i :: 0 <= i < |lines| ==> lines[i].product in stock
  }

  function LinesTotal(lines: seq<Line>, unitPrices: seq<nat>): nat
    requires |lines| == |unitPrices|
  {
    if lines == [] then 0
    else
      var last := |lines| - 1;
      LinesTotal(lines[..last], unitPrices[..last]) + unitPrices[last] * lines[last].quantity
  }

  /** The prices that apply now; a line without a product counts as zero. */
  function CurrentPrices(products: map<ProductId, Product>, lines: seq<Line>): (prices: seq<nat>)
    ensures |prices| == |lines|
  {
    seq(|lines|, i requires 0 <= i < |lines| =>
      if lines[i].product in products then UnitPrice(products[lines[i].product]) else 0)
  }

  // ---- Stock movements ---------------------------------------------------------------------

  function MoveRow(kind: MovementKind, row: Stock, quantity: int): Stock {
    match kind
    case Reserve => row.(reserved := row.reserved + quantity)
    case Release => row.(reserved := Max(0, row.reserved - quantity))
    case Purchase => Stock(Max(0, row.total - quantity), Max(0, row.reserved - quantity))
    case Restock => row.(total := row.total + quantity)
    case Adjust => row.(total := row.total + quantity)
  }

  /** Every listed product moves once, by all the units its lines ask for. */
  function MoveLines(kind: MovementKind, stock: map<ProductId, Stock>, lines: seq<Line>): map<ProductId, Stock> {
    map p | p in stock :: if Listed(lines, p) then MoveRow(kind, stock[p], Qty(lines, p)) else stock[p]
  }

  function LineMovements(kind: MovementKind, lines: seq<Line>, order: OrderId): seq<Movement> {
    seq(|lines|, i requires 0 <= i < |lines| =>
      Movement(lines[i].product, kind, lines[i].quantity, Some(order)))
  }

  // ---- Cart --------------------------------------------------------------------------------

  function CartOf(carts: map<UserId, seq<Line>>, user: UserId): seq<Line> {
    if user in carts then carts[user] else []
  }

  function AvailableStock(stock: map<ProductId, Stock>, p: ProductId): int {
    if p in stock then Max(0, stock[p].Available()) else 0
  }

  predicate OnSale(products: map<ProductId, Product>, p: ProductId) {
    p in products && products[p].active
  }

  /** The cart row of a product, by the unique constraint on (cart, product). */
  function FindLine(cart: seq<Line>, p: ProductId): (found: Option<nat>)
    ensures found.Some? ==> found.value < |cart| && cart[found.value].product == p
    ensures found.None? ==> !Listed(cart, p)
  {
    if cart == [] then None
    else
      var last := |cart| - 1;
      if cart[last].product == p then Some(last) else FindLine(cart[..last], p)
  }

  function PutLine(cart: seq<Line>, line: Line): seq<Line> {
    match FindLine(cart, line.product)
    case Some(i) => cart[i := line]
    case None => cart + [line]
  }

  function DropLine(cart: seq<Line>, p: ProductId): seq<Line> {
    match FindLine(cart, p)
    case Some(i) => cart[..i] + cart[i + 1..]
    case None => cart
  }

  function AddItemTx(s: Shop, user: UserId, p: ProductId, quantity: nat): Option<Shop> {
    var cart := CartOf(s.carts, user);
    var existing := FindLine(cart, p);
    var wanted := quantity + if existing.Some? then cart[existing.value].quantity else 0;
    if !(1 <= quantity <= 99) || !OnSale(s.products, p) || wanted > AvailableStock(s.stock, p) then None
    else Some(s.(carts := s.carts[user := PutLine(cart, Line(p, wanted))]))
  }

  function UpdateItemTx(s: Shop, user: UserId, p: ProductId, quantity: nat): Option<Shop> {
    var cart := CartOf(s.carts, user);
    if !(1 <= quantity <= 99) || p !in s.products || quantity > AvailableStock(s.stock, p) || FindLine(cart, p).None?
    then None
    else Some(s.(carts := s.carts[user := PutLine(cart, Line(p, quantity))]))
  }

  // ---- Orders ------------------------------------------------------------------------------

  /** When checkout goes through: a cart, every product on sale and in stock for all its lines together. */
  predicate CanCheckout(s: Shop, user: UserId) {
    var cart := CartOf(s.carts, user);
    && cart != []
    && forall i :: 0 <= i < |cart| ==>
         && OnSale(s.products, cart[i].product)
         && cart[i].product in s.stock
         && Qty(cart, cart[i].product) <= s.stock[cart[i].product].Available()
  }

  function PlacedOrder(products: map<ProductId, Product>, user: UserId, cart: seq<Line>): Order {
    var prices := CurrentPrices(products, cart);
    Order(user, AwaitingPayment, cart, prices, LinesTotal(cart, prices),
          [HistoryEntry(Pending, AwaitingPayment)], false)
  }

  function CheckoutTx(s: Shop, user: UserId): Option<Shop> {
    var cart := CartOf(s.carts, user);
    if !CanCheckout(s, user) then None
    else Some(s.(
      stock := MoveLines(Reserve, s.stock, cart),
      movements := s.movements + LineMovements(Reserve, cart, |s.orders|),
      orders := s.orders + [PlacedOrder(s.products, user, cart)],
      carts := s.carts[user := []]))
  }

  /** `_transition` past its guard. */
  function MovedOrder(o: Order, to: OrderStatus): Order {
    o.(status := to,
       history := o.history + [HistoryEntry(o.status, to)],
       cancelStamped := o.cancelStamped || to == Cancelled)
  }

  /** An order changes status and all its lines move in stock. */
  function MoveOrderTx(s: Shop, id: OrderId, to: OrderStatus, kind: MovementKind): Option<Shop> {
    if id >= |s.orders| then None
    else
      var o := s.orders[id];
      if !Allowed(o.status, to) || !Stocked(s.stock, o.lines) then None
      else Some(s.(
        stock := MoveLines(kind, s.stock, o.lines),
        movements := s.movements + LineMovements(kind, o.lines, id),
        orders := s.orders[id := MovedOrder(o, to)]))
  }

  function MarkPaidTx(s: Shop, id: OrderId): Option<Shop> {
    MoveOrderTx(s, id, Paid, Purchase)
  }

  function MarkPaymentFailedTx(s: Shop, id: OrderId): Option<Shop> {
    MoveOrderTx(s, id, PaymentFailed, Release)
  }

  function AdminMoveTx(s: Shop, id: OrderId, to: OrderStatus): Option<Shop> {
    if id >= |s.orders| || !Allowed(s.orders[id].status, to) then None
    else Some(s.(orders := s.orders[id := MovedOrder(s.orders[id], to)]))
  }

  function CancelTx(s: Shop, id: OrderId, user: UserId, privileged: bool): Option<Shop> {
    if id >= |s.orders| || (s.orders[id].user != user && !privileged) then None
    else if s.orders[id].status in {Pending, AwaitingPayment, Paid} then MoveOrderTx(s, id, Cancelled, Release)
    else AdminMoveTx(s, id, Cancelled)
  }

  // ---- Wallet ------------------------------------------------------------------------------

  function PostTx(s: Shop, user: UserId, kind: EntryKind, amount: nat, order: Option<OrderId>): Option<Shop> {
    match Posted(WalletOf(s.wallets, user), kind, amount, order)
    case None => None
    case Some(w) => Some(s.(wallets := s.wallets[user := w]))
  }

  /** The admin status route: a move to `refunded` pays the total into the customer's wallet. */
  function UpdateStatusTx(s: Shop, id: OrderId, to: OrderStatus): Option<Shop> {
    match AdminMoveTx(s, id, to)
    case None => None
    case Some(moved) =>
      if to != Refunded then Some(moved)
      else PostTx(moved, s.orders[id].user, Refund, s.orders[id].total, Some(id))
  }

  // ---- Payments ----------------------------------------------------------------------------

  datatype Verification = Accepted | Rejected | Unavailable

  function FindPayment(payments: seq<Payment>, a: Authority): (found: Option<nat>)
    ensures found.Some? ==> found.value < |payments| && payments[found.value].authority == a
    ensures found.None? ==> forall i :: 0 <= i < |payments| ==> payments[i].authority != a
  {
    if payments == [] then None
    else
      var last := |payments| - 1;
      if payments[last].authority == a then Some(last) else FindPayment(payments[..last], a)
  }

  /** The gateway's answer to a payment request: without a configuration it is never asked. */
  datatype Gateway = NotConfigured | Unreachable | Handed(authority: Authority)

  /** `gateway` hands out an authority if it answers; authorities are unique in the table. */
  function InitPaymentTx(s: Shop, user: UserId, id: OrderId, gateway: Gateway): Option<Shop> {
    if id >= |s.orders| || s.orders[id].user != user then None
    else if s.orders[id].status !in {AwaitingPayment, PaymentFailed} then None
    else if !gateway.Handed? || FindPayment(s.payments, gateway.authority).Some? then None
    else Some(s.(payments := s.payments + [Payment(id, user, s.orders[id].total, Initiated, gateway.authority)]))
  }

  function CallbackTx(s: Shop, a: Authority, gatewayOk: bool, v: Verification): Option<Shop> {
    match FindPayment(s.payments, a)
    case None => None
    case Some(i) =>
      var p := s.payments[i];
      if p.status != Initiated then Some(s)
      else if gatewayOk && v.Unavailable? then None
      else if gatewayOk && v.Accepted? then
        MarkPaidTx(s.(payments := s.payments[i := p.(status := Verified)]), p.order)
      else
        MarkPaymentFailedTx(s.(payments := s.payments[i := p.(status := Failed)]), p.order)
  }

  // ---- Stock keeping -----------------------------------------------------------------------

  function RestockTx(s: Shop, p: ProductId, delta: int): Option<Shop> {
    if p !in s.stock then None
    else
      var row := MoveRow(Restock, s.stock[p], delta);
      if !row.ChecksHold() then None
      else Some(s.(stock := s.stock[p := row], movements := s.movements + [Movement(p, Restock, delta, None)]))
  }

  function AdjustTx(s: Shop, p: ProductId, delta: int): Option<Shop> {
    if p !in s.stock then None
    else
      var row := MoveRow(Adjust, s.stock[p], delta);
      if row.total < row.reserved || !row.ChecksHold() then None
      else Some(s.(stock := s.stock[p := row], movements := s.movements + [Movement(p, Adjust, delta, None)]))
  }

  /** The price checks of creating and updating a product. */
  predicate PricesHold(p: Product) {
    0 < p.price && (p.discount.Some? ==> p.discount.value < p.price)
  }

  function CreateProductTx(s: Shop, p: ProductId, product: Product, initial: nat): Option<Shop> {
    if p in s.products || p in s.stock || !PricesHold(product) then None
    else Some(s.(products := s.products[p := product], stock := s.stock[p := Stock(initial, 0)]))
  }

  function UpdateProductTx(s: Shop, p: ProductId, product: Product): Option<Shop> {
    if p !in s.products || !PricesHold(product) then None
    else Some(s.(products := s.products[p := product]))
  }

  // ---- Runs --------------------------------------------------------------------------------

  datatype Event =
    | AddItem(user: UserId, product: ProductId, quantity: nat)
    | UpdateItem(user: UserId, product: ProductId, quantity: nat)
    | RemoveItem(user: UserId, product: ProductId)
    | ClearCart(user: UserId)
    | Checkout(user: UserId)
    | InitPayment(user: UserId, order: OrderId, gateway: Gateway)
    | Callback(authority: Authority, gatewayOk: bool, verification: Verification)
    | CancelOrder(order: OrderId, user: UserId, privileged: bool)
    | UpdateStatus(order: OrderId, to: OrderStatus)
    | DepositMoney(user: UserId, amount: nat)
    | CreditByAdmin(user: UserId, amount: nat)
    | DebitByAdmin(user: UserId, amount: nat)
    | OpenWallet(user: UserId)
    | RestockProduct(product: ProductId, delta: int)
    | AdjustProduct(product: ProductId, delta: int)
    | CreateProduct(product: ProductId, fields: Product, initial: nat)
    | UpdateProduct(product: ProductId, fields: Product)

  function Transaction(s: Shop, e: Event): Option<Shop> {
    match e
    case AddItem(u, p, q) => AddItemTx(s, u, p, q)
    case UpdateItem(u, p, q) => UpdateItemTx(s, u, p, q)
    case RemoveItem(u, p) => Some(s.(carts := s.carts[u := DropLine(CartOf(s.carts, u), p)]))
    case ClearCart(u) => Some(s.(carts := s.carts[u := []]))
    case Checkout(u) => CheckoutTx(s, u)
    case InitPayment(u, o, g) => InitPaymentTx(s, u, o, g)
    case Callback(a, ok, v) => CallbackTx(s, a, ok, v)
    case CancelOrder(o, u, priv) => CancelTx(s, o, u, priv)
    case UpdateStatus(o, to) => UpdateStatusTx(s, o, to)
    case DepositMoney(u, n) => if n == 0 then None else PostTx(s, u, Deposit, n, None)
    case CreditByAdmin(u, n) => if n == 0 then None else PostTx(s, u, AdminCredit, n, None)
    case DebitByAdmin(u, n) => if n == 0 then None else PostTx(s, u, AdminDebit, n, None)
    case OpenWallet(u) => Some(s.(wallets := s.wallets[u := WalletOf(s.wallets, u)]))
    case RestockProduct(p, d) => RestockTx(s, p, d)
    case AdjustProduct(p, d) => AdjustTx(s, p, d)
    case CreateProduct(p, f, n) => CreateProductTx(s, p, f, n)
    case UpdateProduct(p, f) => UpdateProductTx(s, p, f)
  }

  /** A request that raises leaves the committed tables as they were. */
  function Step(s: Shop, e: Event): Shop {
    match Transaction(s, e)
    case Some(t) => t
    case None => s
  }

  function Run(s: Shop, events: seq<Event>): Shop {
    if events == [] then s else Step(Run(s, events[..|events| - 1]), events[|events| - 1])
  }

  const EMPTY_SHOP := Shop(map[], map[], [], map[], [], [], map[])
}
