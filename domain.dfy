/**
 * The records of the marketplace (users, meals, orders and their snapshot
 * items, chat messages, wallet transactions, notifications) and the
 * two enumerations they use. Money is kept in integer cents, ids and
 * timestamps are natural numbers (milliseconds for timestamps).
 */
module Domain {

  datatype Option<+T> = None | Some(value: T) {
    function GetOr(default: T): T {
      match this
      case Some(v) => v
      case None => default
    }
  }

  /** The errors the service throws, one per distinct message. */
  datatype Error =
    | WrongPassword        // login: a password was given and differs
    | UnknownEmail         // login: no user with that email
    | EmailTaken           // register: the email is already used
    | UserNotFound         // updateUser, addPaymentMethod
    | InsufficientBalance  // requestWithdrawal (also for an unknown user)
    | MealNotFound         // updateMeal

  datatype Result<+T> = Ok(value: T) | Err(error: Error)

  datatype Role = Cliente | Cozinheiro

  datatype OrderStatus = Pendente | Confirmado | Preparando | Entrega | Entregue | Cancelado

  datatype PaymentKind = CreditCard | Pix | Cash

  datatype PaymentMethod = PaymentMethod(
    id: nat,
    kind: PaymentKind,
    last4: Option<string>,
    brand: Option<string>,
    displayLabel: string)

  datatype User = User(
    id: nat,
    name: string,
    email: string,
    password: Option<string>,
    role: Role,
    avatarUrl: Option<string>,
    address: Option<string>,
    balance: Option<int>,
    paymentMethods: Option<seq<PaymentMethod>>)

  /** A user's balance, where a user without one has 0. */
  function BalanceOf(u: User): int {
    u.balance.GetOr(0)
  }

  datatype Meal = Meal(
    id: nat,
    cookId: nat,
    cookName: string,
    title: string,
    description: string,
    price: int,
    imageUrl: string,
    available: bool)

  /** A line of the shopping cart; createOrder receives the cart in this shape. */
  datatype CartItem = CartItem(meal: Meal, qty: int)

  /** The frozen copy of a cart line that an order keeps. */
  datatype OrderItem = OrderItem(
    id: nat,
    mealId: nat,
    mealTitle: string,
    quantity: int,
    unitPrice: int)

  datatype Order = Order(
    id: nat,
    clientId: nat,
    clientName: string,
    cookId: nat,
    cookName: string,
    status: OrderStatus,
    total: int,
    createdAt: nat,
    items: seq<OrderItem>,
    paymentMethodLabel: Option<string>)

  datatype Message = Message(
    id: nat,
    orderId: nat,
    senderId: nat,
    senderName: string,
    text: string,
    timestamp: nat)

  datatype TransactionKind = Deposit | Withdrawal

  datatype TransactionStatus = Completed | Pending

  /** What a ledger entry's description says: a sale of an order, or a payout request. */
  datatype TransactionTopic = Sale(orderId: nat) | PayoutRequested

  datatype WalletTransaction = WalletTransaction(
    id: nat,
    kind: TransactionKind,
    amount: int,
    date: nat,
    status: TransactionStatus,
    topic: TransactionTopic)

  /** What a notification's text and link are about. */
  datatype NoticeTopic = NewOrder(orderId: nat) | StatusChanged(orderId: nat, status: OrderStatus)

  datatype Notification = Notification(
    id: nat,
    userId: nat,
    topic: NoticeTopic,
    read: bool,
    date: nat)

  /** The amount a cart line costs: price times quantity. */
  function LineTotal(item: CartItem): int {
    item.meal.price * item.qty
  }

  /** The cart total, `reduce((acc, item) => acc + item.meal.price * item.qty, 0)`. */
  function CartTotal(items: seq<CartItem>): (r: int)
    ensures (forall i :: 0 <= i < |items| ==> items[i].meal.price >= 0 && items[i].qty >= 0) ==> r >= 0
  {
    if items == [] then 0 else CartTotal(items[..|items| - 1]) + LineTotal(items[|items| - 1])
  }

  /** The sum of quantity times unit price over an order's snapshot. */
  function SnapshotTotal(items: seq<OrderItem>): int {
    if items == [] then 0
    else SnapshotTotal(items[..|items| - 1]) + items[|items| - 1].quantity * items[|items| - 1].unitPrice
  }

  /** Every order's total equals the sum over its snapshotted items. */
  ghost predicate TotalsMatchItems(orders: seq<Order>) {
    forall i :: 0 <= i < |orders| ==> orders[i].total == SnapshotTotal(orders[i].items)
  }

  lemma {:induction false} CartTotalAppend(items: seq<CartItem>, item: CartItem)
    ensures CartTotal(items + [item]) == CartTotal(items) + LineTotal(item)
  {
    assert (items + [item])[..|items|] == items;
  }

  /** The left-to-right total also adds up from the front: a line put first adds its price times quantity. */
  lemma {:induction false} CartTotalPrepend(item: CartItem, items: seq<CartItem>)
    ensures CartTotal([item] + items) == LineTotal(item) + CartTotal(items)
  {
    if items != [] {
      var init, last := items[..|items| - 1], items[|items| - 1];
      CartTotalPrepend(item, init);
      assert ([item] + items)[..|items|] == [item] + init;
    }
  }
}
