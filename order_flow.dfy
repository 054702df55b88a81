/**
 * The order lifecycle as the pages drive it. The service accepts any
 * status, so the transitions that happen are the ones the cook's
 * dashboard and the order page offer as buttons. Also here: the
 * dashboard's active/history split, its local status update and revenue
 * figures, and the order page's progress steps, receipt confirmation
 * and chat send guard.
 */
module OrderFlow {
  import opened Domain
  import opened Seqs

  // ---------------------------------------------------------------------
  // The status order
  // ---------------------------------------------------------------------

  /** Position along PENDENTE < CONFIRMADO < PREPARANDO < ENTREGA < ENTREGUE; CANCELADO is off the line. */
  function Rank(s: OrderStatus): (r: int)
    ensures s == Cancelado <==> r == -1
    ensures 0 <= r + 1 <= 5
  {
    match s
    case Pendente => 0
    case Confirmado => 1
    case Preparando => 2
    case Entrega => 3
    case Entregue => 4
    case Cancelado => -1
  }

  lemma RankInjective(s: OrderStatus, t: OrderStatus)
    ensures Rank(s) == Rank(t) ==> s == t
  {
  }

  // ---------------------------------------------------------------------
  // Wired transitions
  // ---------------------------------------------------------------------

  /** The button the cook's order card shows: Aceitar, Cozinhar, Enviar, or none. */
  function CookAction(s: OrderStatus): (r: Option<OrderStatus>)
    ensures r.Some? ==> Rank(r.value) == Rank(s) + 1 && Rank(s) >= 0
    ensures r.None? <==> s == Entrega || s == Entregue || s == Cancelado
  {
    match s
    case Pendente => Some(Confirmado)
    case Confirmado => Some(Preparando)
    case Preparando => Some(Entrega)
    case _ => None
  }

  /** The cook's transitions are exactly the three steps before delivery. */
  lemma CookActionSteps(s: OrderStatus, t: OrderStatus)
    ensures CookAction(s) == Some(t) <==>
              (s, t) == (Pendente, Confirmado) || (s, t) == (Confirmado, Preparando) || (s, t) == (Preparando, Entrega)
  {
  }

  /** The "Confirmar Recebimento" button is shown only to a client whose order is out for delivery. */
  predicate CanConfirmReceipt(viewer: Role, s: OrderStatus): (r: bool)
    ensures r <==> viewer == Cliente && Rank(s) == 3
    ensures r ==> CookAction(s).None?
  {
    viewer == Cliente && s == Entrega
  }

  /** A transition some page offers: the cook's button, or the client's receipt confirmation. */
  predicate WiredStep(viewer: Role, s: OrderStatus, t: OrderStatus) {
    (viewer == Cozinheiro && CookAction(s) == Some(t)) || (CanConfirmReceipt(viewer, s) && t == Entregue)
  }

  /** Every wired step moves exactly one place forward, and none starts from or leads to CANCELADO. */
  lemma WiredStepForward(viewer: Role, s: OrderStatus, t: OrderStatus)
    requires WiredStep(viewer, s, t)
    ensures Rank(t) == Rank(s) + 1
    ensures s != Cancelado && t != Cancelado
  {
  }

  /** A step some viewer can make. */
  predicate AnyWiredStep(s: OrderStatus, t: OrderStatus) {
    WiredStep(Cliente, s, t) || WiredStep(Cozinheiro, s, t)
  }

  /** A sequence of statuses each reached from the previous one by a wired step. */
  predicate WiredPath(path: seq<OrderStatus>) {
    forall k :: 0 < k < |path| ==> AnyWiredStep(path[k - 1], path[k])
  }

  /** Along a wired path the rank grows by one per step. */
  lemma {:induction false} StepsBetween(path: seq<OrderStatus>, i: nat, j: nat)
    requires WiredPath(path)
    requires i <= j < |path|
    ensures Rank(path[j]) == Rank(path[i]) + (j - i)
  {
    if i < j {
      StepsBetween(path, i, j - 1);
      assert AnyWiredStep(path[j - 1], path[j]);
      if WiredStep(Cliente, path[j - 1], path[j]) {
        WiredStepForward(Cliente, path[j - 1], path[j]);
      } else {
        WiredStepForward(Cozinheiro, path[j - 1], path[j]);
      }
    }
  }

  /** Along any wired path the status strictly advances, so no status repeats and no path is longer than five. */
  lemma {:induction false} WiredPathAdvances(path: seq<OrderStatus>)
    requires WiredPath(path)
    ensures forall i, j :: 0 <= i < j < |path| ==> Rank(path[i]) < Rank(path[j])
    ensures |path| <= 5
  {
    forall i, j | 0 <= i < j < |path| ensures Rank(path[i]) < Rank(path[j]) {
      StepsBetween(path, i, j);
    }
    if |path| > 1 {
      StepsBetween(path, 0, |path| - 1);
      assert AnyWiredStep(path[0], path[1]);
      assert path[0] != Cancelado;
    }
  }

  // ---------------------------------------------------------------------
  // The cook's dashboard
  // ---------------------------------------------------------------------

  predicate IsActive(o: Order) {
    o.status == Pendente || o.status == Confirmado || o.status == Preparando
  }

  predicate IsHistory(o: Order) {
    o.status == Entrega || o.status == Entregue || o.status == Cancelado
  }

  /** "Pedidos em Andamento": orders not yet sent out. */
  function ActiveOrders(orders: seq<Order>): (r: seq<Order>)
    ensures forall o :: o in r <==> o in orders && 0 <= Rank(o.status) <= 2
    ensures r == Filter(orders, IsActive)
  {
    Filter(orders, IsActive)
  }

  /** "Histórico Recente": orders sent out, delivered or cancelled. */
  function HistoryOrders(orders: seq<Order>): (r: seq<Order>)
    ensures forall o :: o in r <==> o in orders && (Rank(o.status) >= 3 || o.status == Cancelado)
    ensures r == Filter(orders, IsHistory)
  {
    Filter(orders, IsHistory)
  }

  /** Each status belongs to exactly one of the two lists. */
  lemma ActiveXorHistory(o: Order)
    ensures IsActive(o) != IsHistory(o)
  {
  }

  /** The two lists split the orders: together they hold each order exactly as often as the dashboard's list. */
  lemma {:induction false} ActiveHistoryPartition(orders: seq<Order>)
    ensures multiset(ActiveOrders(orders)) + multiset(HistoryOrders(orders)) == multiset(orders)
  {
    if orders != [] {
      var init, last := orders[..|orders| - 1], orders[|orders| - 1];
      ActiveHistoryPartition(init);
      assert orders == init + [last];
      ActiveXorHistory(last);
    }
  }

  /** handleStatusUpdate's local refresh: the orders with the id take the new status; nothing else changes. */
  function WithStatus(orders: seq<Order>, orderId: nat, status: OrderStatus): (r: seq<Order>)
    ensures |r| == |orders|
    ensures forall k :: 0 <= k < |orders| ==>
              r[k] == if orders[k].id == orderId then orders[k].(status := status) else orders[k]
  {
    seq(|orders|, k requires 0 <= k < |orders| =>
      if orders[k].id == orderId then orders[k].(status := status) else orders[k])
  }

  function SumTotals(orders: seq<Order>): int {
    if orders == [] then 0 else SumTotals(orders[..|orders| - 1]) + orders[|orders| - 1].total
  }

  predicate NotCancelled(o: Order) { o.status != Cancelado }

  /** "Faturamento Hoje": the totals of the orders that are not cancelled. */
  function Revenue(orders: seq<Order>): (r: int)
    ensures (forall k :: 0 <= k < |orders| ==> orders[k].status == Cancelado) ==> r == 0
    ensures (forall k :: 0 <= k < |orders| ==> orders[k].status != Cancelado) ==> r == SumTotals(orders)
  {
    CancelledFilterCases(orders);
    SumTotals(Filter(orders, NotCancelled))
  }

  /** With no cancelled order the revenue filter keeps everything; with only cancelled ones it keeps nothing. */
  lemma CancelledFilterCases(orders: seq<Order>)
    ensures (forall k :: 0 <= k < |orders| ==> orders[k].status == Cancelado) ==> Filter(orders, NotCancelled) == []
    ensures (forall k :: 0 <= k < |orders| ==> orders[k].status != Cancelado) ==> Filter(orders, NotCancelled) == orders
  {
    if forall k :: 0 <= k < |orders| ==> orders[k].status != Cancelado {
      FilterAll(orders, NotCancelled);
    }
    if forall k :: 0 <= k < |orders| ==> orders[k].status == Cancelado {
      FilterNone(orders, NotCancelled);
    }
  }

  lemma {:induction false} SumTotalsAppend(orders: seq<Order>, o: Order)
    ensures SumTotals(orders + [o]) == SumTotals(orders) + o.total
  {
    assert (orders + [o])[..|orders|] == orders;
  }

  /** Revenue counts every order's total exactly when the order is not cancelled. */
  lemma {:induction false} RevenueAppend(orders: seq<Order>, o: Order)
    ensures Revenue(orders + [o]) == Revenue(orders) + (if o.status != Cancelado then o.total else 0)
  {
    FilterAppend(orders, [o], NotCancelled);
    var f := Filter(orders, NotCancelled);
    if o.status != Cancelado {
      assert Filter([o], NotCancelled) == Filter([], NotCancelled) + [o];
      SumTotalsAppend(f, o);
    } else {
      assert Filter([o], NotCancelled) == Filter([], NotCancelled) + [];
      assert f + [] == f;
    }
  }

  lemma WithStatusAppend(orders: seq<Order>, o: Order, orderId: nat, status: OrderStatus)
    ensures WithStatus(orders + [o], orderId, status) ==
            WithStatus(orders, orderId, status) + [if o.id == orderId then o.(status := status) else o]
  {
  }

  /**
   * A step the cook's buttons make (from a non-cancelled status to a
   * non-cancelled one) leaves the revenue figure unchanged.
   */
  lemma {:induction false} WiredUpdateKeepsRevenue(orders: seq<Order>, orderId: nat, status: OrderStatus)
    requires status != Cancelado
    requires forall k :: 0 <= k < |orders| && orders[k].id == orderId ==> orders[k].status != Cancelado
    ensures Revenue(WithStatus(orders, orderId, status)) == Revenue(orders)
  {
    if orders != [] {
      var init, last := orders[..|orders| - 1], orders[|orders| - 1];
      var last' := if last.id == orderId then last.(status := status) else last;
      assert orders == init + [last];
      WiredUpdateKeepsRevenue(init, orderId, status);
      WithStatusAppend(init, last, orderId, status);
      RevenueAppend(init, last);
      RevenueAppend(WithStatus(init, orderId, status), last');
    }
  }

  /** "Ticket Médio": the mean total over all orders (cancelled ones too), shown only when there are orders. */
  function AverageTicket(orders: seq<Order>): (r: Option<real>)
    ensures r.Some? <==> |orders| > 0
    ensures r.Some? ==> r.value * (|orders| as real) == SumTotals(orders) as real
  {
    if |orders| > 0 then Some(SumTotals(orders) as real / |orders| as real) else None
  }

  // ---------------------------------------------------------------------
  // The order page
  // ---------------------------------------------------------------------

  /** Step "1. Confirmado" is lit. */
  predicate StepOne(s: OrderStatus): (r: bool)
    ensures r <==> Rank(s) >= 0
  {
    s in [Pendente, Confirmado, Preparando, Entrega, Entregue]
  }

  /** Step "2. Preparo" is lit. */
  predicate StepTwo(s: OrderStatus): (r: bool)
    ensures r <==> Rank(s) >= 2
  {
    s in [Preparando, Entrega, Entregue]
  }

  /** Step "3. Entrega" is lit. */
  predicate StepThree(s: OrderStatus): (r: bool)
    ensures r <==> Rank(s) >= 3
  {
    s in [Entrega, Entregue]
  }

  /** The steps light up in order: step one for every live order, two from PREPARANDO, three from ENTREGA. */
  lemma ProgressStepsNested(s: OrderStatus)
    ensures StepOne(s) <==> s != Cancelado
    ensures StepTwo(s) <==> Rank(s) >= 2
    ensures StepThree(s) <==> Rank(s) >= 3
    ensures StepThree(s) ==> StepTwo(s) && (StepTwo(s) ==> StepOne(s))
  {
  }

  /** A wired step never turns a lit step off. */
  lemma WiredStepKeepsProgress(viewer: Role, s: OrderStatus, t: OrderStatus)
    requires WiredStep(viewer, s, t)
    ensures (StepOne(s) ==> StepOne(t)) && (StepTwo(s) ==> StepTwo(t)) && (StepThree(s) ==> StepThree(t))
  {
    WiredStepForward(viewer, s, t);
    ProgressStepsNested(s);
    ProgressStepsNested(t);
  }

  /** confirmDelivery's local update: after the user confirms, the order shows ENTREGUE; otherwise it is kept. */
  function ConfirmDelivery(order: Order, confirmed: bool): (r: Order)
    ensures confirmed ==> r.status == Entregue && r == order.(status := Entregue)
    ensures !confirmed ==> r == order
  {
    if confirmed then order.(status := Entregue) else order
  }

  /** Confirming receipt of an order the page offers it for is a wired step. */
  lemma ConfirmDeliveryIsWired(order: Order, viewer: Role)
    requires CanConfirmReceipt(viewer, order.status)
    ensures WiredStep(viewer, order.status, ConfirmDelivery(order, true).status)
    ensures Rank(ConfirmDelivery(order, true).status) == Rank(order.status) + 1
  {
  }

  /** The characters `String.prototype.trim` removes (white space and line terminators). */
  predicate IsJsSpace(c: char) {
    c == ' ' || c == '\t' || c == '\n' || c == '\r' || c == '\U{000B}' || c == '\U{000C}' ||
    c == '\U{00A0}' || c == '\U{1680}' || ('\U{2000}' <= c <= '\U{200A}') ||
    c == '\U{2028}' || c == '\U{2029}' || c == '\U{202F}' || c == '\U{205F}' ||
    c == '\U{3000}' || c == '\U{FEFF}'
  }

  /** `s.trim()` with the leading white space removed only; it is empty exactly when trim is. */
  function TrimStart(s: string): (r: string)
    ensures r == "" || !IsJsSpace(r[0])
    ensures |r| <= |s| && r == s[|s| - |r|..]
    ensures forall k :: 0 <= k < |s| - |r| ==> IsJsSpace(s[k])
  {
    if s == "" || !IsJsSpace(s[0]) then s else TrimStart(s[1..])
  }

  /** trim leaves nothing exactly when every character is white space. */
  lemma {:induction false} TrimStartEmpty(s: string)
    ensures TrimStart(s) == "" <==> forall k :: 0 <= k < |s| ==> IsJsSpace(s[k])
  {
    if s != "" && IsJsSpace(s[0]) {
      TrimStartEmpty(s[1..]);
      assert forall k :: 1 <= k < |s| ==> s[k] == s[1..][k - 1];
    }
  }

  /** handleSendMessage's guard: there is a user and the text is not blank. */
  predicate ShouldSend(text: string, user: Option<User>): (r: bool)
    ensures r <==> user.Some? && exists k :: 0 <= k < |text| && !IsJsSpace(text[k])
  {
    TrimStartEmpty(text);
    TrimStart(text) != "" && user.Some?
  }

  /** The chat after handleSendMessage: the sent message at the end when the guard passes, unchanged otherwise. */
  function AfterSend(messages: seq<Message>, text: string, user: Option<User>, sent: Message): (r: seq<Message>)
    ensures ShouldSend(text, user) ==> r == messages + [sent] && r[|messages|] == sent
    ensures !ShouldSend(text, user) ==> r == messages
  {
    if ShouldSend(text, user) then messages + [sent] else messages
  }

  /** A blank message, or no user, leaves the chat as it was. */
  lemma BlankMessageIgnored(messages: seq<Message>, text: string, user: Option<User>, sent: Message)
    requires user.None? || forall k :: 0 <= k < |text| ==> IsJsSpace(text[k])
    ensures AfterSend(messages, text, user, sent) == messages
  {
    TrimStartEmpty(text);
  }
}
