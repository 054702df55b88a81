/**
 * The in-memory marketplace store behind the pages: six tables (users,
 * meals, orders, wallet transactions, notifications, chat messages) and
 * the service operations over them. Each table is a field of `Store`;
 * an operation that writes a table reassigns that field, and one that
 * throws returns `Err` and leaves every table as it was.
 */
module MockService {
  import opened Domain
  import opened Seqs

  // ---------------------------------------------------------------------
  // Record predicates used with find / findIndex / filter
  // ---------------------------------------------------------------------

  function UserIdIs(id: nat): User -> bool { (u: User) => u.id == id }
  function EmailIs(email: string): User -> bool { (u: User) => u.email == email }
  function CookIdIs(id: nat): User -> bool { (u: User) => u.id == id && u.role == Cozinheiro }
  function MealIdIs(id: nat): Meal -> bool { (m: Meal) => m.id == id }
  function MealIdIsNot(id: nat): Meal -> bool { (m: Meal) => m.id != id }
  function MealOfCook(cookId: nat): Meal -> bool { (m: Meal) => m.cookId == cookId }
  function OrderIdIs(id: nat): Order -> bool { (o: Order) => o.id == id }
  function OrderOfClient(id: nat): Order -> bool { (o: Order) => o.clientId == id }
  function OrderOfCook(id: nat): Order -> bool { (o: Order) => o.cookId == id }
  function NotificationIdIs(id: nat): Notification -> bool { (n: Notification) => n.id == id }
  function NotificationFor(userId: nat): Notification -> bool { (n: Notification) => n.userId == userId }
  function MessageOfOrder(orderId: nat): Message -> bool { (m: Message) => m.orderId == orderId }

  // ---------------------------------------------------------------------
  // Accounts
  // ---------------------------------------------------------------------

  /** `email.split('@')[0]`: everything before the first '@', or all of it. */
  function LocalPart(email: string): (r: string)
    ensures '@' !in r
    ensures r <= email
    ensures |r| < |email| ==> email[|r|] == '@'
  {
    if email == [] || email[0] == '@' then [] else [email[0]] + LocalPart(email[1..])
  }

  /** The generated avatar address for a display name. */
  function AvatarFor(name: string): string {
    "https://ui-avatars.com/api/?name=" + name + "&background=10b981&color=fff"
  }

  /** The account `register` creates; an empty name falls back to the email's local part. */
  function NewAccount(name: string, email: string, password: string, role: Role, now: nat): (r: User)
    ensures r.id == now && r.email == email && r.role == role && r.password == Some(password)
    ensures r.balance.None? && r.address.None? && r.paymentMethods.None?
    ensures name != "" ==> r.name == name
    ensures r.name == "" <==> name == "" && (email == "" || email[0] == '@')
    ensures r.avatarUrl == Some(AvatarFor(if name == "" then email else name))
  {
    User(now, if name == "" then LocalPart(email) else name, email, Some(password), role,
         Some(AvatarFor(if name == "" then email else name)), None, None, None)
  }

  /** The synthetic address under which a social provider's account is kept. */
  function SocialEmail(provider: string): string {
    "user_" + provider + "@social.com"
  }

  /** The local part of `a@b` is `a` when `a` has no '@': register's fallback name for such an email. */
  lemma {:induction false} LocalPartOfJoin(a: string, b: string)
    requires '@' !in a
    ensures LocalPart(a + "@" + b) == a
  {
    if a != [] {
      assert (a + "@" + b)[1..] == a[1..] + "@" + b;
      LocalPartOfJoin(a[1..], b);
    } else {
      assert (a + "@" + b)[0] == '@';
    }
  }

  /** The account `socialLogin` creates for a provider it has not seen. */
  function SocialAccount(provider: string, now: nat): (r: User)
    ensures r.id == now && r.email == SocialEmail(provider) && r.role == Cliente && r.password.None?
    ensures r.balance.None? && r.address.None? && r.paymentMethods.None?
    ensures r.avatarUrl == Some(AvatarFor(provider))
    ensures r.name == "Usu\U{00E1}rio " + provider
  {
    User(now, "Usu\U{00E1}rio " + provider, SocialEmail(provider), None, Cliente,
         Some(AvatarFor(provider)), None, None, None)
  }

  /**
   * socialLogin on a users table: the users table afterwards and the
   * account returned. The account is looked up by its synthetic email
   * and created (appended) only when missing.
   */
  function SignInSocial(users: seq<User>, provider: string, now: nat): (r: (seq<User>, User))
    ensures r.1.email == SocialEmail(provider)
    ensures r.1 in r.0
    ensures FindIndex(users, EmailIs(SocialEmail(provider))).Some? ==>
              r.0 == users && r.1 == users[FindIndex(users, EmailIs(SocialEmail(provider))).value]
    ensures FindIndex(users, EmailIs(SocialEmail(provider))).None? ==>
              r.0 == users + [SocialAccount(provider, now)] && r.1.role == Cliente
  {
    match FindIndex(users, EmailIs(SocialEmail(provider)))
    case Some(i) => (users, users[i])
    case None => (users + [SocialAccount(provider, now)], SocialAccount(provider, now))
  }

  /** A second social login with the same provider returns the same account and adds nothing. */
  lemma SignInSocialIdempotent(users: seq<User>, provider: string, now1: nat, now2: nat)
    ensures var (after, u) := SignInSocial(users, provider, now1);
            SignInSocial(after, provider, now2) == (after, u)
  {
    var email := SocialEmail(provider);
    var (after, u) := SignInSocial(users, provider, now1);
    if FindIndex(users, EmailIs(email)).None? {
      assert EmailIs(email)(after[|users|]);
      assert forall t :: 0 <= t < |users| ==> !EmailIs(email)(after[t]) by {
        assert forall t :: 0 <= t < |users| ==> after[t] == users[t];
      }
    }
  }

  /** A partial user record: `None` marks a field the update leaves out. */
  datatype UserPatch = UserPatch(
    id: Option<nat>,
    name: Option<string>,
    email: Option<string>,
    password: Option<string>,
    role: Option<Role>,
    avatarUrl: Option<string>,
    address: Option<string>,
    balance: Option<int>,
    paymentMethods: Option<seq<PaymentMethod>>)

  const EmptyUserPatch := UserPatch(None, None, None, None, None, None, None, None, None)

  /** `{ ...u, ...patch }`: the patch's fields win, every other field is kept. */
  function MergeUser(u: User, p: UserPatch): (r: User)
    ensures r.id == p.id.GetOr(u.id) && r.name == p.name.GetOr(u.name) && r.email == p.email.GetOr(u.email)
    ensures r.role == p.role.GetOr(u.role)
    ensures r.password == if p.password.Some? then p.password else u.password
    ensures r.balance == if p.balance.Some? then p.balance else u.balance
    ensures r.paymentMethods == if p.paymentMethods.Some? then p.paymentMethods else u.paymentMethods
    ensures r.avatarUrl == if p.avatarUrl.Some? then p.avatarUrl else u.avatarUrl
    ensures r.address == if p.address.Some? then p.address else u.address
  {
    User(
      p.id.GetOr(u.id),
      p.name.GetOr(u.name),
      p.email.GetOr(u.email),
      if p.password.Some? then p.password else u.password,
      p.role.GetOr(u.role),
      if p.avatarUrl.Some? then p.avatarUrl else u.avatarUrl,
      if p.address.Some? then p.address else u.address,
      if p.balance.Some? then p.balance else u.balance,
      if p.paymentMethods.Some? then p.paymentMethods else u.paymentMethods)
  }

  /** Merging an empty patch (what the profile page sends to refresh) changes nothing, and merging twice is merging once. */
  lemma MergeUserLaws(u: User, p: UserPatch)
    ensures MergeUser(u, EmptyUserPatch) == u
    ensures MergeUser(MergeUser(u, p), p) == MergeUser(u, p)
  {
  }

  // ---------------------------------------------------------------------
  // Wallet
  // ---------------------------------------------------------------------

  /** The user with `amount` added to the balance (a missing balance counts as 0). */
  function Credit(u: User, amount: int): (r: User)
    ensures BalanceOf(r) == BalanceOf(u) + amount && r.balance.Some?
    ensures r == u.(balance := r.balance)
  {
    u.(balance := Some(BalanceOf(u) + amount))
  }

  /** The user with `amount` taken from the balance (a missing balance counts as 0). */
  function Debit(u: User, amount: int): (r: User)
    ensures BalanceOf(r) == BalanceOf(u) - amount && r.balance.Some?
    ensures r == u.(balance := r.balance)
  {
    u.(balance := Some(BalanceOf(u) - amount))
  }

  ghost predicate NonNegativeBalances(users: seq<User>) {
    forall k :: 0 <= k < |users| ==> BalanceOf(users[k]) >= 0
  }

  /** The ledger entry a payout request writes. */
  function PayoutEntry(amount: int, now: nat): WalletTransaction {
    WalletTransaction(now, Withdrawal, amount, now, Pending, PayoutRequested)
  }

  /** The ledger entry a sale writes. */
  function SaleEntry(orderId: nat, amount: int, now: nat): WalletTransaction {
    WalletTransaction(now, Deposit, amount, now, Completed, Sale(orderId))
  }

  // ---------------------------------------------------------------------
  // Meals
  // ---------------------------------------------------------------------

  /** The fields a cook fills in for a new meal (`Omit<Meal, 'id' | 'cookName'>`). */
  datatype MealDraft = MealDraft(
    cookId: nat,
    title: string,
    description: string,
    price: int,
    imageUrl: string,
    available: bool)

  datatype MealPatch = MealPatch(
    id: Option<nat>,
    cookId: Option<nat>,
    cookName: Option<string>,
    title: Option<string>,
    description: Option<string>,
    price: Option<int>,
    imageUrl: Option<string>,
    available: Option<bool>)

  /** `{ ...m, ...patch }` for meals. */
  function MergeMeal(m: Meal, p: MealPatch): (r: Meal)
    ensures r.id == p.id.GetOr(m.id) && r.cookId == p.cookId.GetOr(m.cookId)
    ensures r.cookName == p.cookName.GetOr(m.cookName) && r.title == p.title.GetOr(m.title)
    ensures r.description == p.description.GetOr(m.description) && r.price == p.price.GetOr(m.price)
    ensures r.imageUrl == p.imageUrl.GetOr(m.imageUrl) && r.available == p.available.GetOr(m.available)
  {
    Meal(p.id.GetOr(m.id), p.cookId.GetOr(m.cookId), p.cookName.GetOr(m.cookName),
         p.title.GetOr(m.title), p.description.GetOr(m.description), p.price.GetOr(m.price),
         p.imageUrl.GetOr(m.imageUrl), p.available.GetOr(m.available))
  }

  /**
   * toggleMealAvailability on the meals table: the first meal with the id
   * has its `available` flag flipped; an unknown id leaves the table alone.
   */
  function Toggled(meals: seq<Meal>, mealId: nat): (r: seq<Meal>)
    ensures |r| == |meals|
    ensures FindIndex(meals, MealIdIs(mealId)).None? ==> r == meals
    ensures FindIndex(meals, MealIdIs(mealId)).Some? ==>
              var i := FindIndex(meals, MealIdIs(mealId)).value;
              && r[i] == meals[i].(available := !meals[i].available)
              && forall k :: 0 <= k < |meals| && k != i ==> r[k] == meals[k]
  {
    match FindIndex(meals, MealIdIs(mealId))
    case None => meals
    case Some(i) => meals[i := meals[i].(available := !meals[i].available)]
  }

  /** Toggling twice restores the meals table. */
  lemma ToggledTwice(meals: seq<Meal>, mealId: nat)
    ensures Toggled(Toggled(meals, mealId), mealId) == meals
  {
    var once := Toggled(meals, mealId);
    var f := FindIndex(meals, MealIdIs(mealId));
    if f.Some? {
      var i := f.value;
      assert MealIdIs(mealId)(once[i]);
      assert forall t :: 0 <= t < i ==> once[t] == meals[t];
      assert FindIndex(once, MealIdIs(mealId)) == Some(i);
    }
  }

  /** Deleting the same meal twice is deleting it once. */
  lemma DeleteMealIdempotent(meals: seq<Meal>, mealId: nat)
    ensures Filter(Filter(meals, MealIdIsNot(mealId)), MealIdIsNot(mealId)) == Filter(meals, MealIdIsNot(mealId))
  {
    FilterIdempotent(meals, MealIdIsNot(mealId));
  }

  /** The cook name createMeal stores: the name of the first user with the cook's id, or "Unknown". */
  function CookNameFor(users: seq<User>, cookId: nat): (r: string)
    ensures Find(users, UserIdIs(cookId)).Some? && Find(users, UserIdIs(cookId)).value.name != "" ==>
              r == Find(users, UserIdIs(cookId)).value.name
    ensures Find(users, UserIdIs(cookId)).None? ==> r == "Unknown"
    ensures Find(users, UserIdIs(cookId)).Some? && Find(users, UserIdIs(cookId)).value.name == "" ==> r == "Unknown"
    ensures r != ""
  {
    match Find(users, UserIdIs(cookId))
    case Some(u) => if u.name == "" then "Unknown" else u.name
    case None => "Unknown"
  }

  // ---------------------------------------------------------------------
  // Orders
  // ---------------------------------------------------------------------

  /** The frozen snapshot of the cart: item ids 1..n, each copying the meal's id, title and price and the line's quantity. */
  function Snapshot(items: seq<CartItem>): (r: seq<OrderItem>)
    ensures |r| == |items|
    ensures forall k :: 0 <= k < |r| ==>
              r[k] == OrderItem(k + 1, items[k].meal.id, items[k].meal.title, items[k].qty, items[k].meal.price)
  {
    seq(|items|, k requires 0 <= k < |items| =>
      OrderItem(k + 1, items[k].meal.id, items[k].meal.title, items[k].qty, items[k].meal.price))
  }

  /** The snapshot of a cart adds up to the cart's total, so an order's total equals the sum over its items. */
  lemma {:induction false} SnapshotTotalIsCartTotal(items: seq<CartItem>)
    ensures SnapshotTotal(Snapshot(items)) == CartTotal(items)
  {
    if items != [] {
      var init := items[..|items| - 1];
      SnapshotTotalIsCartTotal(init);
      assert Snapshot(items)[..|items| - 1] == Snapshot(init);
    }
  }

  /** A missing or nameless user falls back to `fallback` (`user?.name || fallback`). */
  function NameOr(u: Option<User>, fallback: string): (r: string)
    ensures u.Some? && u.value.name != "" ==> r == u.value.name
    ensures u.None? || u.value.name == "" ==> r == fallback
    ensures fallback != "" ==> r != ""
  {
    if u.Some? && u.value.name != "" then u.value.name else fallback
  }

  /** The order createOrder records. The id is 10000 plus the random draw. */
  function PlacedOrder(users: seq<User>, clientId: nat, cookId: nat, items: seq<CartItem>,
                       paymentLabel: string, draw: nat, now: nat): (o: Order)
    requires draw < 90000
    ensures 10000 <= o.id <= 99999
    ensures o.status == Pendente && o.clientId == clientId && o.cookId == cookId
    ensures o.total == CartTotal(items) == SnapshotTotal(o.items)
    ensures o.items == Snapshot(items)
    ensures o.paymentMethodLabel == Some(paymentLabel) && o.createdAt == now
    ensures o.clientName == NameOr(Find(users, UserIdIs(clientId)), "Cliente")
    ensures o.cookName == NameOr(Find(users, UserIdIs(cookId)), "Cozinheiro")
    ensures o.clientName != "" && o.cookName != ""
  {
    SnapshotTotalIsCartTotal(items);
    Order(draw + 10000, clientId, NameOr(Find(users, UserIdIs(clientId)), "Cliente"),
          cookId, NameOr(Find(users, UserIdIs(cookId)), "Cozinheiro"),
          Pendente, CartTotal(items), now, Snapshot(items), Some(paymentLabel))
  }

  /** The user an order's status change is announced to: the cook on delivery, the client otherwise. */
  function StatusRecipient(o: Order, status: OrderStatus): (r: nat)
    ensures status == Entregue ==> r == o.cookId
    ensures status != Entregue ==> r == o.clientId
  {
    if status == Entregue then o.cookId else o.clientId
  }

  // ---------------------------------------------------------------------
  // Seed data
  // ---------------------------------------------------------------------

  const SeedClient := User(1, "Jo\U{00E3}o Cliente", "cliente@marmita.com", Some("123"), Cliente,
    Some("https://i.pravatar.cc/150?u=1"), Some("Rua das Flores, 123"), None,
    Some([PaymentMethod(1, CreditCard, Some("4242"), Some("mastercard"), "Mastercard **** 4242")]))

  const SeedCook := User(2, "Maria Chef", "chef@marmita.com", Some("123"), Cozinheiro,
    Some("https://i.pravatar.cc/150?u=2"), Some("Av. Gastronomia, 500"), Some(15050), None)

  const SeedMeals := [
    Meal(1, 2, "Maria Chef", "Feijoada Fit",
         "Arroz integral, feij\U{00E3}o preto leve, couve e farofa de aveia.", 2890,
         "https://images.unsplash.com/photo-1574484284008-59d73054596d?w=500&q=80", true),
    Meal(2, 2, "Maria Chef", "Bowl de Salm\U{00E3}o",
         "Salm\U{00E3}o grelhado, quinoa, abacate e mix de folhas.", 3550,
         "https://images.unsplash.com/photo-1546069901-ba9599a7e63c?w=500&q=80", true)
  ]

  function SeedOrder(now: nat): Order {
    Order(101, 1, "Jo\U{00E3}o Cliente", 2, "Maria Chef", Entregue, 2890,
          if now >= 86400000 then now - 86400000 else 0,
          [OrderItem(1, 1, "Feijoada Fit", 1, 2890)], Some("Mastercard **** 4242"))
  }

  // ---------------------------------------------------------------------
  // The store
  // ---------------------------------------------------------------------

  class Store {
    var users: seq<User>
    var meals: seq<Meal>
    var orders: seq<Order>
    var transactions: seq<WalletTransaction>
    var notifications: seq<Notification>
    var messages: seq<Message>

    /** The tables as first read: two users, two meals, one delivered order, empty ledgers. */
    constructor Seeded(now: nat)
      ensures users == [SeedClient, SeedCook] && meals == SeedMeals && orders == [SeedOrder(now)]
      ensures transactions == [] && notifications == [] && messages == []
      ensures TotalsMatchItems(orders) && NonNegativeBalances(users)
    {
      users := [SeedClient, SeedCook];
      meals := SeedMeals;
      orders := [SeedOrder(now)];
      transactions := [];
      notifications := [];
      messages := [];
    }

    // ----- Auth & user -----

    /**
     * login: the first user with the email; an unknown email fails, and a
     * given (non-empty) password must equal the stored one.
     */
    function Login(email: string, password: string): (r: Result<User>)
      reads this
      ensures r == Err(UnknownEmail) <==> forall k :: 0 <= k < |users| ==> users[k].email != email
      ensures r.Ok? ==> r.value in users && r.value.email == email
      ensures r.Ok? ==> r.value == users[FindIndex(users, EmailIs(email)).value]
      ensures r.Ok? ==> password == "" || r.value.password == Some(password)
      ensures r.Err? ==> r.error == UnknownEmail || r.error == WrongPassword
      ensures r == Err(WrongPassword) <==>
                password != "" &&
                (exists k :: 0 <= k < |users| && users[k].email == email &&
                   (forall j :: 0 <= j < k ==> users[j].email != email) && users[k].password != Some(password))
    {
      match Find(users, EmailIs(email))
      case None => Err(UnknownEmail)
      case Some(u) => if password != "" && u.password != Some(password) then Err(WrongPassword) else Ok(u)
    }

    method Register(name: string, email: string, password: string, role: Role, now: nat) returns (r: Result<User>)
      modifies this
      ensures r == Err(EmailTaken) <==> exists k :: 0 <= k < |old(users)| && old(users)[k].email == email
      ensures r.Err? ==> r.error == EmailTaken && users == old(users)
      ensures r.Ok? ==> users == old(users) + [r.value]
      ensures r.Ok? ==> r.value.email == email && r.value.role == role && r.value.id == now
      ensures r.Ok? ==> r.value.password == Some(password)
      ensures r.Ok? ==> r.value.name == if name == "" then LocalPart(email) else name
      ensures r.Ok? ==> r.value == NewAccount(name, email, password, role, now)
      ensures NonNegativeBalances(old(users)) ==> NonNegativeBalances(users)
      ensures meals == old(meals) && orders == old(orders) && transactions == old(transactions)
      ensures notifications == old(notifications) && messages == old(messages)
    {
      if FindIndex(users, EmailIs(email)).Some? {
        r := Err(EmailTaken);
      } else {
        var u := NewAccount(name, email, password, role, now);
        users := users + [u];
        r := Ok(u);
      }
    }

    method SocialLogin(provider: string, now: nat) returns (u: User)
      modifies this
      ensures (users, u) == SignInSocial(old(users), provider, now)
      ensures meals == old(meals) && orders == old(orders) && transactions == old(transactions)
      ensures notifications == old(notifications) && messages == old(messages)
    {
      var email := SocialEmail(provider);
      var i := FindIndex(users, EmailIs(email));
      if i.None? {
        u := SocialAccount(provider, now);
        users := users + [u];
      } else {
        u := users[i.value];
      }
    }

    method UpdateUser(userId: nat, patch: UserPatch) returns (r: Result<User>)
      modifies this
      ensures r.Err? <==> forall k :: 0 <= k < |old(users)| ==> old(users)[k].id != userId
      ensures r.Err? ==> r.error == UserNotFound && users == old(users)
      ensures r.Ok? ==>
                var i := FindIndex(old(users), UserIdIs(userId)).value;
                r.value == MergeUser(old(users)[i], patch) && users == old(users)[i := r.value]
      ensures meals == old(meals) && orders == old(orders) && transactions == old(transactions)
      ensures notifications == old(notifications) && messages == old(messages)
    {
      var i := FindIndex(users, UserIdIs(userId));
      if i.Some? {
        var u := MergeUser(users[i.value], patch);
        users := users[i.value := u];
        r := Ok(u);
      } else {
        r := Err(UserNotFound);
      }
    }

    /** addPaymentMethod; `randomId` stands for the `Math.random()` id the copy receives. */
    method AddPaymentMethod(userId: nat, pm: PaymentMethod, randomId: nat) returns (r: Result<User>)
      modifies this
      ensures r.Err? <==> forall k :: 0 <= k < |old(users)| ==> old(users)[k].id != userId
      ensures r.Err? ==> r.error == UserNotFound && users == old(users)
      ensures r.Ok? ==>
                var i := FindIndex(old(users), UserIdIs(userId)).value;
                && r.value == old(users)[i].(paymentMethods :=
                     Some(old(users)[i].paymentMethods.GetOr([]) + [pm.(id := randomId)]))
                && users == old(users)[i := r.value]
      ensures meals == old(meals) && orders == old(orders) && transactions == old(transactions)
      ensures notifications == old(notifications) && messages == old(messages)
    {
      var i := FindIndex(users, UserIdIs(userId));
      if i.Some? {
        var u := users[i.value];
        u := u.(paymentMethods := Some(u.paymentMethods.GetOr([]) + [pm.(id := randomId)]));
        users := users[i.value := u];
        r := Ok(u);
      } else {
        r := Err(UserNotFound);
      }
    }

    /** getCookById: the first user with the id who is a cook. */
    function GetCookById(id: nat): (r: Option<User>)
      reads this
      ensures r.Some? ==> r.value in users && r.value.id == id && r.value.role == Cozinheiro
      ensures r.Some? ==> r.value == users[FindIndex(users, CookIdIs(id)).value]
      ensures r.None? <==> forall k :: 0 <= k < |users| ==> !(users[k].id == id && users[k].role == Cozinheiro)
    {
      Find(users, CookIdIs(id))
    }

    // ----- Wallet -----

    /** getWalletTransactions: the whole ledger; the user id is not used to filter it. */
    function GetWalletTransactions(userId: nat): (r: seq<WalletTransaction>)
      reads this
      ensures r == transactions
    {
      transactions
    }

    /**
     * requestWithdrawal: succeeds iff the user exists and its balance
     * covers the amount (equality allowed); then debits exactly the amount
     * and puts one pending withdrawal at the head of the ledger.
     */
    method RequestWithdrawal(userId: nat, amount: int, now: nat) returns (r: Result<()>)
      modifies this
      ensures var i := FindIndex(old(users), UserIdIs(userId));
              r.Ok? <==> i.Some? && BalanceOf(old(users)[i.value]) >= amount
      ensures r.Err? ==> r.error == InsufficientBalance && users == old(users) && transactions == old(transactions)
      ensures r.Ok? ==>
                var i := FindIndex(old(users), UserIdIs(userId)).value;
                && users == old(users)[i := Debit(old(users)[i], amount)]
                && transactions == [PayoutEntry(amount, now)] + old(transactions)
      ensures NonNegativeBalances(old(users)) ==> NonNegativeBalances(users)
      ensures meals == old(meals) && orders == old(orders)
      ensures notifications == old(notifications) && messages == old(messages)
    {
      var i := FindIndex(users, UserIdIs(userId));
      if i.Some? && BalanceOf(users[i.value]) >= amount {
        users := users[i.value := Debit(users[i.value], amount)];
        transactions := [PayoutEntry(amount, now)] + transactions;
        r := Ok(());
      } else {
        r := Err(InsufficientBalance);
      }
    }

    // ----- Notifications -----

    /** getNotifications: the user's notifications, newest first. */
    function GetNotifications(userId: nat): (r: seq<Notification>)
      reads this
      ensures forall n :: n in r <==> n in notifications && n.userId == userId
      ensures multiset(r) == multiset(Filter(notifications, NotificationFor(userId)))
      ensures forall i, j :: 0 <= i < j < |r| ==> r[i].date >= r[j].date
    {
      SortBy(Filter(notifications, NotificationFor(userId)), (n: Notification) => -(n.date as int))
    }

    /** markNotificationRead: sets `read` on the first notification with the id; an unknown id changes nothing. */
    method MarkNotificationRead(notificationId: nat)
      modifies this
      ensures var i := FindIndex(old(notifications), NotificationIdIs(notificationId));
              notifications == if i.None? then old(notifications)
                               else old(notifications)[i.value := old(notifications)[i.value].(read := true)]
      ensures users == old(users) && meals == old(meals) && orders == old(orders)
      ensures transactions == old(transactions) && messages == old(messages)
    {
      var i := FindIndex(notifications, NotificationIdIs(notificationId));
      if i.Some? {
        notifications := notifications[i.value := notifications[i.value].(read := true)];
      }
    }

    // ----- Meals -----

    /** getMeals: the stored meals, unavailable ones included. */
    function GetMeals(): (r: seq<Meal>)
      reads this
      ensures r == meals
    {
      meals
    }

    /** getCookMeals: the cook's meals in table order, available or not. */
    function GetCookMeals(cookId: nat): (r: seq<Meal>)
      reads this
      ensures forall m :: m in r <==> m in meals && m.cookId == cookId
      ensures multiset(r) <= multiset(meals)
      ensures r == Filter(meals, MealOfCook(cookId))
    {
      Filter(meals, MealOfCook(cookId))
    }

    /** createMeal: appends the draft with id `now` and the cook's name. */
    method CreateMeal(draft: MealDraft, now: nat) returns (m: Meal)
      modifies this
      ensures m == Meal(now, draft.cookId, CookNameFor(old(users), draft.cookId), draft.title,
                        draft.description, draft.price, draft.imageUrl, draft.available)
      ensures meals == old(meals) + [m]
      ensures users == old(users) && orders == old(orders) && transactions == old(transactions)
      ensures notifications == old(notifications) && messages == old(messages)
    {
      m := Meal(now, draft.cookId, CookNameFor(users, draft.cookId), draft.title,
                draft.description, draft.price, draft.imageUrl, draft.available);
      meals := meals + [m];
    }

    method UpdateMeal(mealId: nat, patch: MealPatch) returns (r: Result<Meal>)
      modifies this
      ensures r.Err? <==> forall k :: 0 <= k < |old(meals)| ==> old(meals)[k].id != mealId
      ensures r.Err? ==> r.error == MealNotFound && meals == old(meals)
      ensures r.Ok? ==>
                var i := FindIndex(old(meals), MealIdIs(mealId)).value;
                r.value == MergeMeal(old(meals)[i], patch) && meals == old(meals)[i := r.value]
      ensures users == old(users) && orders == old(orders) && transactions == old(transactions)
      ensures notifications == old(notifications) && messages == old(messages)
    {
      var i := FindIndex(meals, MealIdIs(mealId));
      if i.Some? {
        var m := MergeMeal(meals[i.value], patch);
        meals := meals[i.value := m];
        r := Ok(m);
      } else {
        r := Err(MealNotFound);
      }
    }

    method ToggleMealAvailability(mealId: nat)
      modifies this
      ensures meals == Toggled(old(meals), mealId)
      ensures users == old(users) && orders == old(orders) && transactions == old(transactions)
      ensures notifications == old(notifications) && messages == old(messages)
    {
      var i := FindIndex(meals, MealIdIs(mealId));
      if i.Some? {
        meals := meals[i.value := meals[i.value].(available := !meals[i.value].available)];
      }
    }

    /** deleteMeal: removes every meal with the id and keeps the rest in order. */
    method DeleteMeal(mealId: nat)
      modifies this
      ensures meals == Filter(old(meals), MealIdIsNot(mealId))
      ensures forall m :: m in meals <==> m in old(meals) && m.id != mealId
      ensures users == old(users) && orders == old(orders) && transactions == old(transactions)
      ensures notifications == old(notifications) && messages == old(messages)
    {
      meals := Filter(meals, MealIdIsNot(mealId));
    }

    // ----- Orders -----

    /** getOrders: a client's orders for a client, a cook's orders otherwise, highest id first. */
    function GetOrders(userId: nat, role: Role): (r: seq<Order>)
      reads this
      ensures role == Cliente ==> forall o :: o in r <==> o in orders && o.clientId == userId
      ensures role == Cozinheiro ==> forall o :: o in r <==> o in orders && o.cookId == userId
      ensures multiset(r) <= multiset(orders)
      ensures multiset(r) == multiset(Filter(orders, if role == Cliente then OrderOfClient(userId) else OrderOfCook(userId)))
      ensures forall i, j :: 0 <= i < j < |r| ==> r[i].id >= r[j].id
    {
      var mine := Filter(orders, if role == Cliente then OrderOfClient(userId) else OrderOfCook(userId));
      SortBy(mine, (o: Order) => -(o.id as int))
    }

    /** getOrderById: the first order with the id. */
    function GetOrderById(orderId: nat): (r: Option<Order>)
      reads this
      ensures r.Some? ==> r.value in orders && r.value.id == orderId
      ensures r.Some? ==> r.value == orders[FindIndex(orders, OrderIdIs(orderId)).value]
      ensures r.None? <==> forall k :: 0 <= k < |orders| ==> orders[k].id != orderId
    {
      Find(orders, OrderIdIs(orderId))
    }

    /**
     * createOrder: records a pending order at the head of the orders
     * table, credits the cook (when the cook exists) with the total and
     * heads the ledger with one completed deposit, and appends one unread
     * notification for the cook id in every case.
     */
    method CreateOrder(clientId: nat, cookId: nat, items: seq<CartItem>, paymentLabel: string,
                       draw: nat, now: nat) returns (o: Order)
      requires draw < 90000
      modifies this
      ensures o == PlacedOrder(old(users), clientId, cookId, items, paymentLabel, draw, now)
      ensures orders == [o] + old(orders)
      ensures var c := FindIndex(old(users), UserIdIs(cookId));
              && (c.Some? ==> users == old(users)[c.value := Credit(old(users)[c.value], o.total)]
                              && transactions == [SaleEntry(o.id, o.total, now)] + old(transactions))
              && (c.None? ==> users == old(users) && transactions == old(transactions))
      ensures notifications == old(notifications) + [Notification(now, cookId, NewOrder(o.id), false, now)]
      ensures TotalsMatchItems(old(orders)) ==> TotalsMatchItems(orders)
      ensures NonNegativeBalances(old(users)) && o.total >= 0 ==> NonNegativeBalances(users)
      ensures meals == old(meals) && messages == old(messages)
    {
      o := PlacedOrder(users, clientId, cookId, items, paymentLabel, draw, now);
      orders := [o] + orders;
      var c := FindIndex(users, UserIdIs(cookId));
      if c.Some? {
        users := users[c.value := Credit(users[c.value], o.total)];
        transactions := [SaleEntry(o.id, o.total, now)] + transactions;
      }
      notifications := notifications + [Notification(now, cookId, NewOrder(o.id), false, now)];
    }

    /**
     * updateOrderStatus: overwrites the status of the first order with the
     * id, whatever it was, and notifies the cook on delivery and the client
     * otherwise. An unknown id changes nothing.
     */
    method UpdateOrderStatus(orderId: nat, status: OrderStatus, now: nat)
      modifies this
      ensures var i := FindIndex(old(orders), OrderIdIs(orderId));
              && (i.None? ==> orders == old(orders) && notifications == old(notifications))
              && (i.Some? ==>
                    && orders == old(orders)[i.value := old(orders)[i.value].(status := status)]
                    && notifications == old(notifications) +
                         [Notification(now, StatusRecipient(old(orders)[i.value], status),
                                       StatusChanged(orderId, status), false, now)])
      ensures |orders| == |old(orders)|
      ensures forall k :: 0 <= k < |orders| ==>
                orders[k].total == old(orders)[k].total && orders[k].items == old(orders)[k].items
      ensures TotalsMatchItems(old(orders)) ==> TotalsMatchItems(orders)
      ensures users == old(users) && meals == old(meals) && transactions == old(transactions)
      ensures messages == old(messages)
    {
      var i := FindIndex(orders, OrderIdIs(orderId));
      if i.Some? {
        var o := orders[i.value].(status := status);
        orders := orders[i.value := o];
        notifications := notifications + [Notification(now, StatusRecipient(o, status),
                                                       StatusChanged(orderId, status), false, now)];
      }
    }

    // ----- Chat -----

    /** getMessages: the order's messages, oldest first. */
    function GetMessages(orderId: nat): (r: seq<Message>)
      reads this
      ensures forall m :: m in r <==> m in messages && m.orderId == orderId
      ensures multiset(r) == multiset(Filter(messages, MessageOfOrder(orderId)))
      ensures forall i, j :: 0 <= i < j < |r| ==> r[i].timestamp <= r[j].timestamp
    {
      SortBy(Filter(messages, MessageOfOrder(orderId)), (m: Message) => m.timestamp)
    }

    /** sendMessage: appends the message, stamped `now`, under the sender's name or "Usuário". */
    method SendMessage(orderId: nat, senderId: nat, text: string, now: nat) returns (m: Message)
      modifies this
      ensures m == Message(now, orderId, senderId, NameOr(Find(old(users), UserIdIs(senderId)), "Usu\U{00E1}rio"), text, now)
      ensures messages == old(messages) + [m]
      ensures users == old(users) && meals == old(meals) && orders == old(orders)
      ensures transactions == old(transactions) && notifications == old(notifications)
    {
      m := Message(now, orderId, senderId, NameOr(Find(users, UserIdIs(senderId)), "Usu\U{00E1}rio"), text, now);
      messages := messages + [m];
    }
  }

  // ---------------------------------------------------------------------
  // The seeded marketplace at work
  // ---------------------------------------------------------------------

  /**
   * On the seeded tables, the cook (balance 150.50) cannot withdraw
   * 200.00 and keeps the balance; one Feijoada Fit (28.90) then raises it
   * to 179.40 and heads the ledger with one deposit of 28.90.
   */
  method SeededSaleAndPayout(now: nat, draw: nat) returns (payout: Result<()>, balanceBefore: int,
                                                           balanceAfter: int, ledger: seq<WalletTransaction>)
    requires draw < 90000
    ensures payout == Err(InsufficientBalance) && balanceBefore == 15050
    ensures balanceAfter == 17940
    ensures |ledger| == 1 && ledger[0].kind == Deposit && ledger[0].amount == 2890 && ledger[0].status == Completed
  {
    var store := new Store.Seeded(now);
    payout := store.RequestWithdrawal(SeedCook.id, 20000, now);
    assert FindIndex(store.users, UserIdIs(SeedCook.id)) == Some(1);
    balanceBefore := BalanceOf(store.users[1]);
    var feijoada := CartItem(SeedMeals[0], 1);
    assert CartTotal([feijoada]) == 2890 by {
      assert [feijoada][..0] == [];
    }
    var order := store.CreateOrder(SeedClient.id, SeedCook.id, [feijoada], "Pix", draw, now);
    balanceAfter := BalanceOf(store.users[1]);
    ledger := store.transactions;
  }
}
