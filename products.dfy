/** handlers/products.py: buying game top-ups. The user opens a game's product list,
    selects a product, types a player id and confirms; confirming marks the user as having
    an order waiting and queues one request carrying the price in Syrian pounds. Prices are
    kept in US cents (the catalogue's dollar prices have two decimals). */
module Products {
  import opened Common
  import opened PyText
  import opened Backend
  import QueueService

  datatype Product = Product(productId: int, name: string, category: string, priceCents: int)

  /** The keys of `PRODUCTS`, in their order. */
  const CATEGORIES: seq<string> := ["PUBG", "FreeFire", "Jawaker"]

  const PUBG: seq<Product> := [
    Product(1, "60 شدة", "ألعاب", 89),
    Product(2, "325 شدة", "ألعاب", 444),
    Product(3, "660 شدة", "ألعاب", 885),
    Product(4, "1800 شدة", "ألعاب", 2209),
    Product(5, "3850 شدة", "ألعاب", 4324),
    Product(6, "8100 شدة", "ألعاب", 8631)
  ]

  const FREE_FIRE: seq<Product> := [
    Product(7, "100 جوهرة", "ألعاب", 98),
    Product(8, "310 جوهرة", "ألعاب", 249),
    Product(9, "520 جوهرة", "ألعاب", 413),
    Product(10, "1060 جوهرة", "ألعاب", 942),
    Product(11, "2180 جوهرة", "ألعاب", 1884)
  ]

  const JAWAKER: seq<Product> := [
    Product(12, "10000 توكنز", "ألعاب", 134),
    Product(13, "15000 توكنز", "ألعاب", 201),
    Product(14, "20000 توكنز", "ألعاب", 268),
    Product(15, "30000 توكنز", "ألعاب", 402),
    Product(16, "60000 توكنز", "ألعاب", 804),
    Product(17, "120000 توكنز", "ألعاب", 1608)
  ]

  /** `PRODUCTS.get(category, [])`. */
  function Options(category: string): seq<Product> {
    if category == "PUBG" then PUBG
    else if category == "FreeFire" then FREE_FIRE
    else if category == "Jawaker" then JAWAKER
    else []
  }

  /** Every product, in the order the lookup visits them. */
  const ALL_PRODUCTS: seq<Product> := PUBG + FREE_FIRE + JAWAKER

  // ---------------------------------------------------------------------------
  // Price conversion
  // ---------------------------------------------------------------------------

  /** The per-dollar rate `convert_price_usd_to_syp` picks: cheaper products get a higher rate. */
  function RatePerDollar(cents: int): (rate: int)
    ensures rate == 11800 || rate == 11600 || rate == 11300 || rate == 11000
    ensures cents <= 500 <==> rate == 11800
    ensures 500 < cents <= 1000 <==> rate == 11600
    ensures 1000 < cents <= 2000 <==> rate == 11300
    ensures 2000 < cents <==> rate == 11000
  {
    if cents <= 500 then 11800
    else if cents <= 1000 then 11600
    else if cents <= 2000 then 11300
    else 11000
  }

  /** The rate never goes up as the price goes up. */
  lemma RateNonIncreasing(a: int, b: int)
    requires a <= b
    ensures RatePerDollar(b) <= RatePerDollar(a)
  {
  }

  /** `convert_price_usd_to_syp`, on the exact decimal price: whole pounds, between 110 and
      118 pounds per cent. */
  function ConvertPriceUsdToSyp(cents: nat): (syp: nat)
    ensures 110 * cents <= syp <= 118 * cents
  {
    cents * RatePerDollar(cents) / 100
  }

  // ---------------------------------------------------------------------------
  // Product lookup
  // ---------------------------------------------------------------------------

  /** Reference definition of the lookup: the first product with that id. */
  function FirstWithId(ps: seq<Product>, productId: int): (r: Option<Product>)
    ensures r.Some? ==> r.value in ps && r.value.productId == productId
    ensures r.None? ==> forall p :: p in ps ==> p.productId != productId
  {
    if ps == [] then None
    else if ps[0].productId == productId then Some(ps[0])
    else FirstWithId(ps[1..], productId)
  }

  function ProductById(productId: int): Option<Product> {
    FirstWithId(ALL_PRODUCTS, productId)
  }

  /** The ids are 1 to 17 in catalogue order. */
  lemma ProductIdsAreOneToSeventeen()
    ensures |ALL_PRODUCTS| == 17
    ensures forall i :: 0 <= i < |ALL_PRODUCTS| ==> ALL_PRODUCTS[i].productId == i + 1
  {
  }

  /** No two products share an id, across all games. */
  lemma ProductIdsDistinct(p: Product, q: Product)
    requires p in ALL_PRODUCTS && q in ALL_PRODUCTS && p.productId == q.productId
    ensures p == q
  {
    ProductIdsAreOneToSeventeen();
    var i :| 0 <= i < |ALL_PRODUCTS| && ALL_PRODUCTS[i] == p;
    var j :| 0 <= j < |ALL_PRODUCTS| && ALL_PRODUCTS[j] == q;
    assert i == j;
  }

  /** The lookup finds a product exactly for the ids 1 to 17, and it is the one with that id. */
  lemma ProductByIdRange(productId: int)
    ensures ProductById(productId).Some? <==> 1 <= productId <= 17
    ensures ProductById(productId).Some? ==> ProductById(productId).value == ALL_PRODUCTS[productId - 1]
  {
    ProductIdsAreOneToSeventeen();
    if 1 <= productId <= 17 {
      assert ALL_PRODUCTS[productId - 1] in ALL_PRODUCTS;
      if ProductById(productId).Some? {
        ProductIdsDistinct(ProductById(productId).value, ALL_PRODUCTS[productId - 1]);
      }
    }
  }

  lemma OptionsInCatalogue(k: int)
    requires 0 <= k < |CATEGORIES|
    ensures forall p :: p in Options(CATEGORIES[k]) ==> p in ALL_PRODUCTS
  {
  }

  /** The values of `PRODUCTS`, in key order. */
  const PRODUCT_LISTS: seq<seq<Product>> := [PUBG, FREE_FIRE, JAWAKER]

  /** The lists one after the other. */
  function Flatten(lists: seq<seq<Product>>): seq<Product> {
    if lists == [] then [] else lists[0] + Flatten(lists[1..])
  }

  lemma CatalogueFlattens()
    ensures Flatten(PRODUCT_LISTS) == ALL_PRODUCTS
  {
    var l := PRODUCT_LISTS;
    assert l[1..] == [FREE_FIRE, JAWAKER] && l[1..][1..] == [JAWAKER] && l[1..][1..][1..] == [];
    assert Flatten([JAWAKER]) == JAWAKER + [] == JAWAKER;
  }

  /** The lookup in `on_select_product`: every list in turn, stopping at the first product
      with that id. */
  method FindProduct(lists: seq<seq<Product>>, productId: int) returns (selected: Option<Product>)
    ensures selected == FirstWithId(Flatten(lists), productId)
  {
    selected := None;
    var k := 0;
    while k < |lists|
      invariant 0 <= k <= |lists|
      invariant selected.None?
      invariant FirstWithId(Flatten(lists[k..]), productId) == FirstWithId(Flatten(lists), productId)
    {
      var items := lists[k];
      assert lists[k..][1..] == lists[k + 1..];
      var rest := Flatten(lists[k + 1..]);
      var i := 0;
      while i < |items|
        invariant 0 <= i <= |items|
        invariant selected.None?
        invariant FirstWithId(items[i..] + rest, productId) == FirstWithId(Flatten(lists), productId)
      {
        assert (items[i..] + rest)[0] == items[i] && (items[i..] + rest)[1..] == items[i + 1..] + rest;
        if items[i].productId == productId {
          selected := Some(items[i]);
          break;
        }
        i := i + 1;
      }
      if selected.Some? {
        break;
      }
      assert items[i..] + rest == rest;
      k := k + 1;
    }
  }


  /** The game a product is listed under. */
  function KeyOf(p: Product): (key: string)
    ensures key in CATEGORIES
    ensures p in ALL_PRODUCTS ==> p in Options(key)
  {
    if p in PUBG then "PUBG" else if p in FREE_FIRE then "FreeFire" else "Jawaker"
  }

  // ---------------------------------------------------------------------------
  // Orders
  // ---------------------------------------------------------------------------

  /** One entry of `user_orders`; a key the dict lacks is `None`. */
  datatype Order = Order(category: Option<string>, product: Option<Product>, playerId: Option<string>)

  /** `user_orders` and `pending_orders`. */
  datatype OrderBook = OrderBook(orders: map<int, Order>, pending: set<int>)

  datatype BookResult = BookResult(book: OrderBook, outcome: Outcome)

  datatype ShopStep = ShopStep(book: OrderBook, world: World, outcome: Outcome)

  /** Every order's product is from the catalogue and its category is the game it is listed
      under, so the back button lists that game's products. */
  ghost predicate BookOk(b: OrderBook) {
    forall u :: u in b.orders ==> OrderOk(b.orders[u])
  }

  /** One order's part of `BookOk`. */
  ghost predicate OrderOk(o: Order) {
    o.product.Some? ==> o.product.value in ALL_PRODUCTS && o.category == Some(KeyOf(o.product.value))
  }

  /** `handle_main_product_menu`: register the wallet, then refuse while an order waits. */
  function MainMenuStep(b: OrderBook, w: World, user: int): (r: ShopStep)
    ensures r.book == b && r.world.sent == w.sent
    ensures r.outcome == Refused <==> user in b.pending
  {
    var s := Registered(w.store, user);
    if user in b.pending then ShopStep(b, World(s, w.sent), Refused)
    else ShopStep(b, World(s, w.sent), Completed)
  }

  /** `category_map`: the button text of each game. */
  function CategoryKey(text: string): Option<string> {
    if text == "🎯 شحن شدات ببجي العالمية" then Some("PUBG")
    else if text == "🔥 شحن جواهر فري فاير" then Some("FreeFire")
    else if text == "🏏 تطبيق جواكر" then Some("Jawaker")
    else None
  }

  /** `game_handler`: register the wallet; while an order waits, refuse and leave the
      orders alone; otherwise start a fresh order for that game. */
  function GameMenuStep(b: OrderBook, w: World, user: int, text: string): (r: ShopStep)
    ensures BookOk(b) ==> BookOk(r.book)
    ensures r.outcome != Completed ==> r.book == b
    ensures user in b.pending ==> r.book == b
    ensures r.outcome == Completed ==> r.book.orders == b.orders[user := Order(CategoryKey(text), None, None)]
    ensures CategoryKey(text).None? <==> r.outcome == Ignored
    ensures CategoryKey(text).Some? ==>
      && (r.outcome == Refused <==> user in b.pending)
      && (user !in b.pending ==> r.outcome == Completed)
  {
    match CategoryKey(text)
    case None => ShopStep(b, w, Ignored)
    case Some(key) =>
      var s := Registered(w.store, user);
      if user in b.pending then ShopStep(b, World(s, w.sent), Refused)
      else ShopStep(b.(orders := b.orders[user := Order(Some(key), None, None)]), World(s, w.sent), Completed)
  }

  /** `on_select_product` as written: the order's category becomes the product's own
      `category` field. */
  function SelectProductAsWritten(b: OrderBook, user: int, data: string): (r: BookResult)
    ensures r.outcome != Completed ==> r.book == b
    ensures r.outcome == Completed ==> user in r.book.orders && r.book.orders[user].category == Some("ألعاب")
  {
    if !StartsWith(data, "select_") then BookResult(b, Ignored)
    else if user in b.pending then BookResult(b, Refused)
    else
      match ParseInt(data[7..])
      case None => BookResult(b, Raised)
      case Some(productId) =>
        match ProductById(productId)
        case None => BookResult(b, Refused)
        case Some(p) =>
          CatalogueEntry(p);
          BookResult(b.(orders := b.orders[user := Order(Some(p.category), Some(p), None)]), Completed)
  }

  /** `on_select_product` with the category kept as the game the product is listed under. */
  function SelectProductStep(b: OrderBook, user: int, data: string): (r: BookResult)
    ensures BookOk(b) ==> BookOk(r.book)
    ensures r.outcome != Completed ==> r.book == b
    ensures user in b.pending ==> r.book == b
    ensures r.outcome == Completed ==>
      && StartsWith(data, "select_") && ParseInt(data[7..]).Some?
      && ProductById(ParseInt(data[7..]).value).Some?
      && var p := ProductById(ParseInt(data[7..]).value).value;
         r.book == b.(orders := b.orders[user := Order(Some(KeyOf(p)), Some(p), None)])
    ensures !StartsWith(data, "select_") <==> r.outcome == Ignored
    ensures StartsWith(data, "select_") && user in b.pending ==> r.outcome == Refused
    ensures StartsWith(data, "select_") && user !in b.pending && ParseInt(data[7..]).Some? ==>
      (r.outcome == Completed <==> ProductById(ParseInt(data[7..]).value).Some?)
  {
    if !StartsWith(data, "select_") then BookResult(b, Ignored)
    else if user in b.pending then BookResult(b, Refused)
    else
      match ParseInt(data[7..])
      case None => BookResult(b, Raised)
      case Some(productId) =>
        match ProductById(productId)
        case None => BookResult(b, Refused)
        case Some(p) => BookResult(b.(orders := b.orders[user := Order(Some(KeyOf(p)), Some(p), None)]), Completed)
  }

  /** The two error paths of a selection: an id that is not a number raises (`int()`
      fails), and a number no product carries is refused with "product not found". */
  lemma SelectProductErrors(b: OrderBook, user: int, data: string)
    requires StartsWith(data, "select_") && user !in b.pending
    ensures ParseInt(data[7..]).None? ==> SelectProductStep(b, user, data) == BookResult(b, Raised)
    ensures ParseInt(data[7..]).Some? && ProductById(ParseInt(data[7..]).value).None? ==>
      SelectProductStep(b, user, data) == BookResult(b, Refused)
  {
  }

  /** The handler as written and the corrected one end the same way on every update and
      store the same product; they differ only in the category they record. */
  lemma SelectAsWrittenDiffersInCategoryOnly(b: OrderBook, user: int, data: string)
    ensures
      var written := SelectProductAsWritten(b, user, data);
      var fixed := SelectProductStep(b, user, data);
      && written.outcome == fixed.outcome
      && (fixed.outcome == Completed ==>
            written.book == fixed.book.(orders := fixed.book.orders[user := fixed.book.orders[user].(category := Some("ألعاب"))]))
  {
    if StartsWith(data, "select_") && user !in b.pending && ParseInt(data[7..]).Some? {
      match ProductById(ParseInt(data[7..]).value)
      case None =>
      case Some(p) =>
        var written := SelectProductAsWritten(b, user, data);
        var fixed := SelectProductStep(b, user, data);
        assert fixed.book.orders[user] == Order(Some(KeyOf(p)), Some(p), None);
        assert written.book.orders == b.orders[user := Order(Some("ألعاب"), Some(p), None)];
    }
  }

  /** `back_to_products`: the products listed again, or nothing when the order has no
      category. */
  function BackToProductsOptions(b: OrderBook, user: int): (r: Option<seq<Product>>)
    ensures r.Some? ==> forall p :: p in r.value ==> p in ALL_PRODUCTS
    ensures BookOk(b) && user in b.orders && b.orders[user].product.Some? ==>
      r.Some? && b.orders[user].product.value in r.value
  {
    if user in b.orders && b.orders[user].category.Some? && b.orders[user].category.value != []
    then Some(Options(b.orders[user].category.value))
    else None
  }

  /** As written, every product's category is "ألعاب", which is not a key of `PRODUCTS`:
      after selecting any product the back button lists no products at all. */
  lemma SelectThenBackListsNothing(b: OrderBook, user: int, data: string)
    requires SelectProductAsWritten(b, user, data).outcome == Completed
    ensures BackToProductsOptions(SelectProductAsWritten(b, user, data).book, user) == Some([])
  {
    var p := ProductById(ParseInt(data[7..]).value).value;
    var book := SelectProductAsWritten(b, user, data).book;
    assert book.orders[user] == Order(Some(p.category), Some(p), None);
    CatalogueEntry(p);
    GamesIsNotAKey();
  }

  /** Every catalogue product has a positive price and carries the same `category` field,
      "ألعاب". */
  lemma CatalogueEntry(p: Product)
    requires p in ALL_PRODUCTS
    ensures p.category == "ألعاب" && p.priceCents > 0
  {
    ProductIdsAreOneToSeventeen();
    var i :| 0 <= i < |ALL_PRODUCTS| && ALL_PRODUCTS[i] == p;
  }

  /** "ألعاب" is not a key of `PRODUCTS`. */
  lemma GamesIsNotAKey()
    ensures Options("ألعاب") == []
  {
    assert |"ألعاب"| == 5;
  }

  /** With the category kept, the back button lists the selected product's own game,
      which contains it. */
  lemma SelectThenBackListsItsGame(b: OrderBook, user: int, data: string)
    requires SelectProductStep(b, user, data).outcome == Completed
    ensures
      var p := SelectProductStep(b, user, data).book.orders[user].product.value;
      var shown := BackToProductsOptions(SelectProductStep(b, user, data).book, user);
      shown.Some? && p in shown.value && p in ALL_PRODUCTS
  {
  }

  /** `handle_player_id`: record the stripped text as the player id of an order that has a
      product; refuse otherwise. */
  function PlayerIdStep(b: OrderBook, user: int, text: Option<string>): (r: BookResult)
    ensures BookOk(b) ==> BookOk(r.book)
    ensures r.outcome != Completed ==> r.book == b
    ensures r.outcome == Refused <==> text.Some? && (user !in b.orders || b.orders[user].product.None?)
    ensures r.outcome == Completed ==>
      (text.Some? && user in b.orders &&
       r.book == b.(orders := b.orders[user := b.orders[user].(playerId := Some(Strip(text.value)))]))
    ensures text.Some? && user in b.orders && b.orders[user].product.Some? ==> r.outcome == Completed
  {
    match text
    case None => BookResult(b, Raised)
    case Some(t) =>
      var playerId := Strip(t);
      if user !in b.orders || b.orders[user].product.None? then BookResult(b, Refused)
      else BookResult(b.(orders := b.orders[user := b.orders[user].(playerId := Some(playerId))]), Completed)
  }

  /** `clear_user_order`: forget the user's order and its waiting mark. */
  function ClearUserOrder(b: OrderBook, user: int): (r: OrderBook)
    ensures BookOk(b) ==> BookOk(r)
    ensures user !in r.orders && user !in r.pending
    ensures forall u :: u != user ==> (u in r.orders <==> u in b.orders) && (u in r.pending <==> u in b.pending)
    ensures forall u :: u != user && u in b.orders ==> r.orders[u] == b.orders[u]
  {
    OrderBook(b.orders - {user}, b.pending - {user})
  }

  /** Clearing twice is clearing once. */
  lemma ClearUserOrderIdempotent(b: OrderBook, user: int)
    ensures ClearUserOrder(ClearUserOrder(b, user), user) == ClearUserOrder(b, user)
  {
    var once := ClearUserOrder(b, user);
    assert once.orders - {user} == once.orders;
    assert once.pending - {user} == once.pending;
  }

  /** An order with a product and a player id. */
  predicate Complete(b: OrderBook, user: int) {
    user in b.orders && b.orders[user].product.Some? && b.orders[user].playerId.Some?
  }

  /** What a complete order queues: the product, the player id and the converted price. */
  function OrderPayload(o: Order): Payload
    requires o.product.Some? && o.playerId.Some?
  {
    GameTopUp(o.product.value.productId, o.playerId.value,
              ConvertPriceUsdToSyp(if o.product.value.priceCents < 0 then 0 else o.product.value.priceCents))
  }

  /** `final_confirm_order` as written: nothing unless the order is complete; otherwise the
      user is marked as waiting, told so, and one request is queued and offered. The order
      stays in place, and nothing checks whether the user is already waiting. */
  function FinalConfirmAsWritten(b: OrderBook, w: World, user: int): (r: ShopStep)
    ensures r.outcome == Completed <==> Complete(b, user)
    ensures r.outcome != Completed ==> r.book == b && r.world == w
    ensures user !in b.pending ==> r == FinalConfirmStep(b, w, user)
    ensures Complete(b, user) ==>
      && r.book == b.(pending := b.pending + {user})
      && r.world.store.order == w.store.order + [w.store.nextId]
      && w.store.nextId in r.world.store.requests
      && r.world.store.requests[w.store.nextId].payload == OrderPayload(b.orders[user])
  {
    if !Complete(b, user) then ShopStep(b, w, Refused)
    else
      var s := Added(w.store, user, OrderPayload(b.orders[user]));
      var offered := QueueService.ProcessQueueStep(World(s, w.sent + [Message(user, Submitted)]));
      ShopStep(b.(pending := b.pending + {user}), offered, Completed)
  }

  /** As written, pressing the confirm button twice queues the same order twice. */
  lemma DoubleConfirmQueuesTwice(b: OrderBook, w: World, user: int)
    requires Complete(b, user)
    ensures
      var first := FinalConfirmAsWritten(b, w, user);
      var second := FinalConfirmAsWritten(first.book, first.world, user);
      && second.outcome == Completed
      && second.world.store.order == w.store.order + [w.store.nextId, w.store.nextId + 1]
      && second.world.store.requests[w.store.nextId].payload == second.world.store.requests[w.store.nextId + 1].payload
  {
    var p := OrderPayload(b.orders[user]);
    var first := FinalConfirmAsWritten(b, w, user);
    var w1 := World(Added(w.store, user, p), w.sent + [Message(user, Submitted)]);
    assert first.world == QueueService.ProcessQueueStep(w1);
    QueueService.OfferKeepsRequests(w1);
    assert first.world.store.order == w.store.order + [w.store.nextId];
    assert first.world.store.nextId == w.store.nextId + 1;
    assert first.world.store.requests[w.store.nextId].payload == p;
    assert first.book.orders == b.orders && Complete(first.book, user);
    var w2 := World(Added(first.world.store, user, p), first.world.sent + [Message(user, Submitted)]);
    var second := FinalConfirmAsWritten(first.book, first.world, user);
    assert second.world == QueueService.ProcessQueueStep(w2);
    QueueService.OfferKeepsRequests(w2);
    assert w2.store.requests[w.store.nextId].payload == p && w2.store.requests[w.store.nextId + 1].payload == p;
  }

  /** `final_confirm_order` refusing while the user already has an order waiting, as the
      menu and selection handlers do. */
  function FinalConfirmStep(b: OrderBook, w: World, user: int): (r: ShopStep)
    ensures BookOk(b) ==> BookOk(r.book)
    ensures Valid(w.store) ==> Valid(r.world.store)
    ensures r.outcome != Completed ==> r.book == b && r.world == w
    ensures r.outcome == Completed <==> Complete(b, user) && user !in b.pending
    ensures r.outcome == Completed ==>
      && r.book == b.(pending := b.pending + {user})
      && r.world.store.order == w.store.order + [w.store.nextId]
      && w.store.nextId in r.world.store.requests
      && r.world.store.requests[w.store.nextId].userId == user
      && r.world.store.requests[w.store.nextId].payload == OrderPayload(b.orders[user])
      && r.world.store.balances == w.store.balances
  {
    if !Complete(b, user) || user in b.pending then ShopStep(b, w, Refused)
    else
      var s := Added(w.store, user, OrderPayload(b.orders[user]));
      var offered := QueueService.ProcessQueueStep(World(s, w.sent + [Message(user, Submitted)]));
      ShopStep(b.(pending := b.pending + {user}), offered, Completed)
  }

  /** With the guard, a second press is refused: one order, one request. */
  lemma ConfirmWhileWaitingRefused(b: OrderBook, w: World, user: int)
    requires Complete(b, user) && user !in b.pending
    ensures
      var first := FinalConfirmStep(b, w, user);
      FinalConfirmStep(first.book, first.world, user) == ShopStep(first.book, first.world, Refused)
  {
  }

  /** The queued price is the catalogue price converted at its tier. */
  lemma QueuedPriceIsConverted(b: OrderBook, user: int)
    requires BookOk(b) && Complete(b, user)
    ensures
      var p := b.orders[user].product.value;
      TotalPrice(OrderPayload(b.orders[user])) == p.priceCents * RatePerDollar(p.priceCents) / 100
      && p in ALL_PRODUCTS
  {
    var p := b.orders[user].product.value;
    CatalogueEntry(p);
  }

  // ---------------------------------------------------------------------------
  // `handle_player_id` as written, and the order flow it blocks
  // ---------------------------------------------------------------------------

  /** `handle_player_id` as written: its first line reads `message.bot`, an attribute a
      telebot message does not have, so it raises AttributeError before anything else. */
  function PlayerIdAsWritten(b: OrderBook, user: int, text: Option<string>): (r: BookResult)
    ensures r.book == b && r.outcome == Raised
  {
    BookResult(b, Raised)
  }

  /** No order carries a player id. */
  predicate NoPlayerIds(b: OrderBook) {
    forall u :: u in b.orders ==> b.orders[u].playerId.None?
  }

  /** One update the product handlers receive. */
  datatype ShopEvent =
    | GameButton(user: int, button: string)
    | SelectButton(user: int, data: string)
    | PlayerIdMessage(user: int, text: Option<string>)
    | CancelButton(user: int)
    | ConfirmButton(user: int)

  /** One update handled by the handlers as written. */
  function StepAsWritten(b: OrderBook, w: World, e: ShopEvent): ShopStep {
    match e
    case GameButton(u, t) => GameMenuStep(b, w, u, t)
    case SelectButton(u, d) =>
      var r := SelectProductAsWritten(b, u, d);
      ShopStep(r.book, w, r.outcome)
    case PlayerIdMessage(u, t) =>
      var r := PlayerIdAsWritten(b, u, t);
      ShopStep(r.book, w, r.outcome)
    case CancelButton(u) => ShopStep(ClearUserOrder(b, u), w, Completed)
    case ConfirmButton(u) => FinalConfirmAsWritten(b, w, u)
  }

  /** A sequence of updates handled one after the other by the handlers as written. */
  function RunAsWritten(b: OrderBook, w: World, events: seq<ShopEvent>): ShopStep
    decreases |events|
  {
    if events == [] then ShopStep(b, w, Completed)
    else
      var s := StepAsWritten(b, w, events[0]);
      RunAsWritten(s.book, s.world, events[1..])
  }

  /** As written, no update gives an order a player id, so every confirm is refused: from
      a state without player ids (the empty one the bot starts with), no sequence of
      updates ever adds a request to the queue or anything to the message log (which holds
      only request acknowledgements and queue offers here). */
  lemma {:induction false} NoOrderEverQueuedAsWritten(b: OrderBook, w: World, events: seq<ShopEvent>)
    requires NoPlayerIds(b)
    ensures
      var r := RunAsWritten(b, w, events);
      && NoPlayerIds(r.book)
      && r.world.store.requests == w.store.requests
      && r.world.store.order == w.store.order
      && r.world.sent == w.sent
    decreases |events|
  {
    if events != [] {
      var s := StepAsWritten(b, w, events[0]);
      StepAsWrittenQueuesNothing(b, w, events[0]);
      NoOrderEverQueuedAsWritten(s.book, s.world, events[1..]);
    }
  }

  /** One update, as written, gives no order a player id, queues nothing and adds nothing
      to the message log. */
  lemma StepAsWrittenQueuesNothing(b: OrderBook, w: World, e: ShopEvent)
    requires NoPlayerIds(b)
    ensures
      var s := StepAsWritten(b, w, e);
      && NoPlayerIds(s.book)
      && s.world.store.requests == w.store.requests
      && s.world.store.order == w.store.order
      && s.world.sent == w.sent
  {
    match e
    case ConfirmButton(u) => ConfirmRefusedWithoutPlayerId(b, w, u);
    case CancelButton(u) =>
    case GameButton(u, t) => GameMenuGivesNoPlayerId(b, w, u, t);
    case SelectButton(u, d) => SelectGivesNoPlayerId(b, u, d);
    case PlayerIdMessage(u, t) =>
  }

  lemma ConfirmRefusedWithoutPlayerId(b: OrderBook, w: World, user: int)
    requires NoPlayerIds(b)
    ensures FinalConfirmAsWritten(b, w, user) == ShopStep(b, w, Refused)
  {
    assert !Complete(b, user);
  }

  lemma GameMenuGivesNoPlayerId(b: OrderBook, w: World, user: int, text: string)
    requires NoPlayerIds(b)
    ensures
      var r := GameMenuStep(b, w, user, text);
      && NoPlayerIds(r.book)
      && r.world.store.requests == w.store.requests && r.world.store.order == w.store.order
      && r.world.sent == w.sent
  {
  }

  lemma SelectGivesNoPlayerId(b: OrderBook, user: int, data: string)
    requires NoPlayerIds(b)
    ensures NoPlayerIds(SelectProductAsWritten(b, user, data).book)
  {
  }

  /** With the player id recorded, an order with a product and no waiting order is queued
      by the confirm button, carrying the stripped player id. */
  lemma PlayerIdThenConfirmQueues(b: OrderBook, w: World, user: int, text: string)
    requires user in b.orders && b.orders[user].product.Some? && user !in b.pending
    ensures
      var named := PlayerIdStep(b, user, Some(text));
      var r := FinalConfirmStep(named.book, w, user);
      && named.outcome == Completed
      && r.outcome == Completed
      && r.world.store.order == w.store.order + [w.store.nextId]
      && r.world.store.requests[w.store.nextId].userId == user
      && r.world.store.requests[w.store.nextId].payload.GameTopUp?
      && r.world.store.requests[w.store.nextId].payload.playerId == Strip(text)
  {
  }

  // ---------------------------------------------------------------------------
  // The handlers on the module-level dict and set
  // ---------------------------------------------------------------------------

  class Orders {
    var userOrders: map<int, Order>
    var pendingOrders: set<int>

    function Value(): OrderBook
      reads this
    {
      OrderBook(userOrders, pendingOrders)
    }

    ghost predicate Valid()
      reads this
    {
      BookOk(Value())
    }

    constructor ()
      ensures Value() == OrderBook(map[], {}) && Valid()
    {
      userOrders, pendingOrders := map[], {};
    }

    method MainMenu(user: int, store: RequestStore) returns (outcome: Outcome)
      modifies store
      ensures outcome == MainMenuStep(Value(), World(old(store.Value()), []), user).outcome
      ensures store.Value() == Registered(old(store.Value()), user)
    {
      store.Register(user);
      if user in pendingOrders {
        return Refused;
      }
      return Completed;
    }

    method GameMenu(user: int, text: string, store: RequestStore) returns (outcome: Outcome)
      modifies this, store
      ensures ShopStep(Value(), World(store.Value(), []), outcome) == GameMenuStep(old(Value()), World(old(store.Value()), []), user, text)
      ensures old(Valid()) ==> Valid()
    {
      var key := CategoryKey(text);
      if key.None? {
        return Ignored;
      }
      store.Register(user);
      if user in pendingOrders {
        return Refused;
      }
      userOrders := userOrders[user := Order(Some(key.value), None, None)];
      return Completed;
    }

    method SelectProduct(user: int, data: string) returns (outcome: Outcome)
      modifies this
      ensures BookResult(Value(), outcome) == SelectProductStep(old(Value()), user, data)
      ensures old(Valid()) ==> Valid()
    {
      if !StartsWith(data, "select_") {
        return Ignored;
      }
      if user in pendingOrders {
        return Refused;
      }
      var productId := ParseInt(data[7..]);
      if productId.None? {
        return Raised;
      }
      var selected := FindProduct(PRODUCT_LISTS, productId.value);
      CatalogueFlattens();
      if selected.None? {
        return Refused;
      }
      userOrders := userOrders[user := Order(Some(KeyOf(selected.value)), Some(selected.value), None)];
      return Completed;
    }

    method PlayerId(user: int, text: Option<string>) returns (outcome: Outcome)
      modifies this
      ensures BookResult(Value(), outcome) == PlayerIdStep(old(Value()), user, text)
      ensures old(Valid()) ==> Valid()
    {
      if text.None? {
        return Raised;
      }
      var playerId := Strip(text.value);
      if user !in userOrders || userOrders[user].product.None? {
        return Refused;
      }
      userOrders := userOrders[user := userOrders[user].(playerId := Some(playerId))];
      return Completed;
    }

    method CancelOrder(user: int)
      modifies this
      ensures Value() == ClearUserOrder(old(Value()), user)
      ensures old(Valid()) ==> Valid()
    {
      userOrders := userOrders - {user};
      pendingOrders := pendingOrders - {user};
    }

    method FinalConfirm(user: int, store: RequestStore, bot: Outbox) returns (outcome: Outcome)
      modifies this, store, bot
      ensures ShopStep(Value(), World(store.Value(), bot.sent), outcome)
           == FinalConfirmStep(old(Value()), old(World(store.Value(), bot.sent)), user)
      ensures old(Valid()) ==> Valid()
    {
      if !Complete(Value(), user) || user in pendingOrders {
        return Refused;
      }
      var order := userOrders[user];
      pendingOrders := pendingOrders + {user};
      var userMsg := bot.Send(user, Submitted);
      var id := store.Add(user, OrderPayload(order));
      QueueService.ProcessQueue(store, bot);
      return Completed;
    }
  }
}
