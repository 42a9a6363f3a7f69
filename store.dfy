/**
 * The shopping flow of the JSON API (app_api/views.py) and the user-provisioning hooks
 * (app/signals.py), over in-memory tables held as maps from primary key to record. Every
 * operation is a method of one Store; a request's authenticated user is a parameter.
 */
module Shop {
  import opened Wrappers
  import opened Records
  import opened Totals
  import Forms

  /** How a request fails; HTTP status codes are collapsed into these cases. */
  datatype Error =
    | AddToCartInvalid(unknownProduct: bool, badQuantity: bool)
    | CartItemUnknown
    | CartNotFound
    | CartItemNotInCart
    | CheckoutInvalid(unknownAddress: bool, badPaymentMode: bool)
    | CartEmpty
    | GatewayFailure
    | OrderNotFound
    | MultipleOrders
    | SignatureMismatch
    | AddressInvalid
    | AddressNotFound
    | UsernameTaken
    | ProfileMissing
    | IntegrityError
    | UsernameRequired
    | VerifyPaymentInvalid(blankOrderId: bool, blankPaymentId: bool, blankSignature: bool)

  /** All tables at once, so a method can say which of them it changes. */
  datatype Tables = Tables(
    users: map<Id, User>, profiles: map<Id, Profile>,
    categories: map<Id, Category>, sellers: map<Id, Seller>, products: map<Id, Product>,
    carts: map<Id, Cart>, cartItems: map<Id, CartItem>, addresses: map<Id, Address>,
    orders: map<Id, Order>, orderItems: map<Id, OrderItem>)

  /** The intended ledger invariant: what is paid and what is due make up the total. */
  predicate Balanced(o: Order) {
    o.amountPaid + o.amountDue == o.total
  }

  /** The order a checkout creates: pending, nothing paid, the whole total due. */
  function PlacedOrder(user: Id, address: Id, total: Money, mode: PaymentMode): Order {
    Order(user, address, total, mode, 0.0, total, None, None, None, Pending)
  }

  /** The order after a verified payment. */
  function PaidOrder(o: Order, paymentId: string, signature: string): Order {
    o.(gatewayPaymentId := Some(paymentId), gatewaySignature := Some(signature),
       paymentMode := OnlinePayment, amountDue := 0.0, amountPaid := o.total)
  }

  lemma PlacedOrderBalanced(user: Id, address: Id, total: Money, mode: PaymentMode)
    ensures Balanced(PlacedOrder(user, address, total, mode))
    ensures PlacedOrder(user, address, total, mode).status == Pending
  {
  }

  /** A verified payment settles the order and keeps the ledger invariant. */
  lemma PaidOrderSettles(o: Order, paymentId: string, signature: string)
    ensures Balanced(PaidOrder(o, paymentId, signature))
    ensures PaidOrder(o, paymentId, signature).amountDue == 0.0
    ensures PaidOrder(o, paymentId, signature).total == o.total
    ensures PaidOrder(o, paymentId, signature).gatewayOrderId == o.gatewayOrderId
    ensures PaidOrder(o, paymentId, signature).status == o.status
  {
  }

  /** Verifying the same payment again changes nothing further. */
  lemma PaidOrderIdempotent(o: Order, paymentId: string, signature: string)
    ensures PaidOrder(PaidOrder(o, paymentId, signature), paymentId, signature) == PaidOrder(o, paymentId, signature)
  {
  }

  /** What the address serializer demands of each field: present, non-blank, at most 255 characters. */
  predicate AddressFieldValid(s: string) {
    0 < |s| <= 255
  }

  class Store {
    /** django.utils.text.slugify, left uninterpreted. */
    const slugify: string -> string
    /** The gateway's check of (gateway order id, payment id, signature), left uninterpreted. */
    const signatureValid: (string, string, string) -> bool
    /** AbstractBaseUser.normalize_username (Unicode NFKC), left uninterpreted. */
    const normalizeUsername: string -> string
    /** BaseUserManager.normalize_email (lower-cases the domain part), left uninterpreted. */
    const normalizeEmail: string -> string

    var users: map<Id, User>
    var profiles: map<Id, Profile>
    var categories: map<Id, Category>
    var sellers: map<Id, Seller>
    var products: map<Id, Product>
    var carts: map<Id, Cart>
    var cartItems: map<Id, CartItem>
    var addresses: map<Id, Address>
    var orders: map<Id, Order>
    var orderItems: map<Id, OrderItem>
    /** The next primary key handed out by the autoincrement. */
    var nextId: Id

    ghost function Db(): Tables
      reads this
    {
      Tables(users, profiles, categories, sellers, products, carts, cartItems, addresses, orders, orderItems)
    }

    /** Every key handed out so far lies below nextId. */
    ghost predicate Allocated()
      reads this
    {
      && (forall k :: k in users ==> k < nextId)
      && (forall k :: k in profiles ==> k < nextId)
      && (forall k :: k in carts ==> k < nextId)
      && (forall k :: k in cartItems ==> k < nextId)
      && (forall k :: k in addresses ==> k < nextId)
      && (forall k :: k in orders ==> k < nextId)
      && (forall k :: k in orderItems ==> k < nextId)
    }

    /** Profiles and carts belong to stored users, at most one of each per user. */
    ghost predicate OwnersValid()
      reads this
    {
      && (forall p :: p in profiles ==> profiles[p].user in users)
      && (forall p, q :: p in profiles && q in profiles && profiles[p].user == profiles[q].user ==> p == q)
      && (forall c :: c in carts ==> carts[c].user in users)
      && (forall c, d :: c in carts && d in carts && carts[c].user == carts[d].user ==> c == d)
    }

    /** Cart lines refer to a stored cart and product, at most one line per product in a cart. */
    ghost predicate LinesValid()
      reads this
    {
      && (forall i :: i in cartItems ==> cartItems[i].cart in carts && cartItems[i].product in products)
      && (forall i, j ::
            i in cartItems && j in cartItems && cartItems[i].cart == cartItems[j].cart && cartItems[i].product == cartItems[j].product
            ==> i == j)
    }

    ghost predicate Valid()
      reads this
    {
      && Allocated()
      && OwnersValid()
      && LinesValid()
      && (forall o :: o in orders ==> Balanced(orders[o]))
    }

    /** The carts of a user (Cart.objects.filter(user=...)). */
    function CartsOf(user: Id): set<Id>
      reads this`carts
    {
      set c | c in carts && carts[c].user == user
    }

    function ProfilesOf(user: Id): set<Id>
      reads this`profiles
    {
      set p | p in profiles && profiles[p].user == user
    }

    /** The lines of a cart (CartItem.objects.filter(cart=...)). */
    function LinesOf(cart: Id): set<Id>
      reads this`cartItems
    {
      set i | i in cartItems && cartItems[i].cart == cart
    }

    /** Σ price × quantity over the lines of a cart, at today's prices. */
    ghost function CartTotal(cart: Id): Money
      reads this
      requires LinesValid()
    {
      LinesPriced(LinesOf(cart), cartItems, products);
      Sum(LinesOf(cart), LineAmounts(cartItems, products))
    }

    /** The lines of a cart for one product. */
    function LinesFor(cart: Id, product: Id): set<Id>
      reads this`cartItems
    {
      set i | i in cartItems && cartItems[i].cart == cart && cartItems[i].product == product
    }

    /** The orders carrying a gateway order id (Order.objects.filter(razorpay_order_id=...)). */
    function OrdersWithGateway(gatewayOrderId: string): set<Id>
      reads this`orders
    {
      set o | o in orders && orders[o].gatewayOrderId == Some(gatewayOrderId)
    }

    /** The usernames the sign-up form's username cleaner checks against. */
    function Usernames(): set<string>
      reads this`users
    {
      set u | u in users :: users[u].username
    }

    /** The e-mail addresses the sign-up form's e-mail cleaner checks against. */
    function Emails(): set<string>
      reads this`users
    {
      set u | u in users :: users[u].email
    }

    /**
     * SignUpForm.clean_username and clean_email run against the stored users: a value is refused
     * exactly when some stored user already has it.
     */
    lemma SignUpCleanersAgainstStore(username: string, email: string)
      ensures Forms.CleanUsername(username, Usernames()).Err? <==> exists u :: u in users && users[u].username == username
      ensures Forms.CleanSignUpEmail(email, Emails()).Err? <==> exists u :: u in users && users[u].email == email
    {
      assert forall u :: u in users && users[u].username == username ==> username in Usernames();
      assert forall u :: u in users && users[u].email == email ==> email in Emails();
    }

    /** A user's cart, when it exists: the invariant leaves at most one. */
    method FindCart(user: Id) returns (cart: Option<Id>)
      requires Valid()
      ensures cart.None? <==> CartsOf(user) == {}
      ensures cart.Some? ==> CartsOf(user) == {cart.value}
    {
      var found := CartsOf(user);
      if found == {} {
        cart := None;
      } else {
        NonEmptyHasElement(found);
        var c :| c in found;
        assert forall d :: d in found ==> d == c;
        cart := Some(c);
      }
    }

    constructor (slugify: string -> string, signatureValid: (string, string, string) -> bool,
                 normalizeUsername: string -> string, normalizeEmail: string -> string)
      ensures Valid()
      ensures this.slugify == slugify && this.signatureValid == signatureValid
      ensures this.normalizeUsername == normalizeUsername && this.normalizeEmail == normalizeEmail
      ensures Db() == Tables(map[], map[], map[], map[], map[], map[], map[], map[], map[], map[])
    {
      this.slugify := slugify;
      this.signatureValid := signatureValid;
      this.normalizeUsername := normalizeUsername;
      this.normalizeEmail := normalizeEmail;
      users, profiles, categories, sellers, products := map[], map[], map[], map[], map[];
      carts, cartItems, addresses, orders, orderItems := map[], map[], map[], map[], map[];
      nextId := 1;
    }

    // ---------------------------------------------------------------- users (signals)

    /**
     * User.objects.create_user followed by the post_save hooks with created = True. An empty
     * username raises before anything is written; otherwise the username and the e-mail are
     * normalised, and a normalised username already stored fails the insert before any hook
     * runs. create_profile then adds one Profile and one Cart for the new user, and save_profile
     * re-saves that profile unchanged.
     */
    method CreateUser(username: string, email: string) returns (r: Result<Id, Error>, ghost profile: Id, ghost cart: Id)
      requires Valid()
      modifies this
      ensures Valid()
      ensures r == Err(UsernameRequired) <==> username == ""
      ensures r == Err(UsernameTaken) <==> username != "" && normalizeUsername(username) in old(Usernames())
      ensures r.Ok? <==> username != "" && normalizeUsername(username) !in old(Usernames())
      ensures r.Err? ==> unchanged(this)
      ensures r.Ok? ==>
        && r.value !in old(users) && profile !in old(profiles) && cart !in old(carts)
        && Db() == old(Db()).(
             users := old(users)[r.value := User(normalizeUsername(username), normalizeEmail(email))],
             profiles := old(profiles)[profile := Profile(r.value, None, DefaultProfileImage)],
             carts := old(carts)[cart := Cart(r.value)])
        && ProfilesOf(r.value) == {profile} && CartsOf(r.value) == {cart}
    {
      profile, cart := 0, 0;
      if username == "" {
        return Err(UsernameRequired), profile, cart;
      }
      var name := normalizeUsername(username);
      if name in Usernames() {
        return Err(UsernameTaken), profile, cart;
      }
      var u := nextId;
      users := users[u := User(name, normalizeEmail(email))];
      var pid, cid := nextId + 1, nextId + 2;
      profiles := profiles[pid := Profile(u, None, DefaultProfileImage)];
      carts := carts[cid := Cart(u)];
      profile, cart := pid, cid;
      nextId := nextId + 3;
      assert forall p :: p in ProfilesOf(u) <==> p in {pid};
      assert forall c :: c in CartsOf(u) <==> c in {cid};
      r := Ok(u);
    }

    /**
     * A save of an existing user (created = False): no Profile and no Cart is added; save_profile
     * re-saves the user's profile unchanged, and raises when the user has none, after the user row
     * itself was written. A username held by another user fails the update.
     */
    method SaveUser(id: Id, user: User) returns (r: Result<(), Error>)
      requires Valid() && id in users
      modifies this
      ensures Valid()
      ensures (exists o :: o in old(users) && o != id && old(users)[o].username == user.username) ==>
        r == Err(UsernameTaken) && unchanged(this)
      ensures (forall o :: o in old(users) && o != id ==> old(users)[o].username != user.username) ==>
        && Db() == old(Db()).(users := old(users)[id := user])
        && nextId == old(nextId)
        && (r.Ok? <==> ProfilesOf(id) != {})
        && (r.Err? ==> r.error == ProfileMissing)
    {
      var holders := set o | o in users && o != id && users[o].username == user.username;
      if holders != {} {
        NonEmptyHasElement(holders);
        return Err(UsernameTaken);
      }
      assert forall o :: o in users && o != id && users[o].username == user.username ==> o in holders;
      users := users[id := user];
      if ProfilesOf(id) == {} {
        r := Err(ProfileMissing);
      } else {
        r := Ok(());
      }
    }

    // ---------------------------------------------------------------- catalog (models.py)

    /** Category.save with primary key `id`: fill an empty slug from the name, then write the row. */
    method SaveCategory(id: Id, c: Category) returns (r: Result<(), Error>)
      requires Valid()
      modifies this
      ensures Valid()
      ensures var saved := c.(slug := SlugOnSave(c.slug, c.name, slugify));
        && (r.Err? <==> exists k :: k in old(categories) && k != id
                                   && (old(categories)[k].name == saved.name || old(categories)[k].slug == saved.slug))
        && (r.Err? ==> r.error == IntegrityError && unchanged(this))
        && (r.Ok? ==> Db() == old(Db()).(categories := old(categories)[id := saved]) && nextId == old(nextId))
    {
      var saved := c.(slug := SlugOnSave(c.slug, c.name, slugify));
      var clash := set k | k in categories && k != id && (categories[k].name == saved.name || categories[k].slug == saved.slug);
      if clash != {} {
        NonEmptyHasElement(clash);
        return Err(IntegrityError);
      }
      assert forall k :: k in categories && k != id && (categories[k].name == saved.name || categories[k].slug == saved.slug) ==> k in clash;
      categories := categories[id := saved];
      r := Ok(());
    }

    /** Seller.save with primary key `id`: the same slug rule; user, name and slug are unique. */
    method SaveSeller(id: Id, s: Seller) returns (r: Result<(), Error>)
      requires Valid()
      modifies this
      ensures Valid()
      ensures var saved := s.(slug := SlugOnSave(s.slug, s.name, slugify));
        && (r.Err? <==>
              (|| saved.user !in old(users)
               || exists k :: k in old(sellers) && k != id
                              && (old(sellers)[k].user == saved.user || old(sellers)[k].name == saved.name
                                  || old(sellers)[k].slug == saved.slug)))
        && (r.Err? ==> r.error == IntegrityError && unchanged(this))
        && (r.Ok? ==> Db() == old(Db()).(sellers := old(sellers)[id := saved]) && nextId == old(nextId))
    {
      var saved := s.(slug := SlugOnSave(s.slug, s.name, slugify));
      var clash := set k | k in sellers && k != id
                         && (sellers[k].user == saved.user || sellers[k].name == saved.name || sellers[k].slug == saved.slug);
      if saved.user !in users || clash != {} {
        if clash != {} {
          NonEmptyHasElement(clash);
        }
        return Err(IntegrityError);
      }
      assert forall k :: k in sellers && k != id
                         && (sellers[k].user == saved.user || sellers[k].name == saved.name || sellers[k].slug == saved.slug)
                         ==> k in clash;
      sellers := sellers[id := saved];
      r := Ok(());
    }

    /**
     * Product.save with primary key `id`: the same slug rule; name and slug are unique, and the
     * user, category and seller must exist. A changed price is seen by later checkouts but not by
     * the totals already cached on cart lines.
     */
    method SaveProduct(id: Id, p: Product) returns (r: Result<(), Error>)
      requires Valid()
      modifies this
      ensures Valid()
      ensures var saved := p.(slug := SlugOnSave(p.slug, p.name, slugify));
        && (r.Err? <==>
              (|| saved.user !in old(users) || saved.category !in old(categories) || saved.seller !in old(sellers)
               || exists k :: k in old(products) && k != id
                              && (old(products)[k].name == saved.name || old(products)[k].slug == saved.slug)))
        && (r.Err? ==> r.error == IntegrityError && unchanged(this))
        && (r.Ok? ==> Db() == old(Db()).(products := old(products)[id := saved]) && nextId == old(nextId))
    {
      var saved := p.(slug := SlugOnSave(p.slug, p.name, slugify));
      var clash := set k | k in products && k != id && (products[k].name == saved.name || products[k].slug == saved.slug);
      if saved.user !in users || saved.category !in categories || saved.seller !in sellers || clash != {} {
        if clash != {} {
          NonEmptyHasElement(clash);
        }
        return Err(IntegrityError);
      }
      assert forall k :: k in products && k != id && (products[k].name == saved.name || products[k].slug == saved.slug) ==> k in clash;
      products := products[id := saved];
      r := Ok(());
    }

    // ---------------------------------------------------------------- cart (views.py)

    /**
     * The cart step of AddToCartView.post: when Cart.objects.filter(user=...).exists() fails a
     * cart is created under a fresh key (Cart.objects.create), otherwise the user's cart is
     * fetched (Cart.objects.get).
     */
    method GetOrCreateCart(user: Id) returns (c: Id)
      requires Valid() && user in users
      modifies this
      ensures Valid()
      ensures CartsOf(user) == {c}
      ensures old(CartsOf(user)) != {} ==> old(CartsOf(user)) == {c} && carts == old(carts) && nextId == old(nextId)
      ensures old(CartsOf(user)) == {} ==> c !in old(carts) && carts == old(carts)[c := Cart(user)] && nextId == old(nextId) + 1
      ensures Db() == old(Db()).(carts := carts)
    {
      ghost var oldCarts := carts;
      assert forall d :: d in carts && carts[d].user == user ==> d in CartsOf(user);
      var found := FindCart(user);
      if found.Some? {
        c := found.value;
        assert c in CartsOf(user);
        return;
      }
      c := nextId;
      carts := carts[c := Cart(user)];
      nextId := nextId + 1;
      assert forall d :: d in oldCarts ==> oldCarts[d].user != user;
      assert forall d :: d in CartsOf(user) <==> d in {c};
    }

    /**
     * The line step of AddToCartView.post: a line of the cart for the same product gets the
     * quantity added and keeps its cached total; otherwise a new line caches price × quantity.
     */
    method AddLine(c: Id, productId: Id, quantity: int) returns (l: Id)
      requires Valid() && c in carts && productId in products && quantity >= 1
      modifies this
      ensures Valid()
      ensures LinesFor(c, productId) == {l}
      ensures Db() == old(Db()).(cartItems := cartItems)
      ensures old(LinesFor(c, productId)) != {} ==>
        && old(LinesFor(c, productId)) == {l}
        && cartItems == old(cartItems)[l := old(cartItems)[l].(quantity := old(cartItems)[l].quantity + quantity)]
        && nextId == old(nextId)
      ensures old(LinesFor(c, productId)) == {} ==>
        && l !in old(cartItems)
        && cartItems == old(cartItems)[l := CartItem(c, productId, quantity, LineTotal(products[productId].price, quantity))]
        && nextId == old(nextId) + 1
    {
      var existing := LinesFor(c, productId);
      assert forall i :: i in cartItems && cartItems[i].cart == c && cartItems[i].product == productId ==> i in existing;
      if existing != {} {
        NonEmptyHasElement(existing);
        l :| l in existing;
        assert forall i :: i in existing <==> i in {l};
        var item := cartItems[l];
        cartItems := cartItems[l := item.(quantity := item.quantity + quantity)];
      } else {
        l := nextId;
        cartItems := cartItems[l := CartItem(c, productId, quantity, LineTotal(products[productId].price, quantity))];
        nextId := nextId + 1;
      }
      assert forall i :: i in LinesFor(c, productId) <==> i in {l};
    }

    /**
     * AddToCartView.post. The serializer rejects an unknown product and a quantity below 1 (both
     * reported together). Then the user's cart is fetched or created and the line added.
     */
    method AddToCart(user: Id, productId: Id, quantity: int) returns (r: Result<(), Error>, ghost cart: Id, ghost line: Id)
      requires Valid() && user in users
      modifies this
      ensures Valid()
      ensures r.Err? <==> productId !in old(products) || quantity < 1
      ensures r.Err? ==> r.error == AddToCartInvalid(productId !in old(products), quantity < 1) && unchanged(this)
      ensures r.Ok? ==> CartsOf(user) == {cart} && LinesFor(cart, productId) == {line}
      ensures r.Ok? ==> Db().(carts := old(carts), cartItems := old(cartItems)) == old(Db())
      ensures r.Ok? && old(CartsOf(user)) != {} ==> old(CartsOf(user)) == {cart} && carts == old(carts)
      ensures r.Ok? && old(CartsOf(user)) == {} ==> cart !in old(carts) && carts == old(carts)[cart := Cart(user)]
      ensures r.Ok? && old(LinesFor(cart, productId)) != {} ==>
        && old(LinesFor(cart, productId)) == {line}
        && cartItems == old(cartItems)[line := old(cartItems)[line].(quantity := old(cartItems)[line].quantity + quantity)]
      ensures r.Ok? && old(LinesFor(cart, productId)) == {} ==>
        && line !in old(cartItems)
        && cartItems == old(cartItems)[line := CartItem(cart, productId, quantity, LineTotal(old(products)[productId].price, quantity))]
    {
      cart, line := 0, 0;
      if productId !in products || quantity < 1 {
        return Err(AddToCartInvalid(productId !in products, quantity < 1)), cart, line;
      }
      var c := GetOrCreateCart(user);
      var l := AddLine(c, productId, quantity);
      cart, line := c, l;
      r := Ok(());
    }

    /**
     * RemoveFromCartView.post. An id naming no cart item is a validation error; a user without a
     * cart, or an item of another user's cart, makes the lookup raise. Otherwise exactly that line
     * is deleted.
     */
    method RemoveFromCart(user: Id, itemId: Id) returns (r: Result<(), Error>)
      requires Valid()
      modifies this
      ensures Valid()
      ensures itemId !in old(cartItems) ==> r == Err(CartItemUnknown)
      ensures itemId in old(cartItems) && old(CartsOf(user)) == {} ==> r == Err(CartNotFound)
      ensures itemId in old(cartItems) && old(CartsOf(user)) != {} && old(cartItems)[itemId].cart !in old(CartsOf(user)) ==>
        r == Err(CartItemNotInCart)
      ensures r.Err? ==> unchanged(this)
      ensures r.Ok? <==> itemId in old(cartItems) && old(cartItems)[itemId].cart in old(CartsOf(user))
      ensures r.Ok? ==> Db() == old(Db()).(cartItems := old(cartItems) - {itemId}) && nextId == old(nextId)
    {
      if itemId !in cartItems {
        return Err(CartItemUnknown);
      }
      var found := FindCart(user);
      if found.None? {
        return Err(CartNotFound);
      }
      if cartItems[itemId].cart != found.value {
        return Err(CartItemNotInCart);
      }
      cartItems := cartItems - {itemId};
      r := Ok(());
    }

    /** CartView.get: the lines of the user's cart, or "Cart not found". */
    method ViewCart(user: Id) returns (r: Result<map<Id, CartItem>, Error>)
      requires Valid()
      ensures r.Err? <==> CartsOf(user) == {}
      ensures r.Err? ==> r.error == CartNotFound
      ensures r.Ok? ==> forall i :: i in r.value <==> i in cartItems && cartItems[i].cart in CartsOf(user)
      ensures r.Ok? ==> forall i :: i in r.value ==> r.value[i] == cartItems[i]
    {
      var found := FindCart(user);
      if found.None? {
        return Err(CartNotFound);
      }
      var c := found.value;
      r := Ok(map i | i in cartItems && cartItems[i].cart == c :: cartItems[i]);
    }

    // ---------------------------------------------------------------- checkout and payment

    /**
     * CheckoutView.post. The serializer rejects an unknown address and a payment mode other than
     * the two choices (both reported together); a user without a cart makes the lookup raise; an
     * empty cart is refused. Otherwise: the grand total is summed over the lines at today's prices,
     * one Pending order is created with nothing paid and the whole total due, one order item per
     * line copies its product, quantity and cached total, and the cart's lines are deleted. For an
     * online payment the gateway order id is then stored on the order; when the gateway call
     * raises (`gatewayOrder` is None) the request fails with the order already written and the
     * cart already emptied.
     */
    method Checkout(user: Id, addressId: Id, paymentMode: string, gatewayOrder: Option<string>)
      returns (r: Result<Id, Error>, ghost cart: Id, ghost order: Id, ghost snapshot: map<Id, Id>)
      requires Valid() && user in users
      modifies this
      ensures Valid()
      ensures addressId !in old(addresses) || ParsePaymentMode(paymentMode).None? ==>
        && r == Err(CheckoutInvalid(addressId !in old(addresses), ParsePaymentMode(paymentMode).None?))
        && unchanged(this)
      ensures addressId in old(addresses) && ParsePaymentMode(paymentMode).Some? && old(CartsOf(user)) == {} ==>
        r == Err(CartNotFound) && unchanged(this)
      ensures addressId in old(addresses) && ParsePaymentMode(paymentMode).Some? && old(CartsOf(user)) != {} ==>
        old(CartsOf(user)) == {cart}
      ensures addressId in old(addresses) && ParsePaymentMode(paymentMode).Some? && old(CartsOf(user)) != {}
              && old(LinesOf(cart)) == {} ==>
        r == Err(CartEmpty) && unchanged(this)
      ensures addressId in old(addresses) && ParsePaymentMode(paymentMode).Some? && old(CartsOf(user)) != {}
              && old(LinesOf(cart)) != {} ==>
        var mode := ParsePaymentMode(paymentMode).value;
        var total := old(CartTotal(cart));
        && r == (if mode == OnlinePayment && gatewayOrder.None? then Err(GatewayFailure) else Ok(order))
        && order !in old(orders)
        && orders == old(orders)[order := PlacedOrder(user, addressId, total, mode).(
                                            gatewayOrderId := if mode == OnlinePayment then gatewayOrder else None)]
        && old(orderItems).Keys !! snapshot.Keys
        && orderItems.Keys == old(orderItems).Keys + snapshot.Keys
        && (forall k :: k in old(orderItems) ==> orderItems[k] == old(orderItems)[k])
        && SnapshotOf(snapshot, orderItems, old(cartItems), old(LinesOf(cart)), order)
        && cartItems == old(cartItems) - old(LinesOf(cart))
        && Db().(orders := old(orders), orderItems := old(orderItems), cartItems := old(cartItems)) == old(Db())
    {
      cart, order, snapshot := 0, 0, map[];
      var mode := ParsePaymentMode(paymentMode);
      if addressId !in addresses || mode.None? {
        return Err(CheckoutInvalid(addressId !in addresses, mode.None?)), cart, order, snapshot;
      }
      var found := FindCart(user);
      if found.None? {
        return Err(CartNotFound), cart, order, snapshot;
      }
      var c := found.value;
      cart := c;
      var lines := LinesOf(c);
      if lines == {} {
        return Err(CartEmpty), cart, order, snapshot;
      }
      var oid: Id;
      ghost var snap: map<Id, Id>;
      oid, snap := PlaceOrder(user, addressId, mode.value, c);
      if mode.value == OnlinePayment {
        if gatewayOrder.None? {
          r := Err(GatewayFailure);
        } else {
          orders := orders[oid := orders[oid].(gatewayOrderId := gatewayOrder)];
          r := Ok(oid);
        }
      } else {
        r := Ok(oid);
      }
      order, snapshot := oid, snap;
    }

    /**
     * The writes of a successful checkout: the order at the cart's priced total, one order item
     * per line, and the cart emptied.
     */
    method PlaceOrder(user: Id, addressId: Id, mode: PaymentMode, c: Id) returns (oid: Id, ghost snap: map<Id, Id>)
      requires Valid() && user in users && addressId in addresses && c in carts
      modifies this
      ensures Valid()
      ensures oid !in old(orders) && oid < nextId
      ensures orders == old(orders)[oid := PlacedOrder(user, addressId, old(CartTotal(c)), mode)]
      ensures old(orderItems).Keys !! snap.Keys
      ensures orderItems.Keys == old(orderItems).Keys + snap.Keys
      ensures forall k :: k in old(orderItems) ==> orderItems[k] == old(orderItems)[k]
      ensures SnapshotOf(snap, orderItems, old(cartItems), old(LinesOf(c)), oid)
      ensures cartItems == old(cartItems) - old(LinesOf(c))
      ensures Db().(orders := old(orders), orderItems := old(orderItems), cartItems := old(cartItems)) == old(Db())
    {
      var lines := LinesOf(c);
      var items, prices := cartItems, products;
      LinesPriced(lines, items, prices);
      var grandTotal := GrandTotal(lines, items, prices);
      assert grandTotal == CartTotal(c);
      PlacedOrderBalanced(user, addressId, grandTotal, mode);
      oid := InsertOrder(PlacedOrder(user, addressId, grandTotal, mode));

      // bulk_create: one order item per line
      var created: map<Id, OrderItem>;
      var next: Id;
      created, next, snap := CopyLines(lines, items, oid, nextId);
      InsertOrderItems(created, next);
      SnapshotWiden(snap, created, orderItems, items, lines, oid);

      // CartItem.objects.filter(cart=cart).delete()
      DeleteLines(lines);
    }

    /** Order.objects.create: the order under a fresh key. */
    method InsertOrder(o: Order) returns (oid: Id)
      requires Valid() && Balanced(o)
      modifies this
      ensures Valid()
      ensures oid == old(nextId) && nextId == oid + 1 && oid !in old(orders)
      ensures Db() == old(Db()).(orders := old(orders)[oid := o])
    {
      oid := nextId;
      orders := orders[oid := o];
      nextId := nextId + 1;
    }

    /** The insert of a bulk_create: rows under keys from nextId up to `next`. */
    method InsertOrderItems(created: map<Id, OrderItem>, next: Id)
      requires Valid() && nextId <= next
      requires forall k :: k in created ==> nextId <= k < next
      modifies this
      ensures Valid()
      ensures nextId == next
      ensures old(orderItems).Keys !! created.Keys
      ensures Db() == old(Db()).(orderItems := old(orderItems) + created)
    {
      assert forall k :: k in created ==> k !in orderItems;
      orderItems := orderItems + created;
      nextId := next;
    }

    /** A queryset delete of cart lines. */
    method DeleteLines(lines: set<Id>)
      requires Valid()
      modifies this
      ensures Valid()
      ensures nextId == old(nextId)
      ensures Db() == old(Db()).(cartItems := old(cartItems) - lines)
    {
      cartItems := cartItems - lines;
    }

    /**
     * VerifyPaymentView.post. The serializer refuses a blank gateway order id, payment id or
     * signature (all reported together). The order is then looked up by its gateway order id
     * (none or several make the lookup raise), whoever placed it. Only when the gateway accepts
     * the signature is the order saved as paid online, with the payment id and signature
     * attached; otherwise nothing is saved.
     */
    method VerifyPayment(gatewayOrderId: string, paymentId: string, signature: string) returns (r: Result<Id, Error>)
      requires Valid()
      modifies this
      ensures Valid()
      ensures r.Err? ==> unchanged(this)
      ensures gatewayOrderId == "" || paymentId == "" || signature == "" ==>
        r == Err(VerifyPaymentInvalid(gatewayOrderId == "", paymentId == "", signature == ""))
      ensures r == Err(OrderNotFound) <==>
        gatewayOrderId != "" && paymentId != "" && signature != "" && old(OrdersWithGateway(gatewayOrderId)) == {}
      ensures r == Err(MultipleOrders) <==>
        gatewayOrderId != "" && paymentId != "" && signature != "" && |old(OrdersWithGateway(gatewayOrderId))| > 1
      ensures r == Err(SignatureMismatch) <==>
        && gatewayOrderId != "" && paymentId != "" && signature != ""
        && |old(OrdersWithGateway(gatewayOrderId))| == 1 && !signatureValid(gatewayOrderId, paymentId, signature)
      ensures r.Ok? <==>
        && gatewayOrderId != "" && paymentId != "" && signature != ""
        && |old(OrdersWithGateway(gatewayOrderId))| == 1 && signatureValid(gatewayOrderId, paymentId, signature)
      ensures r.Ok? ==>
        && old(OrdersWithGateway(gatewayOrderId)) == {r.value}
        && Db() == old(Db()).(orders := old(orders)[r.value := PaidOrder(old(orders)[r.value], paymentId, signature)])
        && nextId == old(nextId)
    {
      if gatewayOrderId == "" || paymentId == "" || signature == "" {
        return Err(VerifyPaymentInvalid(gatewayOrderId == "", paymentId == "", signature == ""));
      }
      var matches := OrdersWithGateway(gatewayOrderId);
      if matches == {} {
        return Err(OrderNotFound);
      }
      if |matches| > 1 {
        return Err(MultipleOrders);
      }
      NonEmptyHasElement(matches);
      var o :| o in matches;
      SingletonOfSizeOne(matches, o);
      if !signatureValid(gatewayOrderId, paymentId, signature) {
        return Err(SignatureMismatch);
      }
      PaidOrderSettles(orders[o], paymentId, signature);
      orders := orders[o := PaidOrder(orders[o], paymentId, signature)];
      r := Ok(o);
    }

    /** OrdersView.get: the user's orders with their order items. */
    method ListOrders(user: Id) returns (mine: map<Id, Order>, items: map<Id, OrderItem>)
      ensures forall o :: o in mine <==> o in orders && orders[o].user == user
      ensures forall o :: o in mine ==> mine[o] == orders[o]
      ensures forall k :: k in items <==> k in orderItems && orderItems[k].order in mine
      ensures forall k :: k in items ==> items[k] == orderItems[k]
    {
      mine := map o | o in orders && orders[o].user == user :: orders[o];
      items := map k | k in orderItems && orderItems[k].order in mine :: orderItems[k];
    }

    // ---------------------------------------------------------------- addresses

    /** AddressesView.get: the user's addresses. */
    method ListAddresses(user: Id) returns (mine: map<Id, Address>)
      ensures forall a :: a in mine <==> a in addresses && addresses[a].user == user
      ensures forall a :: a in mine ==> mine[a] == addresses[a]
    {
      mine := map a | a in addresses && addresses[a].user == user :: addresses[a];
    }

    /**
     * AddressesView.post: the five serialized fields must each be present and fit the column; the
     * address is stored for the requesting user with an empty country, which the serializer does
     * not expose.
     */
    method AddAddress(user: Id, address: string, city: string, state: string, pincode: string, phone: string)
      returns (r: Result<Id, Error>)
      requires Valid() && user in users
      modifies this
      ensures Valid()
      ensures r.Ok? <==>
        AddressFieldValid(address) && AddressFieldValid(city) && AddressFieldValid(state)
        && AddressFieldValid(pincode) && AddressFieldValid(phone)
      ensures r.Err? ==> r.error == AddressInvalid && unchanged(this)
      ensures r.Ok? ==>
        && r.value !in old(addresses)
        && Db() == old(Db()).(addresses := old(addresses)[r.value := Address(user, address, city, state, "", pincode, phone)])
    {
      if !(AddressFieldValid(address) && AddressFieldValid(city) && AddressFieldValid(state)
           && AddressFieldValid(pincode) && AddressFieldValid(phone)) {
        return Err(AddressInvalid);
      }
      var id := nextId;
      addresses := addresses[id := Address(user, address, city, state, "", pincode, phone)];
      nextId := nextId + 1;
      r := Ok(id);
    }

    /**
     * AddressesView.delete: deletes the address with that id, whoever owns it; the orders placed
     * with it and their order items go with it (cascading foreign keys).
     */
    method DeleteAddress(id: Id) returns (r: Result<(), Error>)
      requires Valid()
      modifies this
      ensures Valid()
      ensures r.Err? <==> id !in old(addresses)
      ensures r.Err? ==> r.error == AddressNotFound && unchanged(this)
      ensures r.Ok? ==>
        var gone := set o | o in old(orders) && old(orders)[o].address == id;
        && Db() == old(Db()).(
             addresses := old(addresses) - {id},
             orders := old(orders) - gone,
             orderItems := old(orderItems) - (set k | k in old(orderItems) && old(orderItems)[k].order in gone))
        && nextId == old(nextId)
    {
      if id !in addresses {
        return Err(AddressNotFound);
      }
      var gone := set o | o in orders && orders[o].address == id;
      addresses := addresses - {id};
      orderItems := orderItems - (set k | k in orderItems && orderItems[k].order in gone);
      orders := orders - gone;
      r := Ok(());
    }
  }
}
