/**
 * Record shapes of the persisted models (app/models.py), the two choice domains of an Order,
 * and the slug rule that Category.save, Seller.save and Product.save apply before persisting.
 */
module Records {
  import opened Wrappers

  /** Primary keys (BigAutoField). */
  type Id = int

  /** Prices and amounts; the source stores them as FloatField, here they are exact. */
  type Money = real

  datatype User = User(username: string, email: string)

  /** `dob` is a timestamp when set; the image path defaults as in the model. */
  datatype Profile = Profile(user: Id, dob: Option<int>, image: string)

  const DefaultProfileImage := "default-profile.jpg"

  datatype Category = Category(name: string, slug: string, description: string, image: string)

  datatype Seller = Seller(user: Id, name: string, slug: string, description: string, image: string)

  datatype Product = Product(
    user: Id, name: string, slug: string, description: string,
    category: Id, seller: Id, price: Money, image: string)

  datatype Cart = Cart(user: Id)

  /** A cart line; `total` is the amount cached when the line was created. */
  datatype CartItem = CartItem(cart: Id, product: Id, quantity: int, total: Money)

  /** The amount of a line: unit price times quantity. */
  function LineTotal(price: Money, quantity: int): Money
  {
    price * (quantity as real)
  }

  datatype Address = Address(
    user: Id, address: string, city: string, state: string, country: string,
    pincode: string, phone: string)

  /** The choices of Order.status. */
  datatype Status = Pending | Delivered | Cancelled

  /** The choices of Order.payment_mode. */
  datatype PaymentMode = CashOnDelivery | OnlinePayment

  datatype Order = Order(
    user: Id, address: Id, total: Money, paymentMode: PaymentMode,
    amountPaid: Money, amountDue: Money,
    gatewayOrderId: Option<string>, gatewayPaymentId: Option<string>,
    gatewaySignature: Option<string>, status: Status)

  datatype OrderItem = OrderItem(order: Id, product: Id, quantity: int, total: Money)

  /** The stored label of a status choice. */
  function StatusLabel(s: Status): string {
    match s
    case Pending => "Pending"
    case Delivered => "Delivered"
    case Cancelled => "Cancelled"
  }

  /** Reads a stored status label back; exactly the three labels are accepted. */
  function ParseStatus(s: string): (r: Option<Status>)
    ensures r.Some? ==> StatusLabel(r.value) == s
    ensures r.None? ==> forall st: Status :: StatusLabel(st) != s
  {
    if s == "Pending" then Some(Pending)
    else if s == "Delivered" then Some(Delivered)
    else if s == "Cancelled" then Some(Cancelled)
    else None
  }

  /** The stored label of a payment-mode choice. */
  function PaymentModeLabel(m: PaymentMode): string {
    match m
    case CashOnDelivery => "Cash on Delivery"
    case OnlinePayment => "Online Payment"
  }

  /** Reads a payment-mode label; exactly the two labels are accepted. */
  function ParsePaymentMode(s: string): (r: Option<PaymentMode>)
    ensures r.Some? ==> PaymentModeLabel(r.value) == s
    ensures r.None? ==> forall m: PaymentMode :: PaymentModeLabel(m) != s
  {
    if s == "Cash on Delivery" then Some(CashOnDelivery)
    else if s == "Online Payment" then Some(OnlinePayment)
    else None
  }

  lemma StatusRoundTrip(s: Status)
    ensures ParseStatus(StatusLabel(s)) == Some(s)
  {
  }

  lemma PaymentModeRoundTrip(m: PaymentMode)
    ensures ParsePaymentMode(PaymentModeLabel(m)) == Some(m)
  {
  }

  /** The slug a save persists: the slug itself when set, otherwise slugify(name). */
  function SlugOnSave(slug: string, name: string, slugify: string -> string): string {
    if slug == "" then slugify(name) else slug
  }

  /** A save of an object whose slug is empty fills it from the name. */
  lemma EmptySlugFilled(name: string, slugify: string -> string)
    ensures SlugOnSave("", name, slugify) == slugify(name)
  {
  }

  /** A non-empty slug survives every save, whatever the name has become. */
  lemma SetSlugKept(slug: string, name: string, slugify: string -> string)
    requires slug != ""
    ensures SlugOnSave(slug, name, slugify) == slug
  {
  }

  /** Saving twice persists the same slug as saving once. */
  lemma SlugSaveIdempotent(slug: string, name: string, slugify: string -> string)
    ensures SlugOnSave(SlugOnSave(slug, name, slugify), name, slugify) == SlugOnSave(slug, name, slugify)
  {
  }
}
