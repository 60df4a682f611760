/** The constant tables of `src/helper/dataConfig.ts`: display settings per
    order status, delivery method and payment method, and the option lists
    the checkout form offers. The enumerations are the string unions of the
    order type in `src/service/order.ts`. */
module DataConfig {
  import opened Wrappers

  datatype OrderStatus = Pending | Processing | Delivering | Completed | Cancelled
  datatype DeliveryMethod = Standard | Express | Free
  datatype PaymentMethod = Cash | Paypal | Card

  /** The icon components the tables refer to. */
  datatype Icon = Clock | Package | Truck | CheckCircle | XCircle | Bike | Plane | Banknote | Palette | CreditCard

  datatype BadgeVariant = DefaultVariant | SecondaryVariant | DestructiveVariant | OutlineVariant

  // ---------------------------------------------------------------------
  // Keys
  // ---------------------------------------------------------------------

  function StatusKey(s: OrderStatus): string {
    match s
    case Pending => "pending"
    case Processing => "processing"
    case Delivering => "delivering"
    case Completed => "completed"
    case Cancelled => "cancelled"
  }

  /** The status a key names, if any. */
  function StatusFromKey(key: string): (r: Option<OrderStatus>)
    ensures r.Some? ==> StatusKey(r.value) == key
  {
    if key == "pending" then Some(Pending)
    else if key == "processing" then Some(Processing)
    else if key == "delivering" then Some(Delivering)
    else if key == "completed" then Some(Completed)
    else if key == "cancelled" then Some(Cancelled)
    else None
  }

  function DeliveryKey(m: DeliveryMethod): string {
    match m
    case Standard => "standard"
    case Express => "express"
    case Free => "free"
  }

  function DeliveryFromKey(key: string): (r: Option<DeliveryMethod>)
    ensures r.Some? ==> DeliveryKey(r.value) == key
  {
    if key == "standard" then Some(Standard)
    else if key == "express" then Some(Express)
    else if key == "free" then Some(Free)
    else None
  }

  function PaymentKey(m: PaymentMethod): string {
    match m
    case Cash => "cash"
    case Paypal => "paypal"
    case Card => "card"
  }

  function PaymentFromKey(key: string): (r: Option<PaymentMethod>)
    ensures r.Some? ==> PaymentKey(r.value) == key
  {
    if key == "cash" then Some(Cash)
    else if key == "paypal" then Some(Paypal)
    else if key == "card" then Some(Card)
    else None
  }

  /** Every status has its own key, and looking a key up finds it again:
      the status table is keyed by exactly the five statuses. */
  lemma StatusKeysRoundTrip(s: OrderStatus)
    ensures StatusFromKey(StatusKey(s)) == Some(s)
  {
  }

  lemma DeliveryKeysRoundTrip(m: DeliveryMethod)
    ensures DeliveryFromKey(DeliveryKey(m)) == Some(m)
  {
  }

  lemma PaymentKeysRoundTrip(m: PaymentMethod)
    ensures PaymentFromKey(PaymentKey(m)) == Some(m)
  {
  }

  // ---------------------------------------------------------------------
  // statusConfig
  // ---------------------------------------------------------------------

  datatype StatusStyle = StatusStyle(text: string, variant: BadgeVariant, icon: Icon, color: string, bgColor: string, dotColor: string)

  /** `statusConfig[status]`. */
  function StatusConfig(s: OrderStatus): StatusStyle {
    match s
    case Pending => StatusStyle("Pending", SecondaryVariant, Clock,
      "bg-yellow-100 text-yellow-800 border-yellow-200", "bg-gradient-to-r from-amber-50 to-orange-50", "bg-amber-500")
    case Processing => StatusStyle("Processing", DefaultVariant, Package,
      "bg-blue-100 text-blue-800 border-blue-200", "bg-gradient-to-r from-blue-50 to-indigo-50", "bg-blue-500")
    case Delivering => StatusStyle("Delivering", DefaultVariant, Truck,
      "bg-purple-100 text-purple-800 border-purple-200", "bg-gradient-to-r from-purple-50 to-violet-50", "bg-purple-500")
    case Completed => StatusStyle("Completed", DefaultVariant, CheckCircle,
      "bg-green-100 text-green-800 border-green-200", "bg-gradient-to-r from-green-50 to-emerald-50", "bg-green-500")
    case Cancelled => StatusStyle("Cancelled", DestructiveVariant, XCircle,
      "bg-red-100 text-red-800 border-red-200", "bg-gradient-to-r from-red-50 to-rose-50", "bg-red-500")
  }

  /** Only a cancelled order gets the destructive badge and only a pending
      one the secondary badge. */
  lemma StatusVariants(s: OrderStatus)
    ensures StatusConfig(s).variant == DestructiveVariant <==> s == Cancelled
    ensures StatusConfig(s).variant == SecondaryVariant <==> s == Pending
    ensures StatusConfig(s).variant != OutlineVariant
  {
  }

  /** Distinct statuses are shown with distinct labels. */
  lemma StatusLabelsDistinct(s: OrderStatus, t: OrderStatus)
    ensures StatusConfig(s).text == StatusConfig(t).text <==> s == t
  {
    LabelStartNamesStatus(s);
    LabelStartNamesStatus(t);
  }

  /** The status whose label starts with `a` then `b`. */
  function StatusOfLabelStart(a: char, b: char): OrderStatus {
    if a == 'P' then (if b == 'e' then Pending else Processing)
    else if a == 'D' then Delivering
    else if b == 'o' then Completed
    else Cancelled
  }

  /** The first two characters of a label tell its status. */
  lemma LabelStartNamesStatus(s: OrderStatus)
    ensures |StatusConfig(s).text| >= 2
    ensures StatusOfLabelStart(StatusConfig(s).text[0], StatusConfig(s).text[1]) == s
  {
  }

  // ---------------------------------------------------------------------
  // deliveryMethodConfig and deliveryOptions
  // ---------------------------------------------------------------------

  datatype DeliveryStyle = DeliveryStyle(text: string, color: string, price: string, description: string, icon: Icon)

  /** `deliveryMethodConfig[method]`. */
  function DeliveryMethodConfig(m: DeliveryMethod): DeliveryStyle {
    match m
    case Standard => DeliveryStyle("Standard", "bg-gray-100 text-gray-800", "$10", "3-5 days delivery", Truck)
    case Express => DeliveryStyle("Express", "bg-orange-100 text-orange-800", "$20", "2-3 days delivery", Plane)
    case Free => DeliveryStyle("Free", "bg-green-100 text-green-800", "$0", "5-7 days delivery", Bike)
  }

  datatype DeliveryOption = DeliveryOption(id: string, value: string, name: string, price: string, description: string, icon: Icon)

  /** `deliveryOptions`. */
  const DeliveryOptions: seq<DeliveryOption> := [
    DeliveryOption("free", "free", "Free", "$0", "5-7 days delivery", Bike),
    DeliveryOption("standard", "standard", "Standard", "$10", "3-5 days delivery", Truck),
    DeliveryOption("express", "express", "Express", "$20", "2-3 days delivery", Plane)
  ]

  /** The delivery options are free, standard and express in that order;
      each option's id is its value, and its name, price, description and
      icon are those of the method's entry in `deliveryMethodConfig`. */
  lemma DeliveryOptionsAgree()
    ensures |DeliveryOptions| == 3
    ensures DeliveryFromKey(DeliveryOptions[0].value) == Some(Free)
    ensures DeliveryFromKey(DeliveryOptions[1].value) == Some(Standard)
    ensures DeliveryFromKey(DeliveryOptions[2].value) == Some(Express)
    ensures forall i :: 0 <= i < |DeliveryOptions| ==>
      var o := DeliveryOptions[i];
      o.id == o.value && DeliveryFromKey(o.value).Some? &&
      var c := DeliveryMethodConfig(DeliveryFromKey(o.value).value);
      o.name == c.text && o.price == c.price && o.description == c.description && o.icon == c.icon
  {
  }

  /** Delivery prices: free costs "$0", standard "$10", express "$20". */
  lemma DeliveryPrices()
    ensures DeliveryMethodConfig(Free).price == "$0"
    ensures DeliveryMethodConfig(Standard).price == "$10"
    ensures DeliveryMethodConfig(Express).price == "$20"
  {
  }

  // ---------------------------------------------------------------------
  // paymentMethodConfig and paymentOptions
  // ---------------------------------------------------------------------

  datatype PaymentStyle = PaymentStyle(text: string, emoji: string, name: string, description: string, icon: Icon)

  /** `paymentMethodConfig[method]`. */
  function PaymentMethodConfig(m: PaymentMethod): PaymentStyle {
    match m
    case Cash => PaymentStyle("Cash on Delivery", "\U{1F4B5}", "Cash", "Pay with cash when your order is delivered.", Banknote)
    case Paypal => PaymentStyle("PayPal", "\U{1F499}", "Pay with Paypal",
      "You will be redirected to PayPal website to complete your purchase securely.", Palette)
    case Card => PaymentStyle("Credit Card", "\U{1F4B3}", "Credit / Debit card", "We support Mastercard, Visa, Discover and Stripe.", CreditCard)
  }

  datatype PaymentOption = PaymentOption(id: string, value: string, name: string, description: string, icon: Icon)

  /** `paymentOptions`. */
  const PaymentOptions: seq<PaymentOption> := [
    PaymentOption("cash", "cash", "Cash", "Pay with cash when your order is delivered.", Banknote),
    PaymentOption("paypal", "paypal", "Pay with Paypal",
      "You will be redirected to PayPal website to complete your purchase securely.", Palette),
    PaymentOption("card", "card", "Credit / Debit card", "We support Mastercard, Visa, Discover and Stripe.", CreditCard)
  ]

  /** The payment options are cash, paypal and card in that order; each
      option's id is its value, and its name, description and icon are
      those of the method's entry in `paymentMethodConfig`. */
  lemma PaymentOptionsAgree()
    ensures |PaymentOptions| == 3
    ensures PaymentFromKey(PaymentOptions[0].value) == Some(Cash)
    ensures PaymentFromKey(PaymentOptions[1].value) == Some(Paypal)
    ensures PaymentFromKey(PaymentOptions[2].value) == Some(Card)
    ensures forall i :: 0 <= i < |PaymentOptions| ==>
      var o := PaymentOptions[i];
      o.id == o.value && PaymentFromKey(o.value).Some? &&
      var c := PaymentMethodConfig(PaymentFromKey(o.value).value);
      o.name == c.name && o.description == c.description && o.icon == c.icon
  {
  }
}
