/** The checkout schemas of `src/schemaValidation/order.shema.ts`: the
    billing form and the body of an order. Both drop unknown keys. */
module OrderSchema {
  import opened Wrappers
  import opened Zod
  import opened DataConfig

  /** `z.enum(["free", "standard", "express"])`. */
  const DeliveryKeys: seq<string> := ["free", "standard", "express"]
  /** `z.enum(["cash", "paypal", "card"])`. */
  const PaymentKeys: seq<string> := ["cash", "paypal", "card"]

  /** The enum accepts exactly the keys of the delivery table. */
  lemma DeliveryKeysAreTheMethods(key: string)
    ensures key in DeliveryKeys <==> DeliveryFromKey(key).Some?
  {
  }

  lemma PaymentKeysAreTheMethods(key: string)
    ensures key in PaymentKeys <==> PaymentFromKey(key).Some?
  {
  }

  // BillingAddressSchema

  datatype BillingInput = BillingInput(
    customerId: Option<real>, phone: Option<string>, address: Option<string>,
    deliveryMethod: Option<string>, paymentMethod: Option<string>)

  datatype Billing = Billing(
    customerId: real, phone: string, address: string,
    deliveryMethod: DeliveryMethod, paymentMethod: PaymentMethod)

  const PhoneTooShort: string := "Phone number must be at least 10 digits"
  const AddressRequired: string := "Address is required"

  /** `.default(value)`: an absent key takes the default. */
  function WithDefault(v: Option<string>, default: string): (key: string)
    ensures v.None? ==> key == default
    ensures v.Some? ==> key == v.value
  {
    if v.None? then default else v.value
  }

  function BillingIssues(input: BillingInput): seq<Issue> {
    Required("customerId", input.customerId, (n: real) => []) +
    Required("phone", input.phone, s => Check("phone", |s| >= 10, PhoneTooShort)) +
    Required("address", input.address, s => Check("address", |s| >= 1, AddressRequired)) +
    OneOf("deliveryMethod", WithDefault(input.deliveryMethod, "free"), DeliveryKeys) +
    OneOf("paymentMethod", WithDefault(input.paymentMethod, "cash"), PaymentKeys)
  }

  /** `BillingAddressSchema.safeParse`: a phone of at least 10 characters
      (of any kind), a non-empty address, any number as customer id, and
      the two methods, which default to free delivery and cash. */
  function ParseBilling(input: BillingInput): (r: Result<Billing, seq<Issue>>)
    ensures r.Ok? <==>
      (input.customerId.Some? && input.phone.Some? && input.address.Some? &&
       |input.phone.value| >= 10 && |input.address.value| >= 1 &&
       (input.deliveryMethod.Some? ==> input.deliveryMethod.value in DeliveryKeys) &&
       (input.paymentMethod.Some? ==> input.paymentMethod.value in PaymentKeys))
    ensures r.Err? ==> r.error == BillingIssues(input) && r.error != []
    ensures r.Ok? ==>
      (r.value.customerId == input.customerId.value && r.value.phone == input.phone.value &&
       r.value.address == input.address.value &&
       r.value.deliveryMethod == (if input.deliveryMethod.None? then Free else DeliveryFromKey(input.deliveryMethod.value).value) &&
       r.value.paymentMethod == (if input.paymentMethod.None? then Cash else PaymentFromKey(input.paymentMethod.value).value))
  {
    var issues := BillingIssues(input);
    if issues != [] then Err(issues)
    else
      DeliveryKeysAreTheMethods(WithDefault(input.deliveryMethod, "free"));
      PaymentKeysAreTheMethods(WithDefault(input.paymentMethod, "cash"));
      Ok(Billing(input.customerId.value, input.phone.value, input.address.value,
        DeliveryFromKey(WithDefault(input.deliveryMethod, "free")).value,
        PaymentFromKey(WithDefault(input.paymentMethod, "cash")).value))
  }

  /** Nothing checks that the phone is made of digits: ten letters pass;
      and the form without methods picks free delivery and cash. */
  lemma BillingExample(id: real)
    ensures ParseBilling(BillingInput(Some(id), Some("abcdefghij"), Some("x"), None, None)) ==
      Ok(Billing(id, "abcdefghij", "x", Free, Cash))
  {
  }

  // orderBody

  datatype ProductLineInput = ProductLineInput(productId: Option<real>, quantity: Option<real>)

  datatype ProductLine = ProductLine(productId: real, quantity: real)

  datatype OrderBodyInput = OrderBodyInput(
    customerId: Option<real>, phone: Option<string>, address: Option<string>, shippingCost: Option<real>,
    deliveryMethod: Option<string>, paymentMethod: Option<string>, subTotal: Option<real>, grandTotal: Option<real>,
    products: Option<seq<ProductLineInput>>)

  datatype OrderBody = OrderBody(
    customerId: real, phone: string, address: string, shippingCost: real,
    deliveryMethod: DeliveryMethod, paymentMethod: PaymentMethod, subTotal: real, grandTotal: real,
    products: seq<ProductLine>)

  /** The issues of the line at index `i` of `products`. */
  function LineIssues(i: nat, line: ProductLineInput): seq<Issue> {
    (if line.productId.None? then [Missing([Key("products"), Index(i), Key("productId")])] else []) +
    (if line.quantity.None? then [Missing([Key("products"), Index(i), Key("quantity")])] else [])
  }

  /** The issues of the lines, numbered from `start`. */
  function LinesIssues(lines: seq<ProductLineInput>, start: nat): seq<Issue>
    decreases |lines|
  {
    if lines == [] then [] else LineIssues(start, lines[0]) + LinesIssues(lines[1..], start + 1)
  }

  predicate Complete(line: ProductLineInput) {
    line.productId.Some? && line.quantity.Some?
  }

  /** The lines are accepted exactly when every line has both numbers;
      there is no range check on either. */
  lemma {:induction false} LinesAcceptedIff(lines: seq<ProductLineInput>, start: nat)
    ensures LinesIssues(lines, start) == [] <==> forall i :: 0 <= i < |lines| ==> Complete(lines[i])
    decreases |lines|
  {
    if lines != [] {
      LinesAcceptedIff(lines[1..], start + 1);
      assert forall i :: 1 <= i < |lines| ==> lines[i] == lines[1..][i - 1];
    }
  }

  /** Every missing number is reported at its own line's index. */
  lemma {:induction false} MissingQuantityReported(lines: seq<ProductLineInput>, start: nat, i: nat)
    requires i < |lines| && lines[i].quantity.None?
    ensures Missing([Key("products"), Index(start + i), Key("quantity")]) in LinesIssues(lines, start)
    decreases |lines|
  {
    if i == 0 {
      assert Missing([Key("products"), Index(start), Key("quantity")]) in LineIssues(start, lines[0]);
    } else {
      MissingQuantityReported(lines[1..], start + 1, i - 1);
    }
  }

  function OrderBodyIssues(input: OrderBodyInput): seq<Issue> {
    Required("customerId", input.customerId, (n: real) => []) +
    Required("phone", input.phone, (s: string) => []) +
    Required("address", input.address, (s: string) => []) +
    Required("shippingCost", input.shippingCost, (n: real) => []) +
    Required("deliveryMethod", input.deliveryMethod, s => OneOf("deliveryMethod", s, DeliveryKeys)) +
    Required("paymentMethod", input.paymentMethod, s => OneOf("paymentMethod", s, PaymentKeys)) +
    Required("subTotal", input.subTotal, (n: real) => []) +
    Required("grandTotal", input.grandTotal, (n: real) => []) +
    Required("products", input.products, lines => LinesIssues(lines, 0))
  }

  /** `orderBody.safeParse`: all nine fields are required, the methods
      must be known keys, and each product line needs both numbers. */
  function ParseOrderBody(input: OrderBodyInput): (r: Result<OrderBody, seq<Issue>>)
    ensures r.Ok? <==>
      (input.customerId.Some? && input.phone.Some? && input.address.Some? && input.shippingCost.Some? &&
       input.deliveryMethod.Some? && input.paymentMethod.Some? && input.subTotal.Some? &&
       input.grandTotal.Some? && input.products.Some? &&
       input.deliveryMethod.value in DeliveryKeys && input.paymentMethod.value in PaymentKeys &&
       forall i :: 0 <= i < |input.products.value| ==> Complete(input.products.value[i]))
    ensures r.Err? ==> r.error == OrderBodyIssues(input) && r.error != []
    ensures r.Ok? ==>
      (r.value.customerId == input.customerId.value && r.value.phone == input.phone.value &&
       r.value.address == input.address.value && r.value.shippingCost == input.shippingCost.value &&
       r.value.deliveryMethod == DeliveryFromKey(input.deliveryMethod.value).value &&
       r.value.paymentMethod == PaymentFromKey(input.paymentMethod.value).value &&
       r.value.subTotal == input.subTotal.value && r.value.grandTotal == input.grandTotal.value)
    ensures r.Ok? ==>
      (|r.value.products| == |input.products.value| &&
       forall i :: 0 <= i < |r.value.products| ==>
         r.value.products[i] == ProductLine(input.products.value[i].productId.value, input.products.value[i].quantity.value))
  {
    var lines := if input.products.Some? then input.products.value else [];
    LinesAcceptedIff(lines, 0);
    var issues := OrderBodyIssues(input);
    if issues != [] then Err(issues)
    else
      DeliveryKeysAreTheMethods(input.deliveryMethod.value);
      PaymentKeysAreTheMethods(input.paymentMethod.value);
      Ok(OrderBody(input.customerId.value, input.phone.value, input.address.value, input.shippingCost.value,
        DeliveryFromKey(input.deliveryMethod.value).value, PaymentFromKey(input.paymentMethod.value).value,
        input.subTotal.value, input.grandTotal.value,
        seq(|lines|, i requires 0 <= i < |lines| && Complete(lines[i]) => ProductLine(lines[i].productId.value, lines[i].quantity.value))))
  }
}
