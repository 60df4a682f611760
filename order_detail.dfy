/** The order detail dialog of `src/components/admin/order-detail.tsx`: what
    it derives from the selected order. */
module OrderDetail {
  import opened Wrappers
  import opened DataConfig
  import opened OrderService

  /** `subTotal + shippingCost - grandTotal`. */
  function Discount(o: Order): (d: real)
    ensures o.grandTotal == o.subTotal + o.shippingCost - d
    ensures d > 0.0 <==> o.grandTotal < o.subTotal + o.shippingCost
  {
    o.subTotal + o.shippingCost - o.grandTotal
  }

  /** The discount is the one value that makes the grand total add up. */
  lemma DiscountIsUnique(o: Order, d: real)
    requires o.grandTotal == o.subTotal + o.shippingCost - d
    ensures d == Discount(o)
  {
  }

  /** The word of the item badge. */
  function ItemWord(count: int): (w: string)
    ensures w == "item" <==> count == 1
    ensures w == "items" <==> count != 1
  {
    if count == 1 then "item" else "items"
  }

  /** What the dialog shows of an order. */
  datatype DetailView = DetailView(
    orderId: int, status: StatusStyle, delivery: DeliveryStyle, payment: PaymentStyle,
    itemCount: int, itemWord: string, discount: real, showsDiscount: bool)

  /** The dialog: nothing for no order; otherwise the three table entries of
      the order's status, delivery and payment method, the item badge, and
      the discount row only for a positive discount. */
  function Detail(order: Option<Order>): (v: Option<DetailView>)
    ensures v.Some? <==> order.Some?
    ensures v.Some? ==> var o := order.value;
      v.value.orderId == o.id &&
      v.value.status == StatusConfig(o.status) &&
      v.value.delivery == DeliveryMethodConfig(o.deliveryMethod) &&
      v.value.payment == PaymentMethodConfig(o.paymentMethod) &&
      v.value.itemCount == |o.orderProducts| &&
      (v.value.itemWord == "item" <==> |o.orderProducts| == 1) &&
      o.grandTotal == o.subTotal + o.shippingCost - v.value.discount &&
      (v.value.showsDiscount <==> o.grandTotal < o.subTotal + o.shippingCost)
  {
    match order
    case None => None
    case Some(o) =>
      var d := Discount(o);
      Some(DetailView(o.id, StatusConfig(o.status), DeliveryMethodConfig(o.deliveryMethod),
        PaymentMethodConfig(o.paymentMethod), |o.orderProducts|, ItemWord(|o.orderProducts|), d, d > 0.0))
  }

  /** An order whose grand total is the subtotal plus shipping shows no
      discount row. */
  lemma NoDiscountWithoutReduction(o: Order)
    requires o.grandTotal == o.subTotal + o.shippingCost
    ensures Detail(Some(o)).value.discount == 0.0 && !Detail(Some(o)).value.showsDiscount
  {
  }
}
