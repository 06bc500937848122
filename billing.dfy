/** The staff billing page of `BillingPage.tsx`: the amount it asks for, the
    discount line, the payment-method choice and the effect of applying a
    discount. */
module Billing {
  import opened Types
  import OrderDetail

  /** The payment methods the page offers; CASH is selected at first. */
  const PaymentChoices: seq<PaymentMethod> := [Cash, Card, Upi]
  const DefaultPaymentMethod: PaymentMethod := Cash

  /** The page's state: the order it holds, the discount typed in and the
      payment method selected. */
  datatype BillingState = BillingState(order: Option<Order>, discount: int, paymentMethod: PaymentMethod)

  /** Before the order arrives: no order, discount 0, CASH. */
  function InitialState(): (s: BillingState)
    ensures s.order.None? && s.discount == 0 && s.paymentMethod in PaymentChoices
    ensures s.paymentMethod == Cash
  {
    BillingState(None, 0, DefaultPaymentMethod)
  }

  /** The load: the order as the order page normalises it. */
  function Loaded(s: BillingState, response: Order): (r: BillingState)
    ensures r.order == Some(OrderDetail.NormaliseOrder(response))
    ensures r.discount == s.discount && r.paymentMethod == s.paymentMethod
  {
    s.(order := Some(OrderDetail.NormaliseOrder(response)))
  }

  /** Pressing one of the method buttons; only the three offered ones exist. */
  function SelectMethod(s: BillingState, m: PaymentMethod): (r: BillingState)
    requires m in PaymentChoices
    ensures r.paymentMethod == m && r.order == s.order && r.discount == s.discount
  {
    s.(paymentMethod := m)
  }

  /** Typing a discount. The input's `max` is only a hint, so any number is taken. */
  function SetDiscount(s: BillingState, d: int): (r: BillingState)
    ensures r.discount == d && r.order == s.order && r.paymentMethod == s.paymentMethod
  {
    s.(discount := d)
  }

  /** `handleApplyDiscount`: on success the held order is replaced by the
      response as received (not normalised); on failure nothing changes. */
  function AppliedDiscount(s: BillingState, response: Order, succeeded: bool): (r: BillingState)
    ensures succeeded ==> r.order == Some(response)
    ensures !succeeded ==> r == s
    ensures r.discount == s.discount && r.paymentMethod == s.paymentMethod
  {
    if succeeded then s.(order := Some(response)) else s
  }

  /** Whichever steps the page goes through, the selected method stays one of
      CASH, CARD and UPI. */
  lemma MethodAlwaysOffered(s: BillingState, response: Order, m: PaymentMethod, d: int, ok: bool)
    requires s.paymentMethod in PaymentChoices && m in PaymentChoices
    ensures Loaded(s, response).paymentMethod in PaymentChoices
    ensures SelectMethod(s, m).paymentMethod in PaymentChoices
    ensures SetDiscount(s, d).paymentMethod in PaymentChoices
    ensures AppliedDiscount(s, response, ok).paymentMethod in PaymentChoices
    ensures SelectMethod(s, m).paymentMethod != Split
  {
  }

  /** `finalTotal`: the order's total less the discount typed in, not clamped. */
  function FinalTotal(o: Order, discount: int): (t: int)
    ensures t + discount == o.totalAmount
    ensures discount > o.totalAmount ==> t < 0
  {
    o.totalAmount - discount
  }

  /** On a loaded order the amount due is the backend `total` (when set) less
      the discount. */
  lemma FinalTotalOfLoaded(response: Order, discount: int)
    requires response.total != 0
    ensures FinalTotal(OrderDetail.NormaliseOrder(response), discount) == response.total - discount
  {
  }

  /** The discount line is shown only for a positive discount. */
  predicate ShowsDiscountLine(discount: int)
  {
    discount > 0
  }

  /** The bill reconciles (the amount due is the order total less the
      discount line, or the order total when no line is shown) exactly when
      the discount is not negative; a negative discount raises the amount
      due with no line to explain it. */
  lemma DiscountLineReconciles(o: Order, discount: int)
    ensures FinalTotal(o, discount) == o.totalAmount - (if ShowsDiscountLine(discount) then discount else 0)
            <==> discount >= 0
    ensures discount < 0 ==> !ShowsDiscountLine(discount) && FinalTotal(o, discount) > o.totalAmount
  {
  }

  /** The "Tax & Charges" line: `taxAmount || tax`. */
  function TaxShown(o: Order): (t: int)
    ensures o.taxAmount.Some? && o.taxAmount.value != 0 ==> t == o.taxAmount.value
    ensures !(o.taxAmount.Some? && o.taxAmount.value != 0) ==> t == o.tax
  {
    if o.taxAmount.Some? && o.taxAmount.value != 0 then o.taxAmount.value else o.tax
  }

  /** On a loaded order the tax line shows the backend `tax` whenever it is set. */
  lemma TaxShownOfLoaded(response: Order)
    requires response.tax != 0
    ensures TaxShown(OrderDetail.NormaliseOrder(response)) == response.tax
  {
  }

  /** After a discount is applied, the held order is the raw response: if the
      backend sends its total only in `total`, the page computes the amount
      due from `totalAmount` instead, which the load would have overwritten. */
  lemma AppliedOrderNotNormalised(s: BillingState, response: Order, discount: int)
    requires response.total != 0 && response.totalAmount != response.total
    ensures var held := AppliedDiscount(s, response, true).order.value;
            FinalTotal(held, discount) != FinalTotal(OrderDetail.NormaliseOrder(response), discount)
  {
  }
}
