/**
 The product form's submit rules (components/dashboard/ProductForm.tsx:78-98)
 and its "available" hint (ProductForm.tsx:203-206): the status derived from
 the two quantity fields and the payload sent to the API. The string-to-number
 conversions are library code and are parameters here.
 */
module ProductForm {
  import opened Records

  /** The lifecycle statuses, in the order sales move a product through them. */
  datatype Status = Available | PartiallySold | Sold
  {
    /** The string stored in the record's `status` field. */
    function Name(): string
    {
      match this
      case Available => "available"
      case PartiallySold => "partially_sold"
      case Sold => "sold"
    }

    /** Position along available, partially_sold, sold. */
    function Rank(): nat
    {
      match this
      case Available => 0
      case PartiallySold => 1
      case Sold => 2
    }
  }

  /** A result of `parseInt`: `None` stands for NaN, which compares false with
      everything, itself included. */
  type ParsedInt = Option<int>

  /** `n > 0` on a parsed number. */
  predicate Positive(n: ParsedInt)
  {
    n.Some? && n.value > 0
  }

  /** `a < b` on parsed numbers. */
  predicate Below(a: ParsedInt, b: ParsedInt)
  {
    a.Some? && b.Some? && a.value < b.value
  }

  /** `a === b` on parsed numbers. */
  predicate Same(a: ParsedInt, b: ParsedInt)
  {
    a.Some? && b.Some? && a.value == b.value
  }

  /** The status computed on submit: start from available, then the
      partially-sold guard, then the sold guard. */
  function DeriveStatus(soldQty: ParsedInt, totalQty: ParsedInt): (r: Status)
    ensures r == Available <==> !(Positive(soldQty) && totalQty.Some? && soldQty.value <= totalQty.value)
    ensures r == Sold <==> Positive(soldQty) && soldQty == totalQty
  {
    if Positive(soldQty) && Below(soldQty, totalQty) then PartiallySold
    else if Same(soldQty, totalQty) && Positive(soldQty) then Sold
    else Available
  }

  /** The classification of two integers, in both directions: partially sold
      exactly when some but not all units are sold, sold exactly when all of at
      least one unit are, available otherwise, which takes in nothing sold, a
      negative sold count and more sold than stocked. */
  lemma StatusOfQuantities(sold: int, total: int)
    ensures DeriveStatus(Some(sold), Some(total)) == PartiallySold <==> 0 < sold < total
    ensures DeriveStatus(Some(sold), Some(total)) == Sold <==> 0 < sold == total
    ensures DeriveStatus(Some(sold), Some(total)) == Available <==> sold <= 0 || total < sold
  {
  }

  /** An empty or non-numeric field (NaN) makes every guard false. */
  lemma StatusOfNaN(n: ParsedInt)
    ensures DeriveStatus(None, n) == Available && DeriveStatus(n, None) == Available
  {
  }

  /** The two guards never hold together, so the order of the branches does
      not matter. */
  lemma GuardsExclusive(soldQty: ParsedInt, totalQty: ParsedInt)
    ensures !(Positive(soldQty) && Below(soldQty, totalQty) && Same(soldQty, totalQty))
  {
  }

  /** Selling more units of a product never moves its status backwards. */
  lemma StatusMonotone(sold: int, more: int, total: int)
    requires 0 <= sold <= more <= total
    ensures DeriveStatus(Some(sold), Some(total)).Rank() <= DeriveStatus(Some(more), Some(total)).Rank()
  {
  }

  /** The three statuses are stored under three different strings. */
  lemma StatusNamesDistinct(a: Status, b: Status)
    ensures a.Name() == b.Name() <==> a == b
  {
  }

  /** The text fields of the form. */
  datatype FormData = FormData(
    name: string,
    costPrice: string,
    sellingPrice: string,
    quantity: string,
    soldQuantity: string)

  /** The JSON body sent to the API. */
  datatype Payload = Payload(
    name: string,
    costPrice: real,
    sellingPrice: Option<real>,
    status: string,
    quantity: ParsedInt,
    soldQuantity: ParsedInt)

  /** The payload built on submit. An empty selling-price field is sent as
      `null`; any other text is parsed, so "0" is sent as the price 0. */
  function BuildPayload(form: FormData, parseInt: string -> ParsedInt, parseFloat: string -> real): (p: Payload)
    ensures p.sellingPrice.None? <==> form.sellingPrice == ""
    ensures p.sellingPrice.Some? ==> p.sellingPrice.value == parseFloat(form.sellingPrice)
    ensures p.quantity == parseInt(form.quantity) && p.soldQuantity == parseInt(form.soldQuantity)
    ensures p.status == DeriveStatus(p.soldQuantity, p.quantity).Name()
    ensures p.name == form.name && p.costPrice == parseFloat(form.costPrice)
  {
    var soldQty := parseInt(form.soldQuantity);
    var totalQty := parseInt(form.quantity);
    var status := DeriveStatus(soldQty, totalQty);
    Payload(
      form.name,
      parseFloat(form.costPrice),
      if form.sellingPrice != "" then Some(parseFloat(form.sellingPrice)) else None,
      status.Name(),
      totalQty,
      soldQty)
  }

  /** `field || '0'`: an empty field reads as zero. */
  function OrZero(field: string): string
  {
    if field == "" then "0" else field
  }

  /** The "available" hint under the sold-quantity field: quantity minus sold
      quantity, NaN when either field does not parse. */
  function AvailableHint(form: FormData, parseInt: string -> ParsedInt): (r: ParsedInt)
    ensures r.Some? <==> parseInt(OrZero(form.quantity)).Some? && parseInt(OrZero(form.soldQuantity)).Some?
    ensures r.Some? ==> parseInt(OrZero(form.soldQuantity)).value + r.value == parseInt(OrZero(form.quantity)).value
    ensures form.quantity == "" && form.soldQuantity == "" && parseInt("0") == Some(0) ==> r == Some(0)
  {
    var total := parseInt(OrZero(form.quantity));
    var sold := parseInt(OrZero(form.soldQuantity));
    if total.Some? && sold.Some? then Some(total.value - sold.value) else None
  }

  /** For filled-in fields the hint shows the units the submitted record keeps
      available, and it agrees with the status that record is sent with: none
      left when sold, some left when partially sold. */
  lemma HintAgreesWithPayload(form: FormData, parseInt: string -> ParsedInt, parseFloat: string -> real)
    requires form.quantity != "" && form.soldQuantity != ""
    requires parseInt(form.quantity).Some? && parseInt(form.soldQuantity).Some?
    ensures var p := BuildPayload(form, parseInt, parseFloat);
      AvailableHint(form, parseInt) == Some(p.quantity.value - p.soldQuantity.value) &&
      (p.status == "sold" ==> AvailableHint(form, parseInt) == Some(0)) &&
      (p.status == "partially_sold" ==> AvailableHint(form, parseInt).value > 0)
  {
    var p := BuildPayload(form, parseInt, parseFloat);
    StatusNamesDistinct(DeriveStatus(p.soldQuantity, p.quantity), Sold);
    StatusNamesDistinct(DeriveStatus(p.soldQuantity, p.quantity), PartiallySold);
  }
}
