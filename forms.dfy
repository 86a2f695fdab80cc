/** The field and form checks of inventory/forms.py. Each `clean_*` either
    returns its value unchanged or raises a ValidationError; the cleaned value
    is None when the field was left empty or failed Django's own field
    validation. */
module Forms {
  import opened Common
  import IntText
  import M = Models

  datatype FormError =
    | UnitPriceNotPositive
    | ReorderLevelNegative
    | QuantityNotPositive
    | CannotMoveOut(quantity: int, available: int)
    | MovementDoesNotExist
  {
    predicate IsValidationError() {
      !MovementDoesNotExist?
    }

    /** The user-facing text of a ValidationError. */
    function Message(): (m: string)
      requires IsValidationError()
      ensures UnitPriceNotPositive? ==> m == "Unit price must be greater than zero."
      ensures ReorderLevelNegative? ==> m == "Reorder level cannot be negative."
      ensures QuantityNotPositive? ==> m == M.Error.QuantityNotPositive.Message()
      ensures CannotMoveOut? ==> |m| > |CannotMoveOutPrefix| && m[..|CannotMoveOutPrefix|] == CannotMoveOutPrefix
      ensures CannotMoveOut? ==> m[|m| - 1] == '.'
    {
      match this
      case UnitPriceNotPositive => "Unit price must be greater than zero."
      case ReorderLevelNegative => "Reorder level cannot be negative."
      case QuantityNotPositive => "Quantity must be greater than zero."
      case CannotMoveOut(quantity, available) =>
        CannotMoveOutPrefix + IntText.IntToString(quantity) + CannotMoveOutMiddle
        + IntText.IntToString(available) + "."
    }
  }

  const CannotMoveOutPrefix := "Cannot move out "
  const CannotMoveOutMiddle := " units. Current available stock is "

  /** The form's insufficient-stock message has its fixed prefix, and the
      requested quantity and the available stock can be read back from it. */
  lemma CannotMoveOutMessageNamesNumbers(quantity: int, available: int)
    ensures var m := CannotMoveOut(quantity, available).Message();
            var q := IntText.IntToString(quantity);
            var a := IntText.IntToString(available);
            |m| == |CannotMoveOutPrefix| + |q| + |CannotMoveOutMiddle| + |a| + 1
            && m[..|CannotMoveOutPrefix|] == CannotMoveOutPrefix
            && IntText.ParseInt(m[|CannotMoveOutPrefix|..|CannotMoveOutPrefix| + |q|]) == Some(quantity)
            && IntText.ParseInt(m[|m| - 1 - |a|..|m| - 1]) == Some(available)
  {
    var m := CannotMoveOut(quantity, available).Message();
    var q := IntText.IntToString(quantity);
    var a := IntText.IntToString(available);
    var n := |CannotMoveOutPrefix|;
    assert m == CannotMoveOutPrefix + q + CannotMoveOutMiddle + a + ".";
    assert m[n..n + |q|] == q;
    assert m[|m| - 1 - |a|..|m| - 1] == a;
    IntText.IntToStringRoundTrip(quantity);
    IntText.IntToStringRoundTrip(available);
  }

  /** ProductForm.clean_unit_price; unit_price is an exact decimal. */
  function CleanUnitPrice(unitPrice: Option<real>): (r: Result<Option<real>, FormError>)
    ensures r.Failure? <==> unitPrice.Some? && unitPrice.value <= 0.0
    ensures r.Failure? ==> r.error == UnitPriceNotPositive
    ensures r.Success? ==> r.value == unitPrice
  {
    match unitPrice
    case Some(price) => if price <= 0.0 then Failure(UnitPriceNotPositive) else Success(unitPrice)
    case None => Success(None)
  }

  /** ProductForm.clean_reorder_level. */
  function CleanReorderLevel(reorderLevel: Option<int>): (r: Result<Option<int>, FormError>)
    ensures r.Failure? <==> reorderLevel.Some? && reorderLevel.value < 0
    ensures r.Failure? ==> r.error == ReorderLevelNegative
    ensures r.Success? ==> r.value == reorderLevel
  {
    match reorderLevel
    case Some(level) => if level < 0 then Failure(ReorderLevelNegative) else Success(reorderLevel)
    case None => Success(None)
  }

  /** StockMovementForm.clean_quantity. */
  function CleanQuantity(quantity: Option<int>): (r: Result<Option<int>, FormError>)
    ensures r.Failure? <==> quantity.Some? && quantity.value <= 0
    ensures r.Failure? ==> r.error == QuantityNotPositive
    ensures r.Success? ==> r.value == quantity
  {
    match quantity
    case Some(q) => if q <= 0 then Failure(QuantityNotPositive) else Success(quantity)
    case None => Success(None)
  }

  /** The cleaned_data fields StockMovementForm.clean looks at; `product` is
      the Product snapshot the choice field loaded. */
  datatype CleanedData = CleanedData(product: Option<M.Product>, movementType: Option<M.MovementType>, quantity: Option<int>)

  /** The guard of the form's stock check: a product, type OUT, and a truthy
      (non-zero) quantity. */
  predicate ChecksStock(data: CleanedData) {
    data.product.Some? && data.movementType == Some(M.Out) && data.quantity.Some? && data.quantity.value != 0
  }

  /** StockMovementForm.clean; `pk` is self.instance.pk and `movements` the
      stored rows that `objects.get` reads. */
  function CleanMovement(data: CleanedData, pk: Option<nat>, movements: seq<M.Row>)
    : (r: Result<CleanedData, FormError>)
    ensures !ChecksStock(data) ==> r == Success(data)
    ensures r.Success? ==> r.value == data
    ensures ChecksStock(data) && M.Truthy(pk) && M.Get(movements, pk.value).None? ==>
              r == Failure(MovementDoesNotExist)
    ensures ChecksStock(data) && !(M.Truthy(pk) && M.Get(movements, pk.value).None?) ==>
              var stock := data.product.value.quantityInStock;
              var available := if M.Truthy(pk) then M.ProjectedStock(stock, M.Get(movements, pk.value).value) else stock;
              (r.Failure? <==> data.quantity.value > available)
              && (r.Failure? ==> r.error == CannotMoveOut(data.quantity.value, available))
  {
    if ChecksStock(data) then
      var quantity := data.quantity.value;
      var current := data.product.value.quantityInStock;
      var previous := if M.Truthy(pk) then M.Get(movements, pk.value) else None;
      if M.Truthy(pk) && previous.None? then Failure(MovementDoesNotExist)
      else
        var available := if previous.Some? then M.ProjectedStock(current, previous.value) else current;
        if quantity > available then Failure(CannotMoveOut(quantity, available)) else Success(data)
    else Success(data)
  }

  /** A zero quantity skips the form's stock check, whatever the stock. */
  lemma ZeroQuantitySkipsStockCheck(product: M.Product, pk: Option<nat>, movements: seq<M.Row>)
    ensures var data := CleanedData(Some(product), Some(M.Out), Some(0));
            CleanMovement(data, pk, movements) == Success(data)
  {
  }

  /** The form and the model reverse the previous version in the same way:
      for a positive OUT quantity checked against the same product snapshot,
      the form rejects for stock exactly when StockMovement.clean does, with
      the same two numbers, and both raise DoesNotExist together. */
  lemma FormAgreesWithModelClean(product: M.Product, quantity: int, pk: Option<nat>, movements: seq<M.Row>)
    requires quantity > 0
    ensures var form := CleanMovement(CleanedData(Some(product), Some(M.Out), Some(quantity)), pk, movements);
            var model := M.Validate(M.Out, quantity, product.quantityInStock, pk, movements);
            && (form.Success? <==> model.Pass?)
            && (form == Failure(MovementDoesNotExist) <==> model == Fail(M.MovementDoesNotExist))
            && (form.Failure? && form.error.CannotMoveOut? <==> model.Fail? && model.error.NotEnoughStock?)
            && (form.Failure? && form.error.CannotMoveOut? ==>
                  form.error.quantity == model.error.requested && form.error.available == model.error.current)
  {
  }
}
