/** The stock-movement ledger of inventory/models.py.

    A Product caches its on-hand quantity; a StockMovement (IN or OUT) is
    validated by `clean` and then applied to that quantity by `save`. The
    database is a map from product id to the stored product row and a sequence
    of movement rows, where the movement with primary key k (k >= 1, as an
    auto-increment key) is row k - 1. A movement instance keeps its own
    in-memory copy of `self.product`, read lazily on first access and then
    cached; `save` changes that cached copy in place before writing it. The
    copy is a value owned by the one instance: two instances never share one
    Product object, and the stored row changes only through explicit writes. */
module Models {
  import opened Common
  import IntText

  /** StockMovement.movement_type: MOVEMENT_IN or MOVEMENT_OUT. */
  datatype MovementType = In | Out {
    /** The value stored in the database column. */
    function Code(): (c: string)
      ensures c == "IN" || c == "OUT"
      ensures c == "IN" <==> this == In
    {
      if In? then "IN" else "OUT"
    }
  }

  /** The `choices` of movement_type: a stored code names a movement type. */
  function ParseMovementType(code: string): (t: Option<MovementType>)
    ensures t.Some? <==> code == "IN" || code == "OUT"
    ensures t.Some? ==> t.value.Code() == code
  {
    if code == "IN" then Some(In) else if code == "OUT" then Some(Out) else None
  }

  lemma MovementTypeCodeRoundTrip(t: MovementType)
    ensures ParseMovementType(t.Code()) == Some(t)
  {
  }

  /** What a movement does to the stock of its product. */
  function Signed(kind: MovementType, quantity: int): int {
    if kind == In then quantity else -quantity
  }

  /** The fields of a Product row that the ledger touches. The stored value of
      quantity_in_stock is non-negative (a PositiveIntegerField); an in-memory
      copy may be driven below zero by `-=` before it is written. */
  datatype Product = Product(quantityInStock: int, reorderLevel: nat) {
    /** Product.is_low_stock. */
    predicate IsLowStock()
      ensures reorderLevel == 0 && quantityInStock >= 0 ==> !IsLowStock()
      ensures quantityInStock == 0 && reorderLevel > 0 ==> IsLowStock()
    {
      quantityInStock < reorderLevel
    }
  }

  /** A persisted StockMovement row. */
  datatype Row = Row(product: nat, kind: MovementType, quantity: int)

  /** The failures of `clean` and `save`. The first two are ValidationErrors
      raised by `clean`; MovementDoesNotExist is StockMovement.DoesNotExist
      raised by `objects.get(pk=...)`; NegativeStock is the IntegrityError the
      database raises when a product row is written with a negative
      quantity_in_stock. */
  datatype Error =
    | QuantityNotPositive
    | NotEnoughStock(requested: int, current: int)
    | MovementDoesNotExist
    | NegativeStock(product: nat)
  {
    predicate IsValidationError() {
      QuantityNotPositive? || NotEnoughStock?
    }

    /** The user-facing text of a ValidationError. */
    function Message(): (m: string)
      requires IsValidationError()
      ensures QuantityNotPositive? ==> m == "Quantity must be greater than zero."
      ensures NotEnoughStock? ==> |m| > |NotEnoughStockPrefix| && m[..|NotEnoughStockPrefix|] == NotEnoughStockPrefix
      ensures NotEnoughStock? ==> m[|m| - 1] == '.'
    {
      match this
      case QuantityNotPositive => "Quantity must be greater than zero."
      case NotEnoughStock(requested, current) =>
        NotEnoughStockPrefix + IntText.IntToString(requested) + NotEnoughStockMiddle
        + IntText.IntToString(current) + "."
    }
  }

  const NotEnoughStockPrefix := "Not enough stock to move out "
  const NotEnoughStockMiddle := " units. Current stock is "

  /** The row that `save` persists for a movement. */
  function RowOf(inst: Instance): Row {
    Row(inst.productId, inst.kind, inst.quantity)
  }

  /** `StockMovement.objects.get(pk=pk)`: None stands for DoesNotExist. */
  function Get(movements: seq<Row>, pk: nat): Option<Row> {
    if 1 <= pk <= |movements| then Some(movements[pk - 1]) else None
  }

  /** Python truthiness of `self.pk`: present and non-zero. */
  predicate Truthy(pk: Option<nat>) {
    pk.Some? && pk.value != 0
  }

  /** Projected stock on an edit: the stock read with the previous version's
      effect taken back. */
  function ProjectedStock(stock: int, previous: Row): (r: int)
    ensures previous.kind == Out ==> r == stock + previous.quantity
    ensures previous.kind == In ==> r == stock - previous.quantity
  {
    stock - Signed(previous.kind, previous.quantity)
  }

  /** Taking back a movement's effect restores the stock it was applied to. */
  lemma ProjectionUndoesMovement(stock: int, previous: Row)
    ensures ProjectedStock(stock + Signed(previous.kind, previous.quantity), previous) == stock
  {
  }

  /** StockMovement.clean. `stock` is the quantity_in_stock of the
      self.product snapshot (read only for an OUT movement) and `previous` is
      the lookup of self.pk (made only when self.pk is truthy). */
  function Validate(kind: MovementType, quantity: int, stock: int, pk: Option<nat>, movements: seq<Row>)
    : (r: Outcome<Error>)
    ensures quantity <= 0 ==> r == Fail(QuantityNotPositive)
    ensures quantity > 0 && kind == In ==> r == Pass
    ensures quantity > 0 && kind == Out && !Truthy(pk) ==>
              r == (if quantity > stock then Fail(NotEnoughStock(quantity, stock)) else Pass)
    ensures quantity > 0 && kind == Out && Truthy(pk) && Get(movements, pk.value).None? ==>
              r == Fail(MovementDoesNotExist)
    ensures quantity > 0 && kind == Out && Truthy(pk) && Get(movements, pk.value).Some? ==>
              var projected := ProjectedStock(stock, Get(movements, pk.value).value);
              r == (if quantity > projected then Fail(NotEnoughStock(quantity, projected)) else Pass)
  {
    if quantity <= 0 then Fail(QuantityNotPositive)
    else if kind != Out then Pass
    else
      var previous := if Truthy(pk) then Get(movements, pk.value) else None;
      if Truthy(pk) && previous.None? then Fail(MovementDoesNotExist)
      else
        var current := if previous.Some? then ProjectedStock(stock, previous.value) else stock;
        if quantity > current then Fail(NotEnoughStock(quantity, current)) else Pass
  }

  /** The insufficient-stock message names the requested quantity and the
      stock it was compared against, and both can be read back from it. */
  lemma NotEnoughStockMessageNamesNumbers(requested: int, current: int)
    ensures var m := NotEnoughStock(requested, current).Message();
            var q := IntText.IntToString(requested);
            var c := IntText.IntToString(current);
            |m| == |NotEnoughStockPrefix| + |q| + |NotEnoughStockMiddle| + |c| + 1
            && m[..|NotEnoughStockPrefix|] == NotEnoughStockPrefix
            && IntText.ParseInt(m[|NotEnoughStockPrefix|..|NotEnoughStockPrefix| + |q|]) == Some(requested)
            && IntText.ParseInt(m[|m| - 1 - |c|..|m| - 1]) == Some(current)
  {
    var m := NotEnoughStock(requested, current).Message();
    var q := IntText.IntToString(requested);
    var c := IntText.IntToString(current);
    var a := |NotEnoughStockPrefix|;
    assert m == NotEnoughStockPrefix + q + NotEnoughStockMiddle + c + ".";
    assert m[a..a + |q|] == q;
    assert m[|m| - 1 - |c|..|m| - 1] == c;
    IntText.IntToStringRoundTrip(requested);
    IntText.IntToStringRoundTrip(current);
  }

  // ---------------------------------------------------------------------
  // The database and a movement instance, as values.

  datatype Db = Db(products: map<nat, Product>, movements: seq<Row>)

  /** A StockMovement instance: its primary key (None before the first save),
      the product it points to, the cached self.product snapshot, and the
      movement itself. */
  datatype Instance = Instance(pk: Option<nat>, productId: nat, cache: Option<Product>, kind: MovementType, quantity: int)

  /** What one `save` leaves behind: the database, the instance, the outcome. */
  datatype Step = Step(db: Db, inst: Instance, result: Outcome<Error>)

  /** Foreign-key integrity: every movement row names an existing product
      (product deletion cascades to its movements). */
  predicate WellFormed(db: Db) {
    forall r :: r in db.movements ==> r.product in db.products
  }

  /** Every stored quantity_in_stock is non-negative. */
  predicate StockNonNegative(db: Db) {
    forall id :: id in db.products ==> db.products[id].quantityInStock >= 0
  }

  /** Reading `self.product`: the cached snapshot if there is one, otherwise
      the stored row, which is then cached. */
  function FetchProduct(inst: Instance, db: Db): (r: (Product, Instance))
    requires inst.productId in db.products
    ensures r.1 == inst.(cache := Some(r.0))
    ensures inst.cache.Some? ==> r.0 == inst.cache.value
    ensures ReadsCurrent(inst, db) ==> r.0 == db.products[inst.productId]
  {
    match inst.cache
    case Some(p) => (p, inst)
    case None => (db.products[inst.productId], inst.(cache := Some(db.products[inst.productId])))
  }

  /** `clean` as `full_clean` runs it: self.product is read only once the
      quantity check has passed and the movement is OUT. */
  function CleanInstance(inst: Instance, db: Db): (r: (Instance, Outcome<Error>))
    requires inst.productId in db.products
    ensures r.0 == inst.(cache := r.0.cache)
    ensures inst.cache.Some? ==> r.0 == inst
    ensures ReadsCurrent(inst, db) ==>
              && ReadsCurrent(r.0, db)
              && r.1 == Validate(inst.kind, inst.quantity, db.products[inst.productId].quantityInStock, inst.pk, db.movements)
  {
    if inst.quantity > 0 && inst.kind == Out then
      var read := FetchProduct(inst, db);
      (read.1, Validate(inst.kind, inst.quantity, read.0.quantityInStock, inst.pk, db.movements))
    else
      (inst, Validate(inst.kind, inst.quantity, 0, inst.pk, db.movements))
  }

  /** The apply step of `save`: read self.product, add the movement's effect
      to that cached object in place, write the product row. The cache keeps
      the changed value whether or not the write is accepted. */
  function ApplyEffect(inst: Instance, db: Db): (r: Step)
    requires inst.productId in db.products
    ensures var read := FetchProduct(inst, db).0;
            var stock := read.quantityInStock + Signed(inst.kind, inst.quantity);
            && r.inst == inst.(cache := Some(read.(quantityInStock := stock)))
            && (r.result == Pass <==> stock >= 0)
            && (r.result.Fail? ==> r.result == Fail(NegativeStock(inst.productId)) && r.db == db)
            && (r.result == Pass ==> r.db == db.(products := db.products[inst.productId := r.inst.cache.value]))
    ensures r.result == Pass ==> ReadsCurrent(r.inst, r.db)
  {
    var read := FetchProduct(inst, db);
    var applied := read.0.(quantityInStock := read.0.quantityInStock + Signed(inst.kind, inst.quantity));
    var inst1 := read.1.(cache := Some(applied));
    if applied.quantityInStock < 0 then Step(db, inst1, Fail(NegativeStock(inst.productId)))
    else Step(db.(products := db.products[inst.productId := applied]), inst1, Pass)
  }

  /** StockMovement.save: full_clean, then on an edit the revert of the
      previous version on the previous version's product, then the movement
      row, then the apply step. Each write happens on its own. */
  function SaveEffect(inst: Instance, db: Db): (r: Step)
    requires WellFormed(db) && inst.productId in db.products
    ensures r.inst == inst.(pk := r.inst.pk, cache := r.inst.cache)
    ensures r.result == Pass ==> r.inst.pk == (if inst.pk.None? then Some(|db.movements| + 1) else inst.pk)
    ensures r.result == Pass && inst.pk.None? ==> r.db.movements == db.movements + [RowOf(inst)]
    ensures r.result == Pass && inst.pk.Some? ==>
              && Get(db.movements, inst.pk.value).Some?
              && r.db.movements == db.movements[inst.pk.value - 1 := RowOf(inst)]
    ensures r.result.Fail? && r.result.error.IsValidationError() ==> r.db == db
  {
    var cleaned := CleanInstance(inst, db);
    var inst1 := cleaned.0;
    if cleaned.1.Fail? then Step(db, inst1, cleaned.1)
    else if inst1.pk.Some? then
      var previous := Get(db.movements, inst1.pk.value);
      if previous.None? then Step(db, inst1, Fail(MovementDoesNotExist))
      else
        var prev := previous.value;
        assert prev in db.movements;
        var before := db.products[prev.product];
        var reverted := before.(quantityInStock := before.quantityInStock - Signed(prev.kind, prev.quantity));
        if reverted.quantityInStock < 0 then Step(db, inst1, Fail(NegativeStock(prev.product)))
        else
          ApplyEffect(inst1, Db(db.products[prev.product := reverted],
                                db.movements[inst1.pk.value - 1 := RowOf(inst1)]))
    else
      ApplyEffect(inst1.(pk := Some(|db.movements| + 1)), db.(movements := db.movements + [RowOf(inst1)]))
  }

  /** Key 0 is falsy for `clean` (`if self.pk`) but not None for `save`
      (`self.pk is None`): clean validates such an instance as a new movement,
      and save then looks it up as an edit and raises DoesNotExist before
      writing anything. */
  lemma KeyZeroIsNewForCleanButEditForSave(inst: Instance, db: Db)
    requires WellFormed(db) && inst.productId in db.products
    requires inst.pk == Some(0)
    ensures CleanInstance(inst, db).1 == CleanInstance(inst.(pk := None), db).1
    ensures CleanInstance(inst, db).1 == Pass ==>
              SaveEffect(inst, db).result == Fail(MovementDoesNotExist) && SaveEffect(inst, db).db == db
  {
  }

  // ---------------------------------------------------------------------
  // The ledger: a product's stock against the signed sum of its movements.

  /** What a movement row contributes to the stock of product `id`. */
  function Contribution(row: Row, id: nat): int {
    if row.product == id then Signed(row.kind, row.quantity) else 0
  }

  /** The signed sum of the movements of product `id`. */
  function Net(movements: seq<Row>, id: nat): int
    decreases |movements|
  {
    if movements == [] then 0
    else Net(movements[..|movements| - 1], id) + Contribution(movements[|movements| - 1], id)
  }

  lemma NetAppend(movements: seq<Row>, row: Row, id: nat)
    ensures Net(movements + [row], id) == Net(movements, id) + Contribution(row, id)
  {
    assert (movements + [row])[..|movements|] == movements;
  }

  lemma {:induction false} NetUpdate(movements: seq<Row>, i: nat, row: Row, id: nat)
    requires i < |movements|
    ensures Net(movements[i := row], id)
            == Net(movements, id) - Contribution(movements[i], id) + Contribution(row, id)
    decreases |movements|
  {
    var n := |movements| - 1;
    var updated := movements[i := row];
    if i < n {
      NetUpdate(movements[..n], i, row, id);
      assert updated[..n] == movements[..n][i := row];
    } else {
      assert updated[..n] == movements[..n];
    }
  }

  /** Every product's stock equals the signed sum of its movements. */
  predicate Consistent(db: Db) {
    forall id :: id in db.products ==> db.products[id].quantityInStock == Net(db.movements, id)
  }

  /** The snapshot the instance holds, if any, is the stored row: no one else
      wrote the product since it was read (a single sequential caller). */
  predicate ReadsCurrent(inst: Instance, db: Db)
    requires inst.productId in db.products
  {
    inst.cache.None? || inst.cache == Some(db.products[inst.productId])
  }

  /** An edit in which the apply step uses a snapshot of the product taken
      before the revert was written: the product is unchanged and self.product
      was already cached, or was cached by `clean` because the movement is
      OUT. */
  predicate StaleApply(inst: Instance, db: Db) {
    && inst.pk.Some?
    && Get(db.movements, inst.pk.value).Some?
    && Get(db.movements, inst.pk.value).value.product == inst.productId
    && (inst.cache.Some? || inst.kind == Out)
  }

  // ---------------------------------------------------------------------
  // Properties of save.

  /** `save` validates first: a movement that `clean` rejects writes nothing. */
  lemma SaveValidatesFirst(inst: Instance, db: Db)
    requires WellFormed(db) && inst.productId in db.products
    requires CleanInstance(inst, db).1.Fail?
    ensures SaveEffect(inst, db).db == db
    ensures SaveEffect(inst, db).result == CleanInstance(inst, db).1
  {
  }

  /** A failed save writes nothing, except when the final product write is
      refused: the revert and the movement row are then already stored. */
  lemma FailedSaveWritesOnlyBeforeApply(inst: Instance, db: Db)
    requires WellFormed(db) && inst.productId in db.products
    requires SaveEffect(inst, db).result.Fail?
    ensures var s := SaveEffect(inst, db);
            s.db != db ==>
              && s.result == Fail(NegativeStock(inst.productId))
              && s.db.movements == (if inst.pk.None? then db.movements + [RowOf(inst)]
                                    else db.movements[inst.pk.value - 1 := RowOf(inst)])
  {
  }

  /** A fresh create moves its product's stock by exactly +quantity for IN or
      -quantity for OUT, changes no other product, appends one row and gives
      the instance the next primary key. */
  lemma CreateEffect(inst: Instance, db: Db)
    requires WellFormed(db) && inst.productId in db.products
    requires inst.pk.None? && ReadsCurrent(inst, db)
    requires SaveEffect(inst, db).result == Pass
    ensures var s := SaveEffect(inst, db);
            && s.db.movements == db.movements + [RowOf(inst)]
            && s.inst.pk == Some(|db.movements| + 1)
            && s.db.products.Keys == db.products.Keys
            && (forall id :: id in db.products ==>
                  s.db.products[id] == db.products[id].(quantityInStock :=
                    db.products[id].quantityInStock + Contribution(RowOf(inst), id)))
  {
  }

  /** On a create the database never refuses the product write: with the
      stock read current, `clean`'s verdict is the verdict of `save`. */
  lemma CreateFailsOnlyInValidation(inst: Instance, db: Db)
    requires WellFormed(db) && StockNonNegative(db) && inst.productId in db.products
    requires inst.pk.None? && ReadsCurrent(inst, db)
    ensures SaveEffect(inst, db).result
            == Validate(inst.kind, inst.quantity, db.products[inst.productId].quantityInStock, None, db.movements)
  {
  }

  /** An edit whose apply step reads the product after the revert: the row is
      replaced, the previous version's effect is taken off the previous
      product and the new effect added to the new one. For an unchanged
      product the stock ends at pre-edit stock minus the old signed quantity
      plus the new one. */
  lemma EditEffect(inst: Instance, db: Db)
    requires WellFormed(db) && inst.productId in db.products
    requires inst.pk.Some? && Get(db.movements, inst.pk.value).Some?
    requires ReadsCurrent(inst, db) && !StaleApply(inst, db)
    requires SaveEffect(inst, db).result == Pass
    ensures var s := SaveEffect(inst, db);
            var prev := Get(db.movements, inst.pk.value).value;
            && s.db.movements == db.movements[inst.pk.value - 1 := RowOf(inst)]
            && s.inst.pk == inst.pk
            && s.db.products.Keys == db.products.Keys
            && (forall id :: id in db.products ==>
                  s.db.products[id] == db.products[id].(quantityInStock :=
                    db.products[id].quantityInStock - Contribution(prev, id) + Contribution(RowOf(inst), id)))
  {
  }

  /** An edit on an unchanged product whose self.product snapshot predates
      the revert: the apply step starts from that snapshot, so the written
      revert is overwritten and the previous version's effect stays in. */
  lemma StaleEditKeepsPreviousEffect(inst: Instance, db: Db)
    requires WellFormed(db) && inst.productId in db.products
    requires ReadsCurrent(inst, db) && StaleApply(inst, db)
    requires SaveEffect(inst, db).result == Pass
    ensures var s := SaveEffect(inst, db);
            s.db.products[inst.productId].quantityInStock
            == db.products[inst.productId].quantityInStock + Signed(inst.kind, inst.quantity)
  {
  }

  /** With current reads and no stale snapshot, a successful save moves every
      product's stock by exactly the change in the signed sum of its
      movements. */
  lemma SaveTracksLedger(inst: Instance, db: Db)
    requires WellFormed(db) && inst.productId in db.products
    requires ReadsCurrent(inst, db) && !StaleApply(inst, db)
    requires SaveEffect(inst, db).result == Pass
    ensures var s := SaveEffect(inst, db);
            forall id :: id in db.products ==>
              id in s.db.products
              && s.db.products[id].quantityInStock - db.products[id].quantityInStock
                 == Net(s.db.movements, id) - Net(db.movements, id)
  {
    var s := SaveEffect(inst, db);
    if inst.pk.None? {
      CreateEffect(inst, db);
      forall id | id in db.products
        ensures Net(s.db.movements, id) == Net(db.movements, id) + Contribution(RowOf(inst), id)
      {
        NetAppend(db.movements, RowOf(inst), id);
      }
    } else {
      var k := inst.pk.value;
      EditEffect(inst, db);
      var prev := Get(db.movements, k).value;
      forall id | id in db.products
        ensures Net(s.db.movements, id)
                == Net(db.movements, id) - Contribution(prev, id) + Contribution(RowOf(inst), id)
      {
        NetUpdate(db.movements, k - 1, RowOf(inst), id);
      }
    }
  }

  /** Every save, failed or not, keeps the set of products and leaves every
      stored movement pointing at one of them. */
  lemma SaveKeepsWellFormed(inst: Instance, db: Db)
    requires WellFormed(db) && inst.productId in db.products
    ensures SaveEffect(inst, db).db.products.Keys == db.products.Keys
    ensures WellFormed(SaveEffect(inst, db).db)
  {
    var s := SaveEffect(inst, db);
    forall r | r in s.db.movements ensures r.product in s.db.products {
      var i :| 0 <= i < |s.db.movements| && s.db.movements[i] == r;
      if i < |db.movements| && s.db.movements[i] == db.movements[i] {
        assert db.movements[i] in db.movements;
      } else {
        assert r == RowOf(inst) by {
          assert RowOf(CleanInstance(inst, db).0) == RowOf(inst);
        }
      }
    }
  }

  /** The ledger invariant: if every stock equals the signed sum of its
      movements before a successful save with current reads and no stale
      snapshot, it does afterwards. */
  lemma SaveKeepsConsistent(inst: Instance, db: Db)
    requires WellFormed(db) && Consistent(db) && inst.productId in db.products
    requires ReadsCurrent(inst, db) && !StaleApply(inst, db)
    requires SaveEffect(inst, db).result == Pass
    ensures Consistent(SaveEffect(inst, db).db)
  {
    SaveTracksLedger(inst, db);
    SaveKeepsWellFormed(inst, db);
  }

  /** A successful save never leaves a stored stock negative. */
  lemma SaveKeepsStockNonNegative(inst: Instance, db: Db)
    requires WellFormed(db) && StockNonNegative(db) && inst.productId in db.products
    ensures StockNonNegative(SaveEffect(inst, db).db)
  {
  }

  /** Once a save succeeds, the instance's cached product is the row just
      written: a second save of the same instance reads current. */
  lemma SaveLeavesCacheCurrent(inst: Instance, db: Db)
    requires WellFormed(db) && inst.productId in db.products
    ensures var s := SaveEffect(inst, db);
            && inst.productId in s.db.products
            && (s.result == Pass ==> ReadsCurrent(s.inst, s.db))
  {
    SaveKeepsWellFormed(inst, db);
  }

  /** A new movement as entered: product, type and quantity, with no primary
      key and no self.product snapshot yet. */
  function NewMovement(productId: nat, kind: MovementType, quantity: int): Instance {
    Instance(None, productId, None, kind, quantity)
  }

  /** Saving the movements `entries` one after another as new movements;
      those that are refused leave the database as it was. */
  function RecordAll(entries: seq<Row>, db: Db): (r: Db)
    requires WellFormed(db)
    requires forall e :: e in entries ==> e.product in db.products
    ensures WellFormed(r) && r.products.Keys == db.products.Keys
    decreases |entries|
  {
    if entries == [] then db
    else
      var inst := NewMovement(entries[0].product, entries[0].kind, entries[0].quantity);
      SaveKeepsWellFormed(inst, db);
      RecordAll(entries[1..], SaveEffect(inst, db).db)
  }

  /** Starting from stock that matches the movements (for instance every
      product at 0 and no movements), stock keeps matching the signed sum of
      the stored movements and stays non-negative, whatever new movements are
      saved in whatever order. */
  lemma {:induction false} RecordAllKeepsLedger(entries: seq<Row>, db: Db)
    requires WellFormed(db) && Consistent(db) && StockNonNegative(db)
    requires forall e :: e in entries ==> e.product in db.products
    ensures Consistent(RecordAll(entries, db)) && StockNonNegative(RecordAll(entries, db))
    decreases |entries|
  {
    if entries != [] {
      var inst := NewMovement(entries[0].product, entries[0].kind, entries[0].quantity);
      var s := SaveEffect(inst, db);
      SaveKeepsWellFormed(inst, db);
      SaveKeepsStockNonNegative(inst, db);
      if s.result == Pass {
        SaveKeepsConsistent(inst, db);
      } else {
        CreateFailsOnlyInValidation(inst, db);
        SaveValidatesFirst(inst, db);
      }
      assert forall e :: e in entries[1..] ==> e in entries;
      RecordAllKeepsLedger(entries[1..], s.db);
    }
  }

  /** An IN movement can only clear low stock and an OUT movement can only
      cause it: a fresh create never does the opposite. */
  lemma CreateAndLowStock(inst: Instance, db: Db)
    requires WellFormed(db) && inst.productId in db.products
    requires inst.pk.None? && ReadsCurrent(inst, db)
    requires SaveEffect(inst, db).result == Pass
    ensures var before := db.products[inst.productId];
            var after := SaveEffect(inst, db).db.products[inst.productId];
            && (inst.kind == In && !before.IsLowStock() ==> !after.IsLowStock())
            && (inst.kind == Out && before.IsLowStock() ==> after.IsLowStock())
  {
    CreateEffect(inst, db);
    assert inst.quantity > 0 by {
      assert CleanInstance(inst, db).1.Pass?;
    }
  }

  // ---------------------------------------------------------------------
  // The database and a movement instance, as objects.

  /** The stored Product and StockMovement rows. */
  class Database {
    var products: map<nat, Product>
    var movements: seq<Row>

    function State(): Db
      reads this
    {
      Db(products, movements)
    }

    constructor (products: map<nat, Product>)
      ensures State() == Db(products, [])
    {
      this.products := products;
      this.movements := [];
    }

    /** `StockMovement.objects.get(pk=pk)`: None stands for DoesNotExist. */
    method GetMovement(pk: nat) returns (r: Option<Row>)
      ensures r == Get(movements, pk)
    {
      r := if 1 <= pk <= |movements| then Some(movements[pk - 1]) else None;
    }

    /** `product.save()`: the whole row is written from the snapshot `p`; the
        CHECK constraint of quantity_in_stock refuses a negative value. */
    method WriteProduct(id: nat, p: Product) returns (ok: bool)
      modifies this
      ensures ok <==> p.quantityInStock >= 0
      ensures products == if ok then old(products)[id := p] else old(products)
      ensures movements == old(movements)
    {
      ok := p.quantityInStock >= 0;
      if ok {
        products := products[id := p];
      }
    }

    /** The INSERT of a new movement; returns the primary key it gets. */
    method InsertMovement(row: Row) returns (pk: nat)
      modifies this
      ensures movements == old(movements) + [row] && pk == |movements|
      ensures products == old(products)
    {
      movements := movements + [row];
      pk := |movements|;
    }

    /** The UPDATE of the movement with primary key `pk`. */
    method UpdateMovement(pk: nat, row: Row)
      requires 1 <= pk <= |movements|
      modifies this
      ensures movements == old(movements)[pk - 1 := row]
      ensures products == old(products)
    {
      movements := movements[pk - 1 := row];
    }
  }

  /** A StockMovement instance in memory. */
  class StockMovement {
    var pk: Option<nat>
    var productId: nat
    var productCache: Option<Product>
    var kind: MovementType
    var quantity: int

    function Snapshot(): Instance
      reads this
    {
      Instance(pk, productId, productCache, kind, quantity)
    }

    constructor (pk: Option<nat>, productId: nat, productCache: Option<Product>, kind: MovementType, quantity: int)
      ensures Snapshot() == Instance(pk, productId, productCache, kind, quantity)
    {
      this.pk := pk;
      this.productId := productId;
      this.productCache := productCache;
      this.kind := kind;
      this.quantity := quantity;
    }

    /** The `self.product` accessor. */
    method ReadProduct(db: Database) returns (p: Product)
      requires productId in db.products
      modifies this`productCache
      ensures (p, Snapshot()) == FetchProduct(old(Snapshot()), db.State())
    {
      if productCache.None? {
        productCache := Some(db.products[productId]);
      }
      p := productCache.value;
    }

    /** StockMovement.clean, reading self.product when it needs the stock. */
    method Clean(db: Database) returns (r: Outcome<Error>)
      requires productId in db.products
      modifies this`productCache
      ensures (Snapshot(), r) == CleanInstance(old(Snapshot()), db.State())
    {
      if quantity <= 0 {
        return Fail(QuantityNotPositive);
      }
      if kind == Out {
        var current := ReadProduct(db);
        var stock := current.quantityInStock;
        if Truthy(pk) {
          var previous := db.GetMovement(pk.value);
          if previous.None? {
            return Fail(MovementDoesNotExist);
          }
          stock := ProjectedStock(stock, previous.value);
        }
        if quantity > stock {
          return Fail(NotEnoughStock(quantity, stock));
        }
      }
      r := Pass;
    }

    /** The apply step of StockMovement.save: self.product changed in place,
        then written. */
    method Apply(db: Database) returns (r: Outcome<Error>)
      requires productId in db.products
      modifies this`productCache, db
      ensures Step(db.State(), Snapshot(), r) == ApplyEffect(old(Snapshot()), old(db.State()))
    {
      var current := ReadProduct(db);
      var applied := current.(quantityInStock := current.quantityInStock + Signed(kind, quantity));
      productCache := Some(applied);
      var ok := db.WriteProduct(productId, applied);
      r := if ok then Pass else Fail(NegativeStock(productId));
    }

    /** StockMovement.save. */
    method Save(db: Database) returns (r: Outcome<Error>)
      requires WellFormed(db.State()) && productId in db.products
      modifies this, db
      ensures Step(db.State(), Snapshot(), r) == SaveEffect(old(Snapshot()), old(db.State()))
    {
      ghost var inst0, db0 := Snapshot(), db.State();
      r := Clean(db);
      if r.Fail? {
        return;
      }
      ghost var inst1 := Snapshot();
      assert inst1 == CleanInstance(inst0, db0).0;
      if pk.Some? {
        var previous := db.GetMovement(pk.value);
        if previous.None? {
          return Fail(MovementDoesNotExist);
        }
        var prev := previous.value;
        assert prev in db.movements;
        var before := db.products[prev.product];
        var ok := db.WriteProduct(prev.product, before.(quantityInStock := before.quantityInStock - Signed(prev.kind, prev.quantity)));
        if !ok {
          return Fail(NegativeStock(prev.product));
        }
        db.UpdateMovement(pk.value, Row(productId, kind, quantity));
      } else {
        var newPk := db.InsertMovement(Row(productId, kind, quantity));
        pk := Some(newPk);
      }
      r := Apply(db);
    }
  }
}
