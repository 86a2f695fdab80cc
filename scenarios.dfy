/** Worked cases of the ledger: create and edit cases worked through, and the inputs on which save does not do what its docstring and
    comments say (the three gaps of StockMovement.clean and save). */
module Scenarios {
  import opened Common
  import opened Models
  import IntText
  import F = Forms

  const Widget: nat := 1
  const Gadget: nat := 2

  /** Two OUT movements on a product holding 10: the first (4) is applied,
      the second (10) is refused by clean with the stock it saw (6), and the
      stock stays 6. */
  lemma OutThenInsufficientOut()
    ensures var db0 := Db(map[Widget := Product(10, 0)], []);
            var s1 := SaveEffect(Instance(None, Widget, None, Out, 4), db0);
            var s2 := SaveEffect(Instance(None, Widget, None, Out, 10), s1.db);
            && s1.result == Pass
            && s1.db == Db(map[Widget := Product(6, 0)], [Row(Widget, Out, 4)])
            && s2.result == Fail(NotEnoughStock(10, 6))
            && s2.db == s1.db
  {
  }

  /** The model's text of that refusal: "Not enough stock to move out 10
      units. Current stock is 6.", with the two fixed parts as declared in Models. */
  lemma InsufficientOutModelMessage()
    ensures NotEnoughStock(10, 6).Message() == NotEnoughStockPrefix + "10" + NotEnoughStockMiddle + "6" + "."
  {
    ModelMessageShape(10, 6);
    TenAndSix();
  }

  /** The form refuses the same movement, against the snapshot holding 6. */
  lemma InsufficientOutForm()
    ensures F.CleanMovement(F.CleanedData(Some(Product(6, 0)), Some(Out), Some(10)), None, [Row(Widget, Out, 4)])
            == Failure(F.CannotMoveOut(10, 6))
  {
  }

  /** The form's text of that refusal: "Cannot move out 10 units. Current
      available stock is 6.", with the two fixed parts as declared in Forms. */
  lemma InsufficientOutFormMessage()
    ensures F.CannotMoveOut(10, 6).Message() == F.CannotMoveOutPrefix + "10" + F.CannotMoveOutMiddle + "6" + "."
  {
    FormMessageShape(10, 6);
    TenAndSix();
  }

  // The two message lemmas are split into the shape of the message (below)
  // and the digits of 10 and 6 (TenAndSix), each proved on its own.

  lemma ModelMessageShape(requested: int, current: int)
    ensures NotEnoughStock(requested, current).Message()
            == NotEnoughStockPrefix + IntText.IntToString(requested) + NotEnoughStockMiddle
               + IntText.IntToString(current) + "."
  {
  }

  lemma FormMessageShape(quantity: int, available: int)
    ensures F.CannotMoveOut(quantity, available).Message()
            == F.CannotMoveOutPrefix + IntText.IntToString(quantity) + F.CannotMoveOutMiddle
               + IntText.IntToString(available) + "."
  {
  }

  lemma TenAndSix()
    ensures IntText.IntToString(10) == "10" && IntText.IntToString(6) == "6"
  {
    assert IntText.NatToString(1) == "1";
    assert IntText.NatToString(10) == IntText.NatToString(1) + [IntText.DigitChar(0)];
  }

  /** IN 5 on an empty product, then edited to IN 8 with self.product read
      after the revert (the instance has no snapshot yet): the stock ends at 8. */
  lemma InEditWithFreshRead()
    ensures var db0 := Db(map[Widget := Product(0, 0)], []);
            var s1 := SaveEffect(Instance(None, Widget, None, In, 5), db0);
            var s2 := SaveEffect(Instance(Some(1), Widget, None, In, 8), s1.db);
            && s1.db.products[Widget].quantityInStock == 5
            && s2.result == Pass
            && s2.db.products[Widget].quantityInStock == 8
            && s2.db.movements == [Row(Widget, In, 8)]
  {
  }

  /** The same edit when self.product was loaded before save, as a model form
      loads it: the apply step starts from the pre-revert snapshot (5) and
      overwrites the revert, so the stock ends at 13 instead of 8 and no longer
      equals the sum of the movements (8). */
  lemma InEditWithSnapshotOverwritesRevert()
    ensures var db0 := Db(map[Widget := Product(0, 0)], []);
            var s1 := SaveEffect(Instance(None, Widget, None, In, 5), db0);
            var s2 := SaveEffect(Instance(Some(1), Widget, Some(s1.db.products[Widget]), In, 8), s1.db);
            && Consistent(s1.db)
            && s2.result == Pass
            && s2.db.products[Widget].quantityInStock == 13
            && Net(s2.db.movements, Widget) == 8
            && !Consistent(s2.db)
  {
    InFiveOnEmptyWidget();
    EightOnSnapshotOfFive();
    NetOfOne(Row(Widget, In, 5), Widget);
    NetOfOne(Row(Widget, In, 8), Widget);
  }

  /** The first save of the edit cases: IN 5 on an empty widget. */
  lemma InFiveOnEmptyWidget()
    ensures SaveEffect(Instance(None, Widget, None, In, 5), Db(map[Widget := Product(0, 0)], []))
            == Step(Db(map[Widget := Product(5, 0)], [Row(Widget, In, 5)]),
                    Instance(Some(1), Widget, Some(Product(5, 0)), In, 5), Pass)
  {
  }

  /** The second save of that case: the edit to IN 8 on a snapshot of 5. */
  lemma EightOnSnapshotOfFive()
    ensures SaveEffect(Instance(Some(1), Widget, Some(Product(5, 0)), In, 8),
                       Db(map[Widget := Product(5, 0)], [Row(Widget, In, 5)]))
            == Step(Db(map[Widget := Product(13, 0)], [Row(Widget, In, 8)]),
                    Instance(Some(1), Widget, Some(Product(13, 0)), In, 8), Pass)
  {
  }

  lemma NetOfOne(row: Row, id: nat)
    ensures Net([row], id) == Contribution(row, id)
  {
    assert [row][..0] == [];
  }

  /** OUT 3 on a product holding 10 (leaving 7), then edited to OUT 20: clean
      takes the previous 3 back (10) before comparing, refuses, and the stock
      stays 7. */
  lemma OutEditRefusedAfterReversal()
    ensures var db0 := Db(map[Widget := Product(10, 0)], []);
            var s1 := SaveEffect(Instance(None, Widget, None, Out, 3), db0);
            var s2 := SaveEffect(Instance(Some(1), Widget, None, Out, 20), s1.db);
            && s1.db.products[Widget].quantityInStock == 7
            && s2.result == Fail(NotEnoughStock(20, 10))
            && s2.db == s1.db
  {
  }

  /** The same instance saved twice: IN 5 on an empty product, then its
      quantity changed to 8 and saved again. The first save left the applied
      product (5) in the instance's cache, so the second apply starts from 5
      rather than from the reverted 0: the stock ends at 13, not 8. */
  lemma ResaveSameInstanceOverwritesRevert()
    ensures var db0 := Db(map[Widget := Product(0, 0)], []);
            var s1 := SaveEffect(NewMovement(Widget, In, 5), db0);
            var s2 := SaveEffect(s1.inst.(quantity := 8), s1.db);
            && s1.result == Pass
            && s1.inst == Instance(Some(1), Widget, Some(Product(5, 0)), In, 5)
            && s2.result == Pass
            && s2.db.products[Widget].quantityInStock == 13
            && s2.db.movements == [Row(Widget, In, 8)]
  {
  }

  /** A changed product is projected against the wrong stock: OUT 3 of the
      widget is edited into OUT 5 of the gadget, which holds 2. clean adds the
      widget's 3 to the gadget's 2 and lets 5 through; save then writes the
      widget's revert and the movement row, and the database refuses the
      gadget's write (-3). The widget is back at 10 and the gadget still at 2
      while a stored OUT 5 of the gadget says otherwise. The instance keeps
      the refused -3 in its cache, so its snapshot is no longer current. */
  lemma ChangedProductProjectedAgainstWrongStock()
    ensures var db0 := Db(map[Widget := Product(10, 0), Gadget := Product(2, 0)], []);
            var s1 := SaveEffect(Instance(None, Widget, None, Out, 3), db0);
            var edit := Instance(Some(1), Gadget, None, Out, 5);
            var s2 := SaveEffect(edit, s1.db);
            && s1.db.products[Widget].quantityInStock == 7
            && CleanInstance(edit, s1.db).1 == Pass
            && s2.result == Fail(NegativeStock(Gadget))
            && s2.db.products[Widget].quantityInStock == 10
            && s2.db.products[Gadget].quantityInStock == 2
            && s2.db.movements == [Row(Gadget, Out, 5)]
            && s2.inst.cache == Some(Product(-3, 0))
            && !ReadsCurrent(s2.inst, s2.db)
  {
  }

  /** Editing an IN movement is not checked: after IN 5 and OUT 5 the widget
      holds 0, and lowering the IN to 2 passes clean although it would leave
      -3; the revert write (0 - 5) is what the database refuses. */
  lemma InEditNotChecked()
    ensures var db0 := Db(map[Widget := Product(0, 0)], []);
            var s1 := SaveEffect(Instance(None, Widget, None, In, 5), db0);
            var s2 := SaveEffect(Instance(None, Widget, None, Out, 5), s1.db);
            var edit := Instance(Some(1), Widget, None, In, 2);
            var s3 := SaveEffect(edit, s2.db);
            && s2.db.products[Widget].quantityInStock == 0
            && CleanInstance(edit, s2.db).1 == Pass
            && s3.result == Fail(NegativeStock(Widget))
            && s3.db == s2.db
  {
  }

  /** The objects in use: a product holding 10, an OUT 4 that is saved and an
      OUT 10 that is refused, leaving 6 in stock and one stored movement. */
  method RecordTwoOutMovements() returns (first: Outcome<Error>, second: Outcome<Error>, stock: int, rows: nat)
    ensures first == Pass && second == Fail(NotEnoughStock(10, 6))
    ensures stock == 6 && rows == 1
  {
    var db := new Database(map[Widget := Product(10, 0)]);
    var m1 := new StockMovement(None, Widget, None, Out, 4);
    first := m1.Save(db);
    var m2 := new StockMovement(None, Widget, None, Out, 10);
    second := m2.Save(db);
    stock := db.products[Widget].quantityInStock;
    rows := |db.movements|;
  }
}
