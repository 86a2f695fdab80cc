# Stock-movement ledger of the inventory app, in Dafny

The inventory application keeps each Product's `quantity_in_stock` as a cached
running total of its StockMovements. A movement is IN or OUT with a positive
quantity. `StockMovement.clean` validates it and `StockMovement.save` applies
it. On an edit, `save` first takes the previous version's effect off the
previous version's product. The form layer repeats the quantity and stock checks.
This project models that ledger and proves what it does and where it falls short.

- `common.dfy`, module `Common`: `Option`, `Result` and `Outcome`.
- `int_text.dfy`, module `IntText`: Python's `str()` of an int, which the
  error messages embed, with a parser and a round-trip proof.
- `models.dfy`, module `Models`: inventory/models.py.
  - `MovementType`, `Product`, `Row` and `Error` are values.
  - `Validate` is the pure `clean`. `SaveEffect` is the pure meaning of `save`.
  - `Database` holds the product map and the movement rows. The movement with
    primary key k is row k - 1.
  - `StockMovement` is the in-memory instance. Its methods `Clean` and `Save`
    are proved equal to `CleanInstance` and `SaveEffect`, which apply
    `Validate` to the instance's cached product.
  - `Net` is the signed sum of a product's movements. The ledger lemmas relate
    stock to it.
- `forms.dfy`, module `Forms`: the `clean_*` methods and `StockMovementForm.clean`.
- `scenarios.dfy`, module `Scenarios`: worked create and edit cases, and one
  concrete input for each gap below.

Two choices make the model precise:

- **Product reads are snapshots.** `self.product` is an explicit cache on the
  instance (`Instance.cache`), loaded on first access and kept afterwards.
  `clean` reads it only for an OUT movement with a positive quantity. The apply
  step of `save` reads it again, and loads it then if it is still empty. It
  then changes the cached product in place, so after `save` the cache holds the
  applied value, even when the database refused to store it.
  `previous.product` is always read fresh. The cached product is a value that
  belongs to one instance (see "Left out").
- **Negative stock is refused by the database.** `quantity_in_stock` is a
  PositiveIntegerField, so the database refuses a product row written with a
  negative value (`NegativeStock`, an IntegrityError). There is no transaction,
  so an earlier write in the same `save` stays.

The source has three gaps. The model keeps them as written and proves each one
on a concrete input:

- **A changed product is projected against the wrong stock.** `clean` compares
  the new product's stock after reversing the previous movement, even when that
  movement belonged to a different product. `Scenarios.ChangedProductProjectedAgainstWrongStock`
  shows an OUT that passes `clean` and then fails at the final write. By then
  the revert and the movement row are already stored.
- **Edits of IN movements are not checked.** `Scenarios.InEditNotChecked`
  shows such an edit passing `clean` and then being refused at the revert write.
- **The apply step can use a stale snapshot.** On an edit of the same product,
  the apply step adds to a snapshot taken before the revert. This happens when
  the instance already held `self.product`, as a model form leaves it, or when
  the movement is OUT. The revert is then overwritten
  (`Models.StaleEditKeepsPreviousEffect`). With IN 5 edited to IN 8, stock
  ends at 13 instead of 8 (`Scenarios.InEditWithSnapshotOverwritesRevert`).
  Saving the same instance a second time is such an edit: the first save left
  the applied product in its cache (`Scenarios.ResaveSameInstanceOverwritesRevert`).
  "Edit = as if the movement always had its new form" is therefore proved only
  when the apply step reads the product after the revert (`Models.EditEffect`,
  `Models.SaveKeepsConsistent`).

The model follows the code where it does less than its docstring ("Handles
both create and update in a safe way") suggests:

- The model and the form word the insufficient-stock error differently. `clean`
  says "Not enough stock to move out N units. Current stock is S."; the form
  says "Cannot move out N units. Current available stock is S.".
- A save can be partially applied: see the first gap.
- An edit is "as if it had always had its new form" only without a stale snapshot.

## Model

| member | source | states |
|---|---|---|
| `Models.ParseMovementType` | inventory/models.py:66-71 | only the codes "IN" and "OUT" name a movement type, and a parsed type has that code |
| `Models.MovementTypeCodeRoundTrip` | inventory/models.py:66-71 | each movement type's stored code parses back to that type |
| `Models.MovementType.Code` | inventory/models.py:66-67 | a movement type is stored as "IN" or "OUT", and the two types get different codes |
| `Models.Product.IsLowStock` | inventory/models.py:60-62 | at the default reorder level 0 a product with non-negative stock is never low; an empty product with a positive reorder level is low |
| `Models.Error.Message` | inventory/models.py:95-112 | the quantity error has its fixed text; the stock error starts with its fixed prefix and ends with a full stop |
| `Models.KeyZeroIsNewForCleanButEditForSave` | inventory/models.py:100-124 | an instance with key 0 gets the same verdict from clean as a new one (`if self.pk` is false), but once clean passes, save treats it as an edit (`pk is None` is false), raises DoesNotExist and writes nothing |
| `Models.ProjectedStock` | inventory/models.py:100-106 | on an edit the previous quantity is added back if it was OUT and taken off if it was IN |
| `Models.ProjectionUndoesMovement` | inventory/models.py:101-106 | the projection exactly undoes a movement's effect on stock |
| `Models.Validate` | inventory/models.py:93-112 | quantity <= 0 is rejected whatever the type or stock; IN always passes; a new OUT fails exactly when quantity > stock, naming both numbers; an edited OUT compares against the projected stock; a missing previous row raises DoesNotExist |
| `Models.NotEnoughStockMessageNamesNumbers` | inventory/models.py:108-112 | the insufficient-stock message has the fixed prefix, and the requested quantity and the compared stock can be read back from it |
| `Models.FetchProduct` | inventory/models.py:99 | reading self.product caches what it returns, returns the cached product when there is one, and returns the stored row when the cache is current |
| `Models.CleanInstance` | inventory/models.py:93-112 | clean changes the instance only by caching self.product; with a current cache, its verdict is `Validate` against the stored stock and the cache stays current |
| `Models.ApplyEffect` | inventory/models.py:136-141 | the apply step adds the signed quantity to the product it reads and caches the result; it is refused exactly when that is negative, writing nothing, and otherwise writes that product only, leaving the cache current |
| `Models.SaveEffect` | inventory/models.py:114-141 | save changes only the key and the cache of the instance; a success gives a new movement the next key and appends its row, or replaces the edited row (which must exist); a ValidationError writes nothing |
| `Models.StockMovement.ReadProduct` | inventory/models.py:136 | `self.product` returns the cached snapshot, or reads the stored row and caches it |
| `Models.StockMovement.Clean` | inventory/models.py:93-112 | clean reads self.product only for a positive OUT movement and returns exactly `Validate` of that snapshot |
| `Models.StockMovement.Apply` | inventory/models.py:136-141 | the new database, cache and outcome are exactly `ApplyEffect` of the old ones: the cached or loaded product is changed in place, then written |
| `Models.StockMovement.Save` | inventory/models.py:114-141 | the new database, instance and outcome are exactly `SaveEffect` of the old ones: validate, revert on the previous product, write the row, apply on the current snapshot |
| `Models.Database.GetMovement` | inventory/models.py:124 | `objects.get(pk)` on the stored rows is exactly `Get`: row pk - 1 when the key is in range, DoesNotExist otherwise |
| `Models.Database.WriteProduct` | inventory/models.py:49 | a product write succeeds iff the quantity is non-negative, and writes the whole snapshot |
| `Models.Database.InsertMovement` | inventory/models.py:133 | a create appends the row and assigns the next primary key |
| `Models.Database.UpdateMovement` | inventory/models.py:133 | an edit replaces exactly the row of its primary key |
| `Models.SaveValidatesFirst` | inventory/models.py:119 | a movement that clean rejects causes no product write and no movement write |
| `Models.FailedSaveWritesOnlyBeforeApply` | inventory/models.py:119-141 | a failed save changes nothing, unless the final product write is refused; the movement row is then stored anyway |
| `Models.CreateEffect` | inventory/models.py:121-141 | with a current snapshot, a successful create moves its product by +quantity for IN or -quantity for OUT, leaves every other product as it was, appends one row and assigns the next key |
| `Models.CreateFailsOnlyInValidation` | inventory/models.py:98-141 | with a current snapshot and non-negative stock, a create's outcome is exactly clean's verdict; the database never refuses it |
| `Models.EditEffect` | inventory/models.py:122-141 | if the apply step reads the product after the revert, a successful edit replaces the row and moves each product by minus the old contribution plus the new one |
| `Models.StaleEditKeepsPreviousEffect` | inventory/models.py:122-141 | on the same product with a pre-revert snapshot, an edit ends at the pre-edit stock plus the new signed quantity; the revert is lost |
| `Models.SaveTracksLedger` | inventory/models.py:114-141 | without a stale snapshot, a successful save moves every product's stock by exactly the change in the signed sum of its movements |
| `Models.SaveKeepsWellFormed` | inventory/models.py:114-141 | every save, failed or not, keeps the set of products, and every stored movement still names an existing product |
| `Models.SaveKeepsConsistent` | inventory/models.py:114-141 | after a successful save with a current, non-stale snapshot, every stock still equals the signed sum of its movements |
| `Models.RecordAll` | inventory/models.py:114-141 | saving a sequence of new movements in order keeps the products and foreign-key integrity |
| `Models.RecordAllKeepsLedger` | inventory/models.py:93-141 | starting from stock that matches the movements, any sequence of new movements, accepted or refused, leaves every stock equal to the signed sum of its stored movements and non-negative |
| `Models.SaveKeepsStockNonNegative` | inventory/models.py:49 | no save leaves a stored stock negative |
| `Models.SaveLeavesCacheCurrent` | inventory/models.py:136-141 | after a successful save, the instance's cache is the product row just written |
| `Models.CreateAndLowStock` | inventory/models.py:60-62 | is_low_stock (quantity < reorder level): an IN create never makes a product low, an OUT create never clears it |
| `IntText.NatToString` | inventory/models.py:110-111 | a number is rendered as a non-empty run of digits with no leading zero |
| `IntText.IntToString` | inventory/models.py:110-111 | the rendering starts with '-' exactly for a negative number, as str() does |
| `IntText.IntToStringRoundTrip` | inventory/models.py:110-111 | the rendered number reads back as itself |
| `Forms.FormError.Message` | inventory/forms.py:22-88 | each ValidationError has its fixed text, the quantity error the same as the model's; the stock error starts with its fixed prefix and ends with a full stop |
| `Forms.CannotMoveOutMessageNamesNumbers` | inventory/forms.py:84-88 | the form's insufficient-stock message has its fixed prefix, and the requested quantity and the available stock can be read back from it |
| `Forms.CleanUnitPrice` | inventory/forms.py:22-26 | a price <= 0 is rejected with its message; otherwise, None included, it is returned unchanged |
| `Forms.CleanReorderLevel` | inventory/forms.py:28-32 | a negative level is rejected; otherwise, None included, it is returned unchanged |
| `Forms.CleanQuantity` | inventory/forms.py:61-65 | a quantity <= 0 is rejected; otherwise, None included, it is returned unchanged |
| `Forms.CleanMovement` | inventory/forms.py:67-89 | the stock check runs only with a product, type OUT and a non-zero quantity; it fails exactly when quantity > available, naming both numbers; otherwise cleaned_data is returned unchanged |
| `Forms.ZeroQuantitySkipsStockCheck` | inventory/forms.py:73 | quantity 0 skips the stock check, whatever the stock |
| `Forms.FormAgreesWithModelClean` | inventory/forms.py:74-88 | for a positive OUT quantity on the same snapshot, the form and the model's clean reject together, with the same numbers and the same DoesNotExist |
| `Scenarios.OutThenInsufficientOut` | inventory/models.py:98-141 | on stock 10, OUT 4 leaves 6; then OUT 10 is refused with (10, 6) and stock stays 6 |
| `Scenarios.InsufficientOutModelMessage` | inventory/models.py:108-112 | that refusal reads "Not enough stock to move out 10 units. Current stock is 6." (the fixed parts as the constants declared in `Models`) |
| `Scenarios.InsufficientOutForm` | inventory/forms.py:73-88 | the form refuses the same movement with (10, 6) |
| `Scenarios.InsufficientOutFormMessage` | inventory/forms.py:84-88 | the form's text is "Cannot move out 10 units. Current available stock is 6." (the fixed parts as the constants declared in `Forms`) |
| `Scenarios.InEditWithFreshRead` | inventory/models.py:122-141 | if self.product is read after the revert, IN 5 edited to IN 8 leaves stock 8 |
| `Scenarios.InEditWithSnapshotOverwritesRevert` | inventory/models.py:122-141 | with a pre-revert snapshot, the same edit leaves 13 while the movements sum to 8 |
| `Scenarios.ResaveSameInstanceOverwritesRevert` | inventory/models.py:122-141 | IN 5 on stock 0 saved, then the same instance changed to 8 and saved again: the cache holds 5, so stock ends at 13 |
| `Scenarios.OutEditRefusedAfterReversal` | inventory/models.py:100-112 | OUT 3 on stock 10 leaves 7; editing it to OUT 20 is checked against the reversed 10, refused, and stock stays 7 |
| `Scenarios.ChangedProductProjectedAgainstWrongStock` | inventory/models.py:99-141 | moving an OUT to a product short of stock passes clean; save then stores the revert and the row, and is refused at the final write, leaving the refused -3 in the instance's cache so its snapshot is no longer current |
| `Scenarios.InEditNotChecked` | inventory/models.py:98-131 | lowering an IN below what was since moved out passes clean, and the revert write is refused |
| `Scenarios.RecordTwoOutMovements` | inventory/models.py:114-141 | through the objects, OUT 4 then OUT 10 on stock 10: the first is saved, the second refused, leaving 6 and one row |

## Left out

- inventory/views.py, urls.py and admin.py are not modelled: queries, pagination, rendering, CSV export, date parsing and the dashboard stock value (a Decimal aggregate computed by the database).
- Django's field validation inside `full_clean` is left out: choices, the foreign-key check (stated instead as the precondition that the product exists), PositiveIntegerField minimums and error-dict merging. Only `clean` is modelled as the validation `save` runs.
- A movement_type outside IN/OUT is not modelled, because full_clean rejects the choice. So is the difference it would expose: `clean` uses `elif` and ignores such a previous type, while `save` uses `else` and treats it as OUT.
- An unset (`None`) quantity makes `StockMovement.clean` raise TypeError on `None <= 0` (Django still calls `clean` after a field error); not modelled, the quantity here is always an integer.
- Product and movement fields the ledger never reads are not modelled: name, sku, unit price on the model, dates, note.
- The form's `super().clean()`, StockMovementForm's date-format initial value and the ModelChoiceField's product query are left out. The product snapshot is an input.
- Deleting a movement, and the cascade when a product is deleted, are not modelled: no reconciliation logic exists for them.
- Concurrency is not modelled. The lemmas that need a current snapshot assume it as `ReadsCurrent`: the instance's cached product equals the stored row when `save` starts. It holds for an instance that has not read its product yet, and after a successful save of the same instance (`SaveLeavesCacheCurrent`). It fails after a save refused at its final write, because the cache keeps the refused value (`Scenarios.ChangedProductProjectedAgainstWrongStock`), and when another instance has written the product since this one read it.
- Shared Product objects are not modelled. Each instance holds its own copy of the product as a value. In Django, one Product object can be the cached `self.product` of several instances at once, and a change made through one is then seen by the others.
- Integer width is not modelled. PositiveIntegerField values are bounded by the database (for example 2147483647 on PostgreSQL), but the model's stock and quantity are unbounded and `WriteProduct` accepts any non-negative value.
- The `*args, **kwargs` of `save` (such as `force_insert` or `update_fields`) are not modelled; `super().save` is called with none.
- An unsaved instance built with the primary key of an existing row is not modelled. Django's `full_clean` rejects it in its uniqueness check, while the model treats it as an edit of that row.
- Models.EditEffect: proved only when the apply step reads the product after the revert, because the source overwrites the revert otherwise.
- Models.SaveTracksLedger: proved only for a save with a current, non-stale snapshot, because the source breaks the ledger otherwise.
- Models.SaveKeepsConsistent: has the same precondition as `SaveTracksLedger`. A product's starting stock can be set directly in the product form (inventory/forms.py:15), so it need not match its movements. `SaveTracksLedger` covers that case as a per-save change.
