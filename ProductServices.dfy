/**
 * The product lifecycle service: create, update by patch, delete, and the progress
 * operations `setMade` and `incrementMade`. Each public operation is one transaction over
 * the store: it either commits its single write or, on any error, leaves the tables as they were.
 */
module ProductServices {
  import opened Errors
  import opened JavaInt
  import opened Products
  import opened Repositories

  // ---------------------------------------------------------------------------------------
  // Specification functions

  /**
   * `recalcDerived` on a value: `missing` from quantity and made count (when there is a
   * quantity), `samTotal` from `sam` and `missing`, and a null status defaulted; no other
   * column changes.
   */
  function Recalculated(d: ProductData, samRound: SamRounding): (r: ProductData)
    ensures r == d.(missing := r.missing, samTotal := r.samTotal, status := r.status)
    ensures r.status == Pick(d.status, Some(Proceso))
    ensures d.quantity.Some? ==> r.missing == Some(Remaining(d.quantity.value, MadeOrZero(d)))
    ensures d.quantity.None? ==> r.missing == d.missing
    ensures r.sam.Some? && r.missing.Some? ==> r.samTotal == Some(samRound(r.sam.value, r.missing.value))
    ensures !(r.sam.Some? && r.missing.Some?) ==> r.samTotal == d.samTotal
  {
    var withMissing := if d.quantity.Some? then d.(missing := Some(Remaining(d.quantity.value, MadeOrZero(d)))) else d;
    var withSam :=
      if withMissing.sam.Some? && withMissing.missing.Some? then
        withMissing.(samTotal := Some(samRound(withMissing.sam.value, withMissing.missing.value)))
      else withMissing;
    if withSam.status.None? then withSam.(status := Some(Proceso)) else withSam
  }

  /** A patch value where present, the current value otherwise. */
  function Pick<T>(patch: Option<T>, current: Option<T>): (r: Option<T>)
    ensures patch.Some? ==> r == patch
    ensures patch.None? ==> r == current
  {
    if patch.Some? then patch else current
  }

  /** The column copy of `update`: the non-null patch columns replace the current ones, except `op` and the made count. */
  function Merged(existing: ProductData, patch: ProductData): (r: ProductData)
    ensures r.id == existing.id && r.op == existing.op && r.quantityMade == existing.quantityMade
    ensures r.missing == existing.missing && r.samTotal == existing.samTotal
    ensures r.actualDeliveryDate == existing.actualDeliveryDate
  {
    existing.(
      price := Pick(patch.price, existing.price),
      quantity := Pick(patch.quantity, existing.quantity),
      assignedDate := Pick(patch.assignedDate, existing.assignedDate),
      plantEntryDate := Pick(patch.plantEntryDate, existing.plantEntryDate),
      reference := Pick(patch.reference, existing.reference),
      brand := Pick(patch.brand, existing.brand),
      campaign := Pick(patch.campaign, existing.campaign),
      productType := Pick(patch.productType, existing.productType),
      description := Pick(patch.description, existing.description),
      sizeQuantities := Pick(patch.sizeQuantities, existing.sizeQuantities),
      sam := Pick(patch.sam, existing.sam),
      status := Pick(patch.status, existing.status),
      stoppageReason := Pick(patch.stoppageReason, existing.stoppageReason),
      moduleId := Pick(patch.moduleId, existing.moduleId))
  }

  /** The entity `create` hands to `save`: status and made count defaulted, then `recalcDerived`. */
  function Prepared(body: ProductData, samRound: SamRounding): (r: ProductData)
    ensures r.status == Pick(body.status, Some(Proceso))
    ensures r.quantityMade == Some(MadeOrZero(body))
    ensures r.quantity == body.quantity && r.sizeQuantities == body.sizeQuantities && r.id == body.id
  {
    var withDefaults := body.(status := Pick(body.status, Some(Proceso)), quantityMade := Some(MadeOrZero(body)));
    Recalculated(withDefaults, samRound)
  }

  /** `create(body)` when the next identity is `nextId`. */
  ghost function CreateResult(body: ProductData, nextId: int, samRound: SamRounding): (r: Result<ProductData>)
    ensures body.quantity.None? ==> r == Failure(QuantityRequired)
    ensures r.Success? ==> r.value.id == Some(nextId)
  {
    if body.quantity.None? then Failure(QuantityRequired)
    else
      match CreateCheck(Prepared(body, samRound))
      case Failure(e) => Failure(e)
      case Success(e) => Success(e.(id := Some(nextId)))
  }

  /** The common end of the update operations: `recalcDerived`, then `save` with its `@PreUpdate` check. */
  function Finished(progressed: Result<ProductData>, samRound: SamRounding): (r: Result<ProductData>)
    ensures progressed.Failure? ==> r == Failure(progressed.error)
    ensures r.Success? ==>
      && r.value.quantity.Some? && r.value.quantity.value > 0
      && r.value.quantityMade.Some? && 0 <= r.value.quantityMade.value <= r.value.quantity.value
      && r.value.status.Some?
  {
    match progressed
    case Failure(e) => Failure(e)
    case Success(d) => UpdateCheck(Recalculated(d, samRound))
  }

  /**
   * `update(patch, id)` of the stored row `existing`, where `opTaken` is the answer of
   * `existsByOpAndIdNot(patch.op, id)`.
   */
  function UpdateResult(existing: ProductData, patch: ProductData, opTaken: bool, samRound: SamRounding): (r: Result<ProductData>)
    ensures patch.op.Some? && patch.op != existing.op && opTaken ==> r == Failure(DuplicateOp(patch.op.value))
    ensures r.Success? ==> r.value.op == existing.op && r.value.id == existing.id
  {
    var merged := Merged(existing, patch);
    if patch.op.Some? && patch.op != existing.op && opTaken then Failure(DuplicateOp(patch.op.value))
    else
      var progressed :=
        if patch.quantityMade.None? then Success(merged)
        else if existing.quantityMade.None? then Failure(NullMade)
        else WithMade(merged, Sub(patch.quantityMade.value, existing.quantityMade.value), samRound);
      Finished(progressed, samRound)
  }

  /** `setMade(id, v)` of the stored row `existing`. */
  function SetMadeResult(existing: ProductData, v: Int32, samRound: SamRounding): (r: Result<ProductData>)
    ensures r.Success? ==> r.value.quantityMade == Some(v)
  {
    AddSubCancel(MadeOrZero(existing), v);
    Finished(WithMade(existing, Sub(v, MadeOrZero(existing)), samRound), samRound)
  }

  /** `incrementMade(id, delta)` of the stored row `existing`. */
  function IncrementMadeResult(existing: ProductData, delta: Int32, samRound: SamRounding): (r: Result<ProductData>)
    ensures delta == 0 ==> r == UpdateCheck(Recalculated(existing, samRound))
    ensures r.Success? ==> r.value.quantityMade == Some(Add(MadeOrZero(existing), delta))
  {
    Finished(if delta != 0 then WithMade(existing, delta, samRound) else Success(existing), samRound)
  }

  // ---------------------------------------------------------------------------------------
  // Properties

  /** `recalcDerived` is idempotent. */
  lemma RecalculatedIdempotent(d: ProductData, samRound: SamRounding)
    ensures Recalculated(Recalculated(d, samRound), samRound) == Recalculated(d, samRound)
  {
  }

  /** With a non-negative quantity and made count, `missing` is exactly what remains, never negative. */
  lemma RecalculatedMissing(d: ProductData, samRound: SamRounding)
    requires d.quantity.Some? && d.quantity.value >= 0 && MadeOrZero(d) >= 0
    ensures var q, m := d.quantity.value, MadeOrZero(d);
      Recalculated(d, samRound).missing == Some(if q >= m then q - m else 0)
  {
  }

  /**
   * `create`: a null quantity is rejected before anything is saved. A created product has
   * the next identity, the given status or PROCESO, the given made count or 0, and
   * satisfies the stored-row invariant.
   */
  lemma {:induction false} CreateOutcome(body: ProductData, nextId: int, samRound: SamRounding)
    ensures body.quantity.None? ==> CreateResult(body, nextId, samRound) == Failure(QuantityRequired)
    ensures var r := CreateResult(body, nextId, samRound);
      r.Success? ==>
        && r.value.id == Some(nextId)
        && r.value.status == (if body.status.None? then Some(Proceso) else body.status)
        && r.value.quantityMade == Some(MadeOrZero(body))
        && StoredProduct(nextId, r.value)
  {
    if body.quantity.Some? {
      CreateCheckOutcome(Prepared(body, samRound));
    }
  }

  /**
   * The order of `create`: `missing` is computed while the quantity is still 0, before the
   * create check derives the quantity from the sizes, so such a product is stored with
   * `missing == 0` although nothing has been made.
   */
  lemma {:induction false} CreateZeroQuantityQuirk(body: ProductData, nextId: int, samRound: SamRounding)
    requires body.quantity == Some(0)
    requires 0 < SizeTotal(body) <= MAX && 0 <= MadeOrZero(body) <= SizeTotal(body)
    ensures var r := CreateResult(body, nextId, samRound);
      && r.Success?
      && r.value.quantity == Some(SizeTotal(body))
      && r.value.quantityMade == Some(MadeOrZero(body))
      && r.value.missing == Some(0)
  {
    var p := Prepared(body, samRound);
    assert SizeTotal(p) == SizeTotal(body);
    CreateCheckOutcome(p);
  }

  /** With a positive quantity given, a created product's `missing` is quantity minus made. */
  lemma {:induction false} CreateMissing(body: ProductData, nextId: int, samRound: SamRounding)
    requires body.quantity.Some? && body.quantity.value > 0
    requires CreateResult(body, nextId, samRound).Success?
    ensures var r := CreateResult(body, nextId, samRound).value;
      r.missing == Some(r.quantity.value - r.quantityMade.value)
  {
    var p := Prepared(body, samRound);
    CreateCheckOutcome(p);
  }

  /**
   * `update` never writes `op`, the identity or the delivery date, and copies every other
   * present patch column; a null patch column leaves the stored value.
   */
  lemma {:induction false} UpdateCopiesPresentFields(existing: ProductData, patch: ProductData, opTaken: bool, samRound: SamRounding)
    requires existing.status.Some?
    requires UpdateResult(existing, patch, opTaken, samRound).Success?
    ensures var r := UpdateResult(existing, patch, opTaken, samRound).value;
      && r.op == existing.op && r.id == existing.id && r.actualDeliveryDate == existing.actualDeliveryDate
      && r.price == Pick(patch.price, existing.price)
      && r.quantity == Pick(patch.quantity, existing.quantity)
      && r.assignedDate == Pick(patch.assignedDate, existing.assignedDate)
      && r.plantEntryDate == Pick(patch.plantEntryDate, existing.plantEntryDate)
      && r.reference == Pick(patch.reference, existing.reference)
      && r.brand == Pick(patch.brand, existing.brand)
      && r.campaign == Pick(patch.campaign, existing.campaign)
      && r.productType == Pick(patch.productType, existing.productType)
      && r.description == Pick(patch.description, existing.description)
      && r.sizeQuantities == Pick(patch.sizeQuantities, existing.sizeQuantities)
      && r.sam == Pick(patch.sam, existing.sam)
      && r.status == Pick(patch.status, existing.status)
      && r.stoppageReason == Pick(patch.stoppageReason, existing.stoppageReason)
      && r.moduleId == Pick(patch.moduleId, existing.moduleId)
  {
    var merged := Merged(existing, patch);
    if patch.quantityMade.Some? {
      var delta := Sub(patch.quantityMade.value, existing.quantityMade.value);
      if delta != 0 {
        assert WithMade(merged, delta, samRound).value == merged.(
          quantityMade := WithMade(merged, delta, samRound).value.quantityMade,
          missing := WithMade(merged, delta, samRound).value.missing,
          samTotal := WithMade(merged, delta, samRound).value.samTotal);
      }
    }
  }

  /** A patch `op` that differs from the stored one and belongs to another product is a duplicate. */
  lemma UpdateDuplicateOp(existing: ProductData, patch: ProductData, samRound: SamRounding)
    requires patch.op.Some? && patch.op != existing.op
    ensures UpdateResult(existing, patch, true, samRound) == Failure(DuplicateOp(patch.op.value))
  {
  }

  /**
   * A patch made count goes through `addMade` as the difference to the stored count: a
   * successful update leaves exactly that count, within `[0, quantity]`, and `missing` is
   * what remains; a count outside `[0, quantity]` fails.
   */
  lemma {:induction false} UpdateMadeRouted(key: int, existing: ProductData, patch: ProductData, opTaken: bool, samRound: SamRounding)
    requires StoredProduct(key, existing) && patch.quantityMade.Some?
    ensures var r, v, q := UpdateResult(existing, patch, opTaken, samRound), patch.quantityMade.value,
                           Merged(existing, patch).quantity.value;
      && (r.Success? ==> r.value.quantityMade == Some(v) && 0 <= v <= q && r.value.missing == Some(q - v))
      && (!(0 <= v <= q) ==> r.Failure?)
  {
    var base, v := existing.quantityMade.value, patch.quantityMade.value;
    AddSubCancel(base, v);
  }

  /** A patch with a quantity of 0 or less (the default a partial body deserialises to) is always rejected. */
  lemma {:induction false} UpdateNonPositiveQuantityFails(existing: ProductData, patch: ProductData, opTaken: bool, samRound: SamRounding)
    requires patch.quantity.Some? && patch.quantity.value <= 0
    ensures UpdateResult(existing, patch, opTaken, samRound).Failure?
  {
    var merged := Merged(existing, patch);
    if patch.quantityMade.Some? && existing.quantityMade.Some? {
      var delta := Sub(patch.quantityMade.value, existing.quantityMade.value);
      var w := WithMade(merged, delta, samRound);
      if w.Success? {
        assert w.value.quantity == merged.quantity;
      }
    }
  }

  /** `setMade(id, v)` succeeds exactly when `0 <= v <= quantity`, and then leaves exactly `v` made. */
  lemma {:induction false} SetMadeExact(key: int, existing: ProductData, v: Int32, samRound: SamRounding)
    requires StoredProduct(key, existing)
    ensures var r, q := SetMadeResult(existing, v, samRound), existing.quantity.value;
      && (r.Success? <==> 0 <= v <= q)
      && (r.Success? ==> r.value.quantityMade == Some(v) && r.value.missing == Some(q - v))
  {
    AddSubCancel(existing.quantityMade.value, v);
  }

  /** `incrementMade(id, 0)` leaves the made count as it is and succeeds. */
  lemma IncrementMadeZero(key: int, existing: ProductData, samRound: SamRounding)
    requires StoredProduct(key, existing)
    ensures var r := IncrementMadeResult(existing, 0, samRound);
      r.Success? && r.value.quantityMade == existing.quantityMade
  {
  }

  /**
   * `incrementMade(id, delta)` succeeds exactly when the stored count plus `delta` lies in
   * `[0, quantity]`, and then the count is exactly that sum.
   */
  lemma {:induction false} IncrementMadeExact(key: int, existing: ProductData, delta: Int32, samRound: SamRounding)
    requires StoredProduct(key, existing)
    ensures var r, m, q := IncrementMadeResult(existing, delta, samRound), existing.quantityMade.value, existing.quantity.value;
      && (r.Success? <==> 0 <= m + delta <= q)
      && (r.Success? ==> r.value.quantityMade == Some(m + delta))
  {
    var m := existing.quantityMade.value;
    if m + delta > MAX {
      assert Wrap(m + delta) == Wrap((m + delta - MODULUS) + 1 * MODULUS);
      WrapShift(m + delta - MODULUS, 1);
    }
  }

  // ---------------------------------------------------------------------------------------
  // The service

  class ProductService {
    const store: Store
    /** `(int) Math.round(sam * missing)`. */
    const samRound: SamRounding

    constructor (store: Store, samRound: SamRounding)
      ensures this.store == store && this.samRound == samRound
    {
      this.store, this.samRound := store, samRound;
    }

    /** `delete(id)`: fails for an absent id and removes nothing; otherwise removes exactly that row. */
    method Delete(id: int) returns (err: Option<Error>)
      requires store.Valid()
      modifies store
      ensures store.Valid()
      ensures id !in old(store.products) ==> err == Some(ProductNotFound(id)) && store.products == old(store.products)
      ensures id in old(store.products) ==> err.None? && store.products == old(store.products) - {id}
      ensures store.modules == old(store.modules) && store.nextProductId == old(store.nextProductId)
      ensures store.nextModuleId == old(store.nextModuleId)
    {
      if id !in store.products {
        return Some(ProductNotFound(id));
      }
      store.DeleteProduct(id);
      return None;
    }

    /** `create(body)`: the result is `CreateResult`; on success it is stored under the next identity. */
    method Create(body: ProductData) returns (r: Result<ProductData>)
      requires store.Valid()
      modifies store
      ensures store.Valid()
      ensures r == CreateResult(body, old(store.nextProductId), samRound)
      ensures r.Success? ==> store.products == old(store.products)[old(store.nextProductId) := r.value]
                             && store.nextProductId == old(store.nextProductId) + 1
      ensures r.Failure? ==> store.products == old(store.products) && store.nextProductId == old(store.nextProductId)
      ensures store.modules == old(store.modules) && store.nextModuleId == old(store.nextModuleId)
    {
      var p := new Product.Load(body);
      if p.status.None? {
        p.status := Some(Proceso);
      }
      if p.quantityMade.None? {
        p.quantityMade := Some(0);
      }
      if p.quantity.None? {
        return Failure(QuantityRequired);
      }
      assert p.Snapshot() == body.(status := Pick(body.status, Some(Proceso)), quantityMade := Some(MadeOrZero(body)));
      RecalcDerived(p);
      assert p.Snapshot() == Prepared(body, samRound);
      r := store.InsertProduct(p);
    }

    /**
     * `update(patch, id)`: fails for an absent id; otherwise the result is `UpdateResult` of
     * the stored row, and only a success writes, replacing exactly that row.
     */
    method Update(patch: ProductData, id: int) returns (r: Result<ProductData>)
      requires store.Valid()
      modifies store
      ensures store.Valid()
      ensures id !in old(store.products) ==> r == Failure(ProductNotFound(id))
      ensures id in old(store.products) ==>
        r == UpdateResult(old(store.products[id]), patch,
                          patch.op.Some? && old(store.ExistsByOpAndIdNot(patch.op.value, id)), samRound)
      ensures r.Success? ==> store.products == old(store.products)[id := r.value]
      ensures r.Failure? ==> store.products == old(store.products)
      ensures store.modules == old(store.modules) && store.nextProductId == old(store.nextProductId)
              && store.nextModuleId == old(store.nextModuleId)
    {
      if id !in store.products {
        return Failure(ProductNotFound(id));
      }
      var existing := new Product.Load(store.products[id]);
      CopyPresentFields(existing, patch);
      if patch.op.Some? && patch.op != existing.op && store.ExistsByOpAndIdNot(patch.op.value, id) {
        return Failure(DuplicateOp(patch.op.value));
      }
      if patch.quantityMade.Some? {
        var delta := Sub(patch.quantityMade.value, existing.quantityMade.value);
        var err := existing.AddMade(delta, samRound);
        if err.Some? {
          return Failure(err.value);
        }
      }
      RecalcDerived(existing);
      r := store.SaveProduct(existing, id);
    }

    /** `setMade(id, v)`: fails for an absent id; otherwise the result is `SetMadeResult` of the stored row. */
    method SetMade(id: int, newValue: Int32) returns (r: Result<ProductData>)
      requires store.Valid()
      modifies store
      ensures store.Valid()
      ensures id !in old(store.products) ==> r == Failure(ProductNotFound(id))
      ensures id in old(store.products) ==> r == SetMadeResult(old(store.products[id]), newValue, samRound)
      ensures r.Success? ==> store.products == old(store.products)[id := r.value]
      ensures r.Failure? ==> store.products == old(store.products)
      ensures store.modules == old(store.modules) && store.nextProductId == old(store.nextProductId)
              && store.nextModuleId == old(store.nextModuleId)
    {
      if id !in store.products {
        return Failure(ProductNotFound(id));
      }
      var p := new Product.Load(store.products[id]);
      var delta := Sub(newValue, MadeOrZero(p.Snapshot()));
      var err := p.AddMade(delta, samRound);
      if err.Some? {
        return Failure(err.value);
      }
      RecalcDerived(p);
      r := store.SaveProduct(p, id);
    }

    /** `incrementMade(id, delta)`: fails for an absent id; otherwise the result is `IncrementMadeResult` of the stored row. */
    method IncrementMade(id: int, delta: Int32) returns (r: Result<ProductData>)
      requires store.Valid()
      modifies store
      ensures store.Valid()
      ensures id !in old(store.products) ==> r == Failure(ProductNotFound(id))
      ensures id in old(store.products) ==> r == IncrementMadeResult(old(store.products[id]), delta, samRound)
      ensures r.Success? ==> store.products == old(store.products)[id := r.value]
      ensures r.Failure? ==> store.products == old(store.products)
      ensures store.modules == old(store.modules) && store.nextProductId == old(store.nextProductId)
              && store.nextModuleId == old(store.nextModuleId)
    {
      if id !in store.products {
        return Failure(ProductNotFound(id));
      }
      var p := new Product.Load(store.products[id]);
      if delta != 0 {
        var err := p.AddMade(delta, samRound);
        if err.Some? {
          return Failure(err.value);
        }
      }
      RecalcDerived(p);
      r := store.SaveProduct(p, id);
    }

    /** The column copy of `update`, on the entity read from the table. */
    method CopyPresentFields(existing: Product, patch: ProductData)
      modifies existing
      ensures existing.Snapshot() == Merged(old(existing.Snapshot()), patch)
    {
      existing.PatchPrice(patch.price);
      existing.PatchQuantity(patch.quantity);
      existing.PatchAssignedDate(patch.assignedDate);
      existing.PatchPlantEntryDate(patch.plantEntryDate);
      existing.PatchReference(patch.reference);
      existing.PatchBrand(patch.brand);
      existing.PatchCampaign(patch.campaign);
      existing.PatchProductType(patch.productType);
      existing.PatchDescription(patch.description);
      existing.PatchSizeQuantities(patch.sizeQuantities);
      existing.PatchSam(patch.sam);
      existing.PatchStatus(patch.status);
      existing.PatchStoppageReason(patch.stoppageReason);
      existing.PatchModuleId(patch.moduleId);
    }

    /** `recalcDerived(p)`: the entity becomes `Recalculated` of what it was. */
    method RecalcDerived(p: Product)
      modifies p
      ensures p.Snapshot() == Recalculated(old(p.Snapshot()), samRound)
    {
      if p.quantity.Some? {
        var made := if p.quantityMade.None? then 0 else p.quantityMade.value;
        p.missing := Some(Remaining(p.quantity.value, made));
      }
      if p.sam.Some? && p.missing.Some? {
        p.samTotal := Some(samRound(p.sam.value, p.missing.value));
      }
      if p.status.None? {
        p.status := Some(Proceso);
      }
    }
  }
}
