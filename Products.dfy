/**
 * The production order ("Product") entity: its columns, the checks JPA runs before insert
 * (`validateOnCreate`) and before update (`validateOnUpdate`), the progress step `addMade`,
 * and the derived quantities `getQuantityPending`, `getTotalPrice` and `getLoadDays`.
 */
module Products {
  import opened Errors
  import opened JavaInt
  import opened Decimals
  import StoppageReasons

  datatype ProductionStatus = Proceso | Asignado | Confeccion

  /** A `Double` standard-minutes value, kept as its IEEE-754 bit pattern and not interpreted. */
  datatype Sam = Sam(bits: bv64)

  /** A `LocalDate`, as a day number. */
  datatype Date = Date(epochDay: int)

  /** `(int) Math.round(sam * missing)`: floating point, supplied from outside the model. */
  type SamRounding = (Sam, Int32) -> Int32

  /** The per-size unit counts; a count may be null. */
  type SizeMap = map<string, Option<Int32>>

  /** Every column of a product, `None` standing for null. */
  datatype ProductData = ProductData(
    id: Option<int>,
    price: Option<Decimal>,
    quantity: Option<Int32>,
    assignedDate: Option<Date>,
    plantEntryDate: Option<Date>,
    reference: Option<string>,
    brand: Option<string>,
    op: Option<string>,
    campaign: Option<string>,
    productType: Option<string>,
    description: Option<string>,
    sizeQuantities: Option<SizeMap>,
    moduleId: Option<int>,
    status: Option<ProductionStatus>,
    stoppageReason: Option<StoppageReasons.StoppageReason>,
    quantityMade: Option<Int32>,
    actualDeliveryDate: Option<string>,
    missing: Option<Int32>,
    sam: Option<Sam>,
    samTotal: Option<Int32>)

  /** The field initialisers: quantity 0, an empty size map, status PROCESO, nothing made. */
  const Defaults: ProductData := ProductData(
    None, None, Some(0), None, None, None, None, None, None, None, None,
    Some(map[]), None, Some(Proceso), None, Some(0), None, None, None, None)

  // ---------------------------------------------------------------------------------------
  // Size breakdown

  /** `v == null ? 0 : Math.max(0, v)`. */
  function Units(v: Option<Int32>): (n: nat)
    ensures v.Some? && v.value >= 0 ==> n == v.value
    ensures v.None? || v.value < 0 ==> n == 0
  {
    if v.None? then 0 else if v.value < 0 then 0 else v.value
  }

  /** The size map after `validateOnCreate`'s normalisation: null map becomes empty, null or negative counts 0. */
  function Normalized(m: Option<SizeMap>): (r: SizeMap)
    ensures m.None? ==> r == map[]
    ensures m.Some? ==> r.Keys == m.value.Keys
    ensures forall k :: k in r ==> m.Some? && r[k] == Some(Units(m.value[k]))
  {
    if m.None? then map[] else map k | k in m.value :: Some(Units(m.value[k]))
  }

  /** The unit count of every size. */
  function Counts(m: SizeMap): (c: map<string, int>)
    ensures c.Keys == m.Keys
    ensures forall k :: k in c ==> c[k] == Units(m[k])
  {
    map k | k in m :: Units(m[k])
  }

  /** The exact sum of the values of a map. */
  ghost function Sum(m: map<string, int>): (r: int)
    ensures (forall k :: k in m ==> m[k] >= 0) ==> r >= 0
    decreases |m|
  {
    if m == map[] then 0
    else
      var k :| k in m;
      assert |m - {k}| < |m| by { assert (m - {k}).Keys == m.Keys - {k}; }
      m[k] + Sum(m - {k})
  }

  /** The sum does not depend on which key is taken first. */
  lemma {:induction false} SumRemove(m: map<string, int>, k: string)
    requires k in m
    ensures Sum(m) == m[k] + Sum(m - {k})
    decreases |m|
  {
    var j :| j in m && Sum(m) == m[j] + Sum(m - {j});
    if j != k {
      var mj, mk := m - {j}, m - {k};
      assert (mj.Keys == m.Keys - {j}) && (mk.Keys == m.Keys - {k});
      assert |mj| < |m| && |mk| < |m|;
      SumRemove(mj, k);
      SumRemove(mk, j);
      assert mj - {k} == mk - {j};
    }
  }

  /** The total of the normalised size breakdown. */
  ghost function SizeTotal(d: ProductData): (s: int)
    ensures s >= 0
  {
    Sum(Counts(Normalized(d.sizeQuantities)))
  }

  /** `sizeQuantities.values().stream().mapToInt(...).sum()` computed without wrap-around. */
  method SumOfSizes(sizes: SizeMap) returns (sum: int)
    ensures sum == Sum(Counts(sizes))
  {
    sum := 0;
    var rest := sizes;
    while rest != map[]
      invariant rest.Keys <= sizes.Keys
      invariant forall k :: k in rest ==> rest[k] == sizes[k]
      invariant sum + Sum(Counts(rest)) == Sum(Counts(sizes))
      decreases |rest|
    {
      var k :| k in rest;
      SumRemove(Counts(rest), k);
      assert Counts(rest) - {k} == Counts(rest - {k});
      sum := sum + Units(rest[k]);
      assert (rest - {k}).Keys == rest.Keys - {k};
      rest := rest - {k};
    }
  }

  /**
   * `sizeQuantities.values().stream().mapToInt(Integer::intValue).sum()` as Java computes
   * it: every addition in 32-bit `int`, so the result is the exact total wrapped around.
   */
  method JavaSumOfSizes(sizes: SizeMap) returns (sum: Int32)
    ensures sum == Wrap(Sum(Counts(sizes)))
  {
    sum := 0;
    ghost var carries := 0;
    var rest := sizes;
    while rest != map[]
      invariant rest.Keys <= sizes.Keys
      invariant forall k :: k in rest ==> rest[k] == sizes[k]
      invariant sum + Sum(Counts(rest)) == Sum(Counts(sizes)) + carries * MODULUS
      decreases |rest|
    {
      var k :| k in rest;
      SumRemove(Counts(rest), k);
      assert Counts(rest) - {k} == Counts(rest - {k});
      var units: Int32 := Units(rest[k]);
      ghost var c := AddCarry(sum, units);
      sum := Add(sum, units);
      carries := carries - c;
      assert (rest - {k}).Keys == rest.Keys - {k};
      rest := rest - {k};
    }
    assert Counts(rest) == map[];
    WrapCarries(Sum(Counts(sizes)), sum, carries);
  }

  // ---------------------------------------------------------------------------------------
  // validateOnCreate (@PrePersist)

  /** The made count with null read as 0. */
  function MadeOrZero(d: ProductData): (m: Int32)
    ensures d.quantityMade.Some? ==> m == d.quantityMade.value
    ensures d.quantityMade.None? ==> m == 0
  {
    if d.quantityMade.None? then 0 else d.quantityMade.value
  }

  /** `Math.max(0, quantity - made)` in Java `int` arithmetic: never negative, and exact for non-negative inputs. */
  function Remaining(quantity: Int32, made: Int32): (r: Int32)
    ensures r >= 0
    ensures quantity >= 0 && made >= 0 ==> r == if quantity >= made then quantity - made else 0
  {
    var diff := Sub(quantity, made);
    if diff < 0 then 0 else diff
  }

  /** `quantityMade` defaulted to 0 and checked against `quantity` (the last step of `validateOnCreate` and the range check of `validateOnUpdate`). */
  function MadeChecked(d: ProductData): (r: Result<ProductData>)
    requires d.quantity.Some?
    ensures var made := MadeOrZero(d);
      if 0 <= made <= d.quantity.value then r == Success(d.(quantityMade := Some(made)))
      else r == Failure(MadeOutOfRange)
  {
    var made := MadeOrZero(d);
    if made < 0 || made > d.quantity.value then Failure(MadeOutOfRange)
    else Success(d.(quantityMade := Some(made)))
  }

  /** The product with its size map normalised, as `validateOnCreate` first rewrites it. */
  function WithNormalizedSizes(d: ProductData): (n: ProductData)
    ensures n == d.(sizeQuantities := n.sizeQuantities)
    ensures n.sizeQuantities == Some(Normalized(d.sizeQuantities))
  {
    d.(sizeQuantities := Some(Normalized(d.sizeQuantities)))
  }

  /** Reconciling `quantity` with the sizes' total (the reconciliation and made-count steps of `validateOnCreate`), the sizes being normalised already. */
  function Reconcile(n: ProductData, sum: Int32): (r: Result<ProductData>)
    ensures r.Success? ==>
      && sum > 0 && r.value.quantity == Some(sum)
      && (n.quantity.None? || n.quantity.value == 0 || n.quantity.value == sum)
      && r.value == n.(quantity := Some(sum), quantityMade := Some(MadeOrZero(n)))
      && 0 <= MadeOrZero(n) <= sum
    ensures sum <= 0 ==> r.Failure?
  {
    var hasSizes := sum > 0;
    if n.quantity.None? || n.quantity.value == 0 then
      if !hasSizes then Failure(QuantityOrSizesRequired)
      else MadeChecked(n.(quantity := Some(sum)))
    else if !hasSizes then Failure(SizesRequiredWithQuantity)
    else if n.quantity.value != sum then Failure(SizeSumMismatch(sum, n.quantity.value))
    else MadeChecked(n)
  }

  /**
   * `validateOnCreate` as written: the sizes are summed in Java `int`, so a breakdown whose
   * true total exceeds 2^31 - 1 wraps around.
   */
  ghost function CreateCheckAsWritten(d: ProductData): (r: Result<ProductData>)
    ensures r.Success? ==> r.value.quantity == Some(Wrap(SizeTotal(d)))
  {
    Reconcile(WithNormalizedSizes(d), Wrap(SizeTotal(d)))
  }

  /** `validateOnCreate` with the sum computed exactly and a total beyond the `int` range rejected. */
  ghost function CreateCheck(d: ProductData): (r: Result<ProductData>)
    ensures r.Success? ==> r.value.quantity == Some(SizeTotal(d))
    ensures SizeTotal(d) > MAX ==> r == Failure(SizeSumOverflow(SizeTotal(d)))
  {
    var sum := SizeTotal(d);
    if sum > MAX then Failure(SizeSumOverflow(sum)) else Reconcile(WithNormalizedSizes(d), sum)
  }

  /**
   * The outcomes of the create check. On success the order's quantity is the exact total of
   * the normalised sizes, the made count (null read as 0) lies in `[0, quantity]`, and nothing
   * else changes; it fails exactly in the listed cases, each with its own error.
   */
  lemma CreateCheckOutcome(d: ProductData)
    ensures var r, sum, noQuantity := CreateCheck(d), SizeTotal(d), d.quantity.None? || d.quantity.value == 0;
      var made := MadeOrZero(d);
      && (r == Failure(SizeSumOverflow(sum)) <==> sum > MAX)
      && (r == Failure(QuantityOrSizesRequired) <==> noQuantity && sum == 0)
      && (r == Failure(SizesRequiredWithQuantity) <==> !noQuantity && sum == 0)
      && (r.Failure? && r.error.SizeSumMismatch? <==> !noQuantity && 0 < sum <= MAX && d.quantity.value != sum)
      && (r.Failure? && r.error.SizeSumMismatch? ==> r.error == SizeSumMismatch(sum, d.quantity.value))
      && (r == Failure(MadeOutOfRange) <==> 0 < sum <= MAX && (noQuantity || d.quantity.value == sum) && !(0 <= made <= sum))
      && (r.Success? <==> 0 < sum <= MAX && (noQuantity || d.quantity.value == sum) && 0 <= made <= sum)
      && (r.Success? ==>
            r.value == d.(sizeQuantities := Some(Normalized(d.sizeQuantities)), quantity := Some(sum),
                          quantityMade := Some(made)))
  {
  }

  /** Every size count is non-negative after a successful create check. */
  lemma CreateCheckCountsNonNegative(d: ProductData)
    requires CreateCheck(d).Success?
    ensures var m := CreateCheck(d).value.sizeQuantities.value;
      forall k :: k in m ==> m[k].Some? && m[k].value >= 0
  {
  }

  /** Normalising twice is normalising once. */
  lemma NormalizedIdempotent(m: Option<SizeMap>)
    ensures Normalized(Some(Normalized(m))) == Normalized(m)
  {
  }

  /** Re-running the create check on a product that passed it changes nothing. */
  lemma {:induction false} CreateCheckIdempotent(d: ProductData)
    requires CreateCheck(d).Success?
    ensures CreateCheck(CreateCheck(d).value) == CreateCheck(d)
  {
    var e := CreateCheck(d).value;
    NormalizedIdempotent(d.sizeQuantities);
    assert SizeTotal(e) == SizeTotal(d);
  }

  /** Where the sizes' total fits in an `int`, the written check and the corrected one agree. */
  lemma CreateCheckAgrees(d: ProductData)
    requires SizeTotal(d) <= MAX
    ensures CreateCheckAsWritten(d) == CreateCheck(d)
  {
  }

  /** Sizes used by the overflow example: 2^31 - 1 units of S and of M, and 3 of L. */
  const OverflowSizes: SizeMap := map["S" := Some(MAX), "M" := Some(MAX), "L" := Some(3)]

  /**
   * As written, an order with no quantity and the sizes above is accepted with quantity 1,
   * although it breaks down into 4294967297 units.
   */
  lemma CreateCheckAsWrittenOverflow()
    ensures var d := Defaults.(quantity := None, sizeQuantities := Some(OverflowSizes));
      && SizeTotal(d) == 4294967297
      && CreateCheckAsWritten(d).Success?
      && CreateCheckAsWritten(d).value.quantity == Some(1)
  {
    var d := Defaults.(quantity := None, sizeQuantities := Some(OverflowSizes));
    OverflowSizesTotal();
    assert Wrap(4294967297) == 1;
  }

  lemma {:induction false} OverflowSizesTotal()
    ensures Sum(Counts(Normalized(Some(OverflowSizes)))) == 4294967297
  {
    assert Counts(Normalized(Some(OverflowSizes))) == map["S" := MAX, "M" := MAX, "L" := 3];
    OverflowCountsTotal();
  }

  lemma {:induction false} OverflowCountsTotal()
    ensures Sum(map["S" := MAX, "M" := MAX, "L" := 3]) == 4294967297
  {
    var c := map["S" := MAX, "M" := MAX, "L" := 3];
    SumRemove(c, "S");
    var c1 := c - {"S"};
    assert c1 == map["M" := MAX, "L" := 3];
    SumRemove(c1, "M");
    var c2 := c1 - {"M"};
    assert c2 == map["L" := 3];
    SumRemove(c2, "L");
    assert c2 - {"L"} == map[];
  }

  // ---------------------------------------------------------------------------------------
  // validateOnUpdate (@PreUpdate)

  /**
   * `validateOnUpdate`: succeeds exactly when `quantity > 0` and the made count (null read as
   * 0) lies in `[0, quantity]`, and then only defaults a null made count to 0.
   */
  function UpdateCheck(d: ProductData): (r: Result<ProductData>)
    ensures var made := MadeOrZero(d);
      && (r.Success? <==> d.quantity.Some? && d.quantity.value > 0 && 0 <= made <= d.quantity.value)
      && (r.Success? ==> r.value == d.(quantityMade := Some(made)))
      && (d.quantity.None? || d.quantity.value <= 0 ==> r == Failure(QuantityNotSet))
      && (d.quantity.Some? && d.quantity.value > 0 && !(0 <= made <= d.quantity.value) ==> r == Failure(MadeOutOfRange))
  {
    if d.quantity.None? || d.quantity.value <= 0 then Failure(QuantityNotSet)
    else MadeChecked(d)
  }

  /** A product that passed the create check also passes the update check, unchanged. */
  lemma CreateThenUpdateCheck(d: ProductData)
    requires CreateCheck(d).Success?
    ensures UpdateCheck(CreateCheck(d).value) == CreateCheck(d)
  {
  }

  // ---------------------------------------------------------------------------------------
  // addMade

  /**
   * `addMade(delta)`: a zero delta changes nothing, even without a quantity. Otherwise it fails,
   * changing nothing, when `quantity` is null or the new count `made + delta` (Java `int`
   * addition, null made read as 0) falls outside `[0, quantity]`; on success the made count is
   * the new count, `missing` is what remains, and `samTotal` is re-derived when `sam` is set.
   */
  function WithMade(d: ProductData, delta: Int32, samRound: SamRounding): (r: Result<ProductData>)
    ensures delta == 0 ==> r == Success(d)
    ensures delta != 0 && d.quantity.None? ==> r == Failure(ProgressWithoutQuantity)
    ensures delta != 0 && d.quantity.Some? ==>
      var made := Add(MadeOrZero(d), delta);
      var q := d.quantity.value;
      && (made < 0 ==> r == Failure(MadeNegative))
      && (0 <= made && q < made ==> r == Failure(MadeExceedsQuantity))
      && (0 <= made <= q ==>
            && r.Success?
            && r.value.quantityMade == Some(made)
            && r.value.missing == Some(q - made)
            && r.value.samTotal == (if d.sam.Some? then Some(samRound(d.sam.value, q - made)) else d.samTotal)
            && r.value == d.(quantityMade := r.value.quantityMade, missing := r.value.missing,
                             samTotal := r.value.samTotal))
  {
    if delta == 0 then Success(d)
    else if d.quantity.None? then Failure(ProgressWithoutQuantity)
    else
      var base := MadeOrZero(d);
      var made := Add(base, delta);
      var q := d.quantity.value;
      if made < 0 then Failure(MadeNegative)
      else if made > q then Failure(MadeExceedsQuantity)
      else
        var missing := Remaining(q, made);
        var withMissing := d.(quantityMade := Some(made), missing := Some(missing));
        Success(if withMissing.sam.Some? then withMissing.(samTotal := Some(samRound(withMissing.sam.value, missing)))
                else withMissing)
  }

  /**
   * From a non-negative made count nothing wraps around: a successful `addMade(delta)` leaves
   * exactly `made + delta` made, within `[0, quantity]`, and `missing == quantity - made`.
   */
  lemma {:induction false} WithMadeExact(d: ProductData, delta: Int32, samRound: SamRounding)
    requires d.quantityMade.Some? && d.quantityMade.value >= 0
    requires WithMade(d, delta, samRound).Success?
    ensures var e := WithMade(d, delta, samRound).value;
      && e.quantityMade == Some(d.quantityMade.value + delta)
      && (delta != 0 ==> 0 <= d.quantityMade.value + delta <= d.quantity.value
                          && e.missing == Some(d.quantity.value - (d.quantityMade.value + delta)))
  {
  }

  // ---------------------------------------------------------------------------------------
  // The entity object

  /** A product entity whose fields the checks and `addMade` update in place. */
  class Product {
    var id: Option<int>
    var price: Option<Decimal>
    var quantity: Option<Int32>
    var assignedDate: Option<Date>
    var plantEntryDate: Option<Date>
    var reference: Option<string>
    var brand: Option<string>
    var op: Option<string>
    var campaign: Option<string>
    var productType: Option<string>
    var description: Option<string>
    var sizeQuantities: Option<SizeMap>
    var moduleId: Option<int>
    var status: Option<ProductionStatus>
    var stoppageReason: Option<StoppageReasons.StoppageReason>
    var quantityMade: Option<Int32>
    var actualDeliveryDate: Option<string>
    var missing: Option<Int32>
    var sam: Option<Sam>
    var samTotal: Option<Int32>

    /** The current values of all columns. */
    function Snapshot(): ProductData
      reads this
    {
      ProductData(
        id, price, quantity, assignedDate, plantEntryDate, reference, brand, op, campaign, productType, description, sizeQuantities, moduleId, status, stoppageReason, quantityMade, actualDeliveryDate, missing, sam, samTotal)
    }

    /** `new Product()`: the field initialisers. */
    constructor ()
      ensures Snapshot() == Defaults
    {
      id, price, quantity, assignedDate, plantEntryDate := Defaults.id, Defaults.price, Defaults.quantity, Defaults.assignedDate, Defaults.plantEntryDate;
      reference, brand, op, campaign, productType := Defaults.reference, Defaults.brand, Defaults.op, Defaults.campaign, Defaults.productType;
      description, sizeQuantities, moduleId, status, stoppageReason := Defaults.description, Defaults.sizeQuantities, Defaults.moduleId, Defaults.status, Defaults.stoppageReason;
      quantityMade, actualDeliveryDate, missing, sam, samTotal := Defaults.quantityMade, Defaults.actualDeliveryDate, Defaults.missing, Defaults.sam, Defaults.samTotal;
    }

    /** An entity holding the given column values (a row read from the store, or a request body). */
    constructor Load(d: ProductData)
      ensures Snapshot() == d
    {
      id, price, quantity, assignedDate, plantEntryDate := d.id, d.price, d.quantity, d.assignedDate, d.plantEntryDate;
      reference, brand, op, campaign, productType := d.reference, d.brand, d.op, d.campaign, d.productType;
      description, sizeQuantities, moduleId, status, stoppageReason := d.description, d.sizeQuantities, d.moduleId, d.status, d.stoppageReason;
      quantityMade, actualDeliveryDate, missing, sam, samTotal := d.quantityMade, d.actualDeliveryDate, d.missing, d.sam, d.samTotal;
    }

    // `if (patch.getX() != null) existing.setX(patch.getX())`, one column at a time.

    method PatchPrice(v: Option<Decimal>)
      modifies this
      ensures Snapshot() == old(Snapshot()).(price := if v.Some? then v else old(price))
    {
      if v.Some? {
        price := v;
      }
    }

    method PatchQuantity(v: Option<Int32>)
      modifies this
      ensures Snapshot() == old(Snapshot()).(quantity := if v.Some? then v else old(quantity))
    {
      if v.Some? {
        quantity := v;
      }
    }

    method PatchAssignedDate(v: Option<Date>)
      modifies this
      ensures Snapshot() == old(Snapshot()).(assignedDate := if v.Some? then v else old(assignedDate))
    {
      if v.Some? {
        assignedDate := v;
      }
    }

    method PatchPlantEntryDate(v: Option<Date>)
      modifies this
      ensures Snapshot() == old(Snapshot()).(plantEntryDate := if v.Some? then v else old(plantEntryDate))
    {
      if v.Some? {
        plantEntryDate := v;
      }
    }

    method PatchReference(v: Option<string>)
      modifies this
      ensures Snapshot() == old(Snapshot()).(reference := if v.Some? then v else old(reference))
    {
      if v.Some? {
        reference := v;
      }
    }

    method PatchBrand(v: Option<string>)
      modifies this
      ensures Snapshot() == old(Snapshot()).(brand := if v.Some? then v else old(brand))
    {
      if v.Some? {
        brand := v;
      }
    }

    method PatchCampaign(v: Option<string>)
      modifies this
      ensures Snapshot() == old(Snapshot()).(campaign := if v.Some? then v else old(campaign))
    {
      if v.Some? {
        campaign := v;
      }
    }

    method PatchProductType(v: Option<string>)
      modifies this
      ensures Snapshot() == old(Snapshot()).(productType := if v.Some? then v else old(productType))
    {
      if v.Some? {
        productType := v;
      }
    }

    method PatchDescription(v: Option<string>)
      modifies this
      ensures Snapshot() == old(Snapshot()).(description := if v.Some? then v else old(description))
    {
      if v.Some? {
        description := v;
      }
    }

    method PatchSizeQuantities(v: Option<SizeMap>)
      modifies this
      ensures Snapshot() == old(Snapshot()).(sizeQuantities := if v.Some? then v else old(sizeQuantities))
    {
      if v.Some? {
        sizeQuantities := v;
      }
    }

    method PatchSam(v: Option<Sam>)
      modifies this
      ensures Snapshot() == old(Snapshot()).(sam := if v.Some? then v else old(sam))
    {
      if v.Some? {
        sam := v;
      }
    }

    method PatchStatus(v: Option<ProductionStatus>)
      modifies this
      ensures Snapshot() == old(Snapshot()).(status := if v.Some? then v else old(status))
    {
      if v.Some? {
        status := v;
      }
    }

    method PatchStoppageReason(v: Option<StoppageReasons.StoppageReason>)
      modifies this
      ensures Snapshot() == old(Snapshot()).(stoppageReason := if v.Some? then v else old(stoppageReason))
    {
      if v.Some? {
        stoppageReason := v;
      }
    }

    method PatchModuleId(v: Option<int>)
      modifies this
      ensures Snapshot() == old(Snapshot()).(moduleId := if v.Some? then v else old(moduleId))
    {
      if v.Some? {
        moduleId := v;
      }
    }

    /**
     * `validateOnCreate`. The size map is normalised in place whatever the outcome; on success
     * the entity is what `CreateCheck` yields, on failure the error is the one it names and at
     * most the size map and the derived quantity have been written.
     */
    method ValidateOnCreate() returns (err: Option<Error>)
      modifies this
      ensures var e := CreateCheck(old(Snapshot()));
        && (err.None? <==> e.Success?)
        && (e.Success? ==> Snapshot() == e.value)
        && (e.Failure? ==> err == Some(e.error))
      ensures sizeQuantities == Some(Normalized(old(sizeQuantities)))
      ensures err.Some? ==> Snapshot() == old(Snapshot()).(sizeQuantities := sizeQuantities, quantity := quantity)
    {
      NormalizeSizes();
      var sum := SumOfSizes(sizeQuantities.value);
      if sum > MAX {
        return Some(SizeSumOverflow(sum));
      }
      err := ReconcileQuantity(sum);
    }

    /** `sizeQuantities.replaceAll(...)`, after replacing a null map by an empty one. */
    method NormalizeSizes()
      modifies this
      ensures Snapshot() == WithNormalizedSizes(old(Snapshot()))
    {
      var sizes: SizeMap := if sizeQuantities.None? then map[] else sizeQuantities.value;
      sizes := map k | k in sizes :: Some(Units(sizes[k]));
      sizeQuantities := Some(sizes);
    }

    /** The reconciliation and made-count steps of `validateOnCreate`, given the sizes' total. */
    method ReconcileQuantity(sum: Int32) returns (err: Option<Error>)
      modifies this
      ensures var e := Reconcile(old(Snapshot()), sum);
        && (e.Success? ==> err.None? && Snapshot() == e.value)
        && (e.Failure? ==> err == Some(e.error) && Snapshot() == old(Snapshot()).(quantity := quantity))
    {
      var hasSizes := sum > 0;
      if quantity.None? || quantity.value == 0 {
        if !hasSizes {
          return Some(QuantityOrSizesRequired);
        }
        quantity := Some(sum);
      } else {
        if !hasSizes {
          return Some(SizesRequiredWithQuantity);
        }
        if quantity.value != sum {
          return Some(SizeSumMismatch(sum, quantity.value));
        }
      }
      if quantityMade.None? {
        quantityMade := Some(0);
      }
      if quantityMade.value < 0 || quantityMade.value > quantity.value {
        return Some(MadeOutOfRange);
      }
      return None;
    }

    /** `validateOnUpdate`: on success the entity is what `UpdateCheck` yields, on failure it is unchanged. */
    method ValidateOnUpdate() returns (err: Option<Error>)
      modifies this
      ensures var e := UpdateCheck(old(Snapshot()));
        && (e.Success? ==> err.None? && Snapshot() == e.value)
        && (e.Failure? ==> err == Some(e.error) && Snapshot() == old(Snapshot()))
    {
      if quantity.None? || quantity.value <= 0 {
        return Some(QuantityNotSet);
      }
      if quantityMade.None? {
        quantityMade := Some(0);
      }
      if quantityMade.value < 0 || quantityMade.value > quantity.value {
        return Some(MadeOutOfRange);
      }
      return None;
    }

    /** `addMade(delta)`: on success the entity is what `WithMade` yields, on failure it is unchanged. */
    method AddMade(delta: Int32, samRound: SamRounding) returns (err: Option<Error>)
      modifies this
      ensures var e := WithMade(old(Snapshot()), delta, samRound);
        && (e.Success? ==> err.None? && Snapshot() == e.value)
        && (e.Failure? ==> err == Some(e.error) && Snapshot() == old(Snapshot()))
    {
      if delta == 0 {
        return None;
      }
      var base := if quantityMade.None? then 0 else quantityMade.value;
      if quantity.None? {
        return Some(ProgressWithoutQuantity);
      }
      var newMade := Add(base, delta);
      if newMade < 0 {
        return Some(MadeNegative);
      }
      if newMade > quantity.value {
        return Some(MadeExceedsQuantity);
      }
      ghost var d := Snapshot();
      quantityMade := Some(newMade);
      missing := Some(Remaining(quantity.value, newMade));
      assert Snapshot() == d.(quantityMade := Some(newMade), missing := missing);
      if sam.Some? {
        samTotal := Some(samRound(sam.value, missing.value));
      }
      return None;
    }
  }

  // ---------------------------------------------------------------------------------------
  // Derived values

  /** `getQuantityPending`: null if either input is null, else what remains, never negative. */
  function QuantityPending(quantity: Option<Int32>, made: Option<Int32>): (r: Option<Int32>)
    ensures r.None? <==> quantity.None? || made.None?
    ensures r.Some? ==> r.value >= 0
    ensures r.Some? && quantity.value >= 0 && made.value >= 0 ==>
      r.value == if quantity.value >= made.value then quantity.value - made.value else 0
  {
    if quantity.None? || made.None? then None else Some(Remaining(quantity.value, made.value))
  }

  /** `getTotalPrice`: price times quantity, exactly, at the price's scale; zero if either is null. */
  function TotalPrice(price: Option<Decimal>, quantity: Option<Int32>): (r: Decimal)
    ensures price.None? || quantity.None? ==> r == Zero
    ensures price.Some? && quantity.Some? ==>
      r.scale == price.value.scale && Value(r) == Value(price.value) * quantity.value as real
  {
    if price.None? || quantity.None? then Zero
    else Multiply(price.value, FromInt(quantity.value))
  }

  /** `BigDecimal.valueOf(1.35)`: `Double.toString` gives "1.35", so unscaled 135 at scale 2. */
  const Contingency: Decimal := Decimal(135, 2)

  /** The load formula for positive minutes and head count: three HALF_UP divisions at scale 6, times 1.35, to scale 2. */
  function LoadFormula(minutes: int, people: int): (r: Decimal)
    requires minutes > 0 && people > 0
    ensures r.scale == 2 && r.unscaled >= 0
  {
    var hours := Divide(FromInt(minutes), 60, 6);
    var days := Divide(hours, 9, 6);
    var perPerson := Divide(days, people, 6);
    SetScale(Multiply(perPerson, Contingency), 2)
  }

  /**
   * `getLoadDays` with the head count passed in: `BigDecimal.ZERO` (scale 0) exactly when
   * the standard minutes or the head count are null or not positive; otherwise a
   * non-negative amount of person-days at scale 2.
   */
  function LoadDays(samTotal: Option<Int32>, people: Option<Int32>): (r: Decimal)
    ensures r == Zero <==> samTotal.None? || samTotal.value <= 0 || people.None? || people.value <= 0
    ensures r != Zero ==> r.scale == 2 && r.unscaled >= 0
  {
    if samTotal.None? || samTotal.value <= 0 then Zero
    else if people.None? || people.value <= 0 then Zero
    else LoadFormula(samTotal.value, people.value)
  }

  lemma Pow10Six()
    ensures Pow10(6) == 1000000 && Pow10(8) == 100000000
  {
  }

  /** 600 standard minutes shared by 2 people: 600/60/9/2 = 0.555556, times 1.35 is 0.75 person-days. */
  lemma LoadDaysExample()
    ensures LoadDays(Some(600), Some(2)) == Decimal(75, 2)
  {
    Pow10Six();
    var hours := Divide(FromInt(600), 60, 6);
    assert hours == Decimal(10000000, 6);
    var days := Divide(hours, 9, 6);
    assert days == Decimal(1111111, 6);
    var perPerson := Divide(days, 2, 6);
    assert perPerson == Decimal(555556, 6);
    assert Multiply(perPerson, Contingency) == Decimal(75000060, 8);
    assert SetScale(Decimal(75000060, 8), 2) == Decimal(75, 2);
  }

  /** More standard minutes never give fewer load days. */
  lemma {:induction false} LoadDaysMonotone(minutes: int, minutes': int, people: int)
    requires 0 < minutes <= minutes' && people > 0
    ensures LoadFormula(minutes, people).unscaled <= LoadFormula(minutes', people).unscaled
  {
    Pow10Six();
    var h, h' := Divide(FromInt(minutes), 60, 6), Divide(FromInt(minutes'), 60, 6);
    DivHalfUpMonotone(minutes * 1000000, minutes' * 1000000, 60);
    var d, d' := Divide(h, 9, 6), Divide(h', 9, 6);
    DivHalfUpMonotone(h.unscaled * 1000000, h'.unscaled * 1000000, 9000000);
    var p, p' := Divide(d, people, 6), Divide(d', people, 6);
    DivHalfUpMonotone(d.unscaled * 1000000, d'.unscaled * 1000000, people * 1000000);
    var m, m' := Multiply(p, Contingency), Multiply(p', Contingency);
    assert m.unscaled <= m'.unscaled;
    DivHalfUpMonotone(m.unscaled, m'.unscaled, 1000000);
  }

  /** More people on the line never give more load days. */
  lemma {:induction false} LoadDaysAntitone(minutes: int, people: int, people': int)
    requires minutes > 0 && 0 < people <= people'
    ensures LoadFormula(minutes, people').unscaled <= LoadFormula(minutes, people).unscaled
  {
    Pow10Six();
    var d := Divide(Divide(FromInt(minutes), 60, 6), 9, 6);
    var p, p' := Divide(d, people, 6), Divide(d, people', 6);
    DivHalfUpAntitone(d.unscaled * 1000000, people * 1000000, people' * 1000000);
    var m, m' := Multiply(p, Contingency), Multiply(p', Contingency);
    assert m'.unscaled <= m.unscaled;
    DivHalfUpMonotone(m'.unscaled, m.unscaled, 1000000);
  }

  lemma MulLe(p: int, a: int, b: int)
    requires p > 0 && a <= b
    ensures p * a <= p * b
  {
  }

  lemma Distribute(p: int, r: int, x: int)
    ensures p * (1000000 * r - 135 * x) == 1000000 * (p * r) - 135 * (p * x)
  {
  }

  lemma ScaledBound(people: int, r: int, x: int)
    requires people > 0 && -500000 <= 1000000 * r - 135 * x <= 500000
    ensures -500000 * people <= 1000000 * (people * r) - 135 * (people * x) <= 500000 * people
  {
    var y := 1000000 * r - 135 * x;
    MulLe(people, y, 500000);
    MulLe(people, -500000, y);
    Distribute(people, r, x);
  }

  /** The linear core of the accuracy bound, with `a == people * x3` and `b == people * R`. */
  lemma AccuracyChain(minutes: int, people: int, x1: int, x2: int, a: int, b: int)
    requires people > 0
    requires -30 <= 60 * x1 - 1000000 * minutes <= 30
    requires -9 <= 18 * x2 - 2 * x1 <= 9
    requires -people <= 2 * a - 2 * x2 <= people
    requires -500000 * people <= 1000000 * b - 135 * a <= 500000 * people
    ensures -271 * people <= 540 * b - 135 * minutes <= 271 * people
  {
  }

  lemma HoursStep(minutes: int)
    requires minutes > 0
    ensures var h := Divide(FromInt(minutes), 60, 6);
      h.scale == 6 && h.unscaled >= 0 && -30 <= 60 * h.unscaled - 1000000 * minutes <= 30
  {
    Pow10Six();
  }

  lemma DaysStep(h: Decimal)
    requires h.scale == 6 && h.unscaled >= 0
    ensures var d := Divide(h, 9, 6);
      d.scale == 6 && d.unscaled >= 0 && -9 <= 18 * d.unscaled - 2 * h.unscaled <= 9
  {
    Pow10Six();
  }

  lemma PerPersonStep(d: Decimal, people: int)
    requires d.scale == 6 && d.unscaled >= 0 && people > 0
    ensures var p := Divide(d, people, 6);
      p.scale == 6 && p.unscaled >= 0 && -people <= 2 * (people * p.unscaled) - 2 * d.unscaled <= people
  {
    Pow10Six();
    var x2, x3 := d.unscaled, Divide(d, people, 6).unscaled;
    var a := people * x3;
    assert x3 * (people * 1000000) == a * 1000000;
    assert 1000000 * (2 * a) <= 1000000 * (2 * x2 + people) < 1000000 * (2 * a + 2 * people);
  }

  lemma FinalStep(p: Decimal)
    requires p.scale == 6 && p.unscaled >= 0
    ensures var r := SetScale(Multiply(p, Contingency), 2);
      -500000 <= 1000000 * r.unscaled - 135 * p.unscaled <= 500000
  {
    Pow10Six();
    assert Multiply(p, Contingency) == Decimal(p.unscaled * 135, 8);
  }

  /**
   * The four roundings stay close to the exact load `minutes / 60 / 9 / people * 1.35`: the
   * result in hundredths, R, satisfies `|540 * people * R - 135 * minutes| <= 271 * people`,
   * that is, it is within 0.00502 person-days of the exact value.
   */
  lemma {:induction false} LoadFormulaAccuracy(minutes: int, people: int)
    requires minutes > 0 && people > 0
    ensures var r := LoadFormula(minutes, people).unscaled;
      -271 * people <= 540 * (people * r) - 135 * minutes <= 271 * people
  {
    var h := Divide(FromInt(minutes), 60, 6);
    HoursStep(minutes);
    var d := Divide(h, 9, 6);
    DaysStep(h);
    var p := Divide(d, people, 6);
    PerPersonStep(d, people);
    var R := SetScale(Multiply(p, Contingency), 2).unscaled;
    FinalStep(p);
    ScaledBound(people, R, p.unscaled);
    AccuracyChain(minutes, people, h.unscaled, d.unscaled, people * p.unscaled, people * R);
  }
}
