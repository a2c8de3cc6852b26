# carsil production-order engine, modelled in Dafny

This project models the production-order core of the carsil back end. A *product* is a
manufacturing production order (OP) with a total quantity broken down by size, a count of
units made, the units still missing, and standard minutes (SAM). A *module* is a production
line with a head count. The model covers:

- the `Product` entity's JPA listeners:
  - `validateOnCreate` (`@PrePersist`) normalises the size map and reconciles `quantity` with its total;
  - `validateOnUpdate` (`@PreUpdate`) checks the range of `quantity` and `quantityMade`;
- the progress step `addMade`;
- the derived values `getQuantityPending`, `getTotalPrice` and the `BigDecimal` workload formula `getLoadDays`;
- `ProductService`: `create`, `update` (merge by presence), `delete`, `setMade`, `incrementMade` and `recalcDerived`, over a product table;
- `ModuleService`: `findById`, `create`, `updatePeople`, `update` and `assignProduct`, over the module and product tables;
- the `StoppageReason` label table and its JSON parser `fromJson` / `fromLabel`.

Modules:

- `Errors`: nullable values (`Option`), outcomes (`Result`), and one `Error` constructor per exception the core throws.
- `JavaInt`: Java's 32-bit `int` and its wrap-around `+` and `-`.
- `Decimals`: `java.math.BigDecimal` as an unscaled integer and a scale.
  - `divide` and `setScale` use `RoundingMode.HALF_UP`.
  - `multiply` is exact.
  - `Value` gives the real number a decimal stands for.
- `StoppageReasons`: the enum, `String.trim` and `equalsIgnoreCase` on the label characters, and `fromJson`.
- `Products`:
  - the value `ProductData` holds every column, `None` standing for null;
  - the class `Product` is the entity whose fields the listeners and `addMade` update in place;
  - specification functions for each check: `CreateCheck`, `UpdateCheck`, `WithMade`;
  - the derived values.
- `Repositories`: the module row and entity, and the class `Store`.
  - `Store` holds both tables as maps plus the identity counters.
  - Its invariant `Valid` says every stored product has a positive quantity, a status and `0 <= quantityMade <= quantity`.
  - Saving a product runs the entity's listener. A listener failure aborts the transaction, so the tables stay unchanged.
- `ProductServices`: value-level results of each operation (`CreateResult`, `UpdateResult`, …), lemmas about them, and the class `ProductService`, whose methods are proved equal to those results.
- `ModuleServices`: the corresponding functions, lemmas and class `ModuleService`.

Each service method runs as one transaction. It loads an entity from its row, changes it
field by field as the Java code does, and saves it.

Where the specification and the code disagree, the model follows the code (the one
deliberate exception is the corrected size total of the create check, see "## Left out" and
"## Findings"):

- `create` does not reject an `op` that is already taken (the only `op` check is in `update`).
- `samTotal` is recomputed whenever `sam` is non-null, not only when it is positive.
- The update check does not require the size breakdown to match `quantity`.
- There is no per-module load aggregate: `Module.getTotaLoadDays` is truncated in the source and never computed.

## Model

| member | source | states |
|---|---|---|
| JavaInt.Wrap | src/main/java/com/carsil/userapi/model/Product.java:181 | the 32-bit result is the input itself when that is in range, and is always congruent to it modulo 2^32 |
| JavaInt.WrapShift | src/main/java/com/carsil/userapi/model/Product.java:181 | numbers that differ by a multiple of 2^32 give the same Java `int` |
| JavaInt.AddSubCancel | src/main/java/com/carsil/userapi/service/ProductService.java:75-76 | `base + (v - base)` in `int` arithmetic is `v`, whatever wrapped in between: routing a target count through a delta recovers the target |
| JavaInt.Add | src/main/java/com/carsil/userapi/model/Product.java:181 | Java's `int` addition: the exact sum when in range, always congruent to it modulo 2^32 |
| JavaInt.Sub | src/main/java/com/carsil/userapi/service/ProductService.java:75 | Java's `int` subtraction: the exact difference when in range, always congruent to it modulo 2^32 |
| JavaInt.AddCarry | src/main/java/com/carsil/userapi/model/Product.java:97 | an `int` addition is the exact sum less a whole number of 2^32 carries |
| JavaInt.WrapCarries | src/main/java/com/carsil/userapi/model/Product.java:97 | an `int` that differs from a number by whole carries of 2^32 is that number wrapped |
| Decimals.FromInt | src/main/java/com/carsil/userapi/model/Product.java:156 | `BigDecimal.valueOf(n)` stands for exactly `n` |
| Decimals.DivHalfUp | src/main/java/com/carsil/userapi/model/Product.java:211-213 | the quotient is the nearest integer to `a / b`, a tie going away from zero, for either sign of `a`; non-negative for non-negative `a` |
| Decimals.DivHalfUpMonotone | src/main/java/com/carsil/userapi/model/Product.java:211-213 | for a non-negative dividend, HALF_UP rounding never decreases when the dividend grows |
| Decimals.DivHalfUpAntitone | src/main/java/com/carsil/userapi/model/Product.java:211-213 | for a non-negative dividend, HALF_UP rounding never increases when the divisor grows |
| Decimals.Divide | src/main/java/com/carsil/userapi/model/Product.java:211-213 | `divide(divisor, scale, HALF_UP)` has the requested scale and lies within half a unit of that scale of the exact quotient, a tie going away from zero, for either sign of the dividend; non-negative for a non-negative dividend |
| Decimals.Multiply | src/main/java/com/carsil/userapi/model/Product.java:156 | `multiply` is exact: the scales add and the value is the product of the values |
| Decimals.MultiplyValue | src/main/java/com/carsil/userapi/model/Product.java:214 | multiplying the unscaled values and adding the scales multiplies the represented reals |
| Decimals.ValueRescale | src/main/java/com/carsil/userapi/model/Product.java:215 | appending zero digits while raising the scale keeps the value |
| Decimals.SetScale | src/main/java/com/carsil/userapi/model/Product.java:215 | `setScale(scale, HALF_UP)` has the requested scale; it keeps the value when the scale grows and rounds half up within half a unit when it shrinks, a tie going away from zero, for either sign |
| StoppageReasons.Values | src/main/java/com/carsil/userapi/model/enums/StoppageReason.java:9-17 | `values()`: the nine reasons in declaration order |
| StoppageReasons.MatchesLabelChar | src/main/java/com/carsil/userapi/model/enums/StoppageReason.java:30 | `equalsIgnoreCase` on one character against a label character: equal, equal after `toUpperCase`, or equal after `toLowerCase` of those |
| StoppageReasons.LabelMatches | src/main/java/com/carsil/userapi/model/enums/StoppageReason.java:30 | `label.equalsIgnoreCase(s)`: same length and every character matches |
| StoppageReasons.Ordinal | src/main/java/com/carsil/userapi/model/enums/StoppageReason.java:9-17 | every reason is in `values()` at its ordinal |
| StoppageReasons.Label | src/main/java/com/carsil/userapi/model/enums/StoppageReason.java:9-17 | every label is non-empty, made of upper-case letters and spaces, without surrounding spaces |
| StoppageReasons.TrimStart | src/main/java/com/carsil/userapi/model/enums/StoppageReason.java:28 | the result is a suffix of the input, everything dropped is at most U+0020, and it starts above U+0020 |
| StoppageReasons.TrimEnd | src/main/java/com/carsil/userapi/model/enums/StoppageReason.java:28 | the result is a prefix of the input, everything dropped is at most U+0020, and it ends above U+0020 |
| StoppageReasons.Trim | src/main/java/com/carsil/userapi/model/enums/StoppageReason.java:28 | `trim()` leaves no character up to U+0020 at either end |
| StoppageReasons.FirstMatch | src/main/java/com/carsil/userapi/model/enums/StoppageReason.java:29-31 | `filter(...).findFirst()`: the index found matches and no earlier one does; an empty answer means nothing matches |
| StoppageReasons.FromJson | src/main/java/com/carsil/userapi/model/enums/StoppageReason.java:26-33 | null gives null; it fails, naming the raw input, exactly when the trimmed input matches no label ignoring case; a reason returned matches the trimmed input |
| StoppageReasons.FromLabel | src/main/java/com/carsil/userapi/model/enums/StoppageReason.java:35 | `fromLabel` returns what `fromJson` returns |
| StoppageReasons.LabelMatchesOnlyItself | src/main/java/com/carsil/userapi/model/enums/StoppageReason.java:9-17 | one label matches another ignoring case exactly when they are the same reason, so the labels are distinct |
| StoppageReasons.TrimLabel | src/main/java/com/carsil/userapi/model/enums/StoppageReason.java:28 | trimming a label leaves it as it is |
| StoppageReasons.FromJsonLabel | src/main/java/com/carsil/userapi/model/enums/StoppageReason.java:22-31 | round trip: `fromJson(r.getLabel()) == r` for every reason |
| StoppageReasons.MatchesLabelCharUnique | src/main/java/com/carsil/userapi/model/enums/StoppageReason.java:30 | no input character equals two different label characters ignoring case |
| StoppageReasons.LabelMatchesUnique | src/main/java/com/carsil/userapi/model/enums/StoppageReason.java:29-31 | an input matches at most one label, so the search order of `values()` does not change the answer |
| StoppageReasons.TrimStartBlank | src/main/java/com/carsil/userapi/model/enums/StoppageReason.java:28 | leading blanks are removed, and the text after them is kept |
| StoppageReasons.TrimEndBlank | src/main/java/com/carsil/userapi/model/enums/StoppageReason.java:28 | trailing blanks are removed, and the text before them is kept |
| StoppageReasons.TrimPadded | src/main/java/com/carsil/userapi/model/enums/StoppageReason.java:28 | `trim()` of blank padding around a non-blank text gives that text |
| StoppageReasons.FromJsonPadded | src/main/java/com/carsil/userapi/model/enums/StoppageReason.java:28-31 | any spelling that matches a label ignoring case, padded with blanks, parses to that reason |
| StoppageReasons.FromJsonExampleOk | src/main/java/com/carsil/userapi/model/enums/StoppageReason.java:28-31 | `" ok "` parses to OK |
| StoppageReasons.FromJsonExampleCodigo | src/main/java/com/carsil/userapi/model/enums/StoppageReason.java:28-31 | `"Codigo"` parses to CODIGO |
| StoppageReasons.FromJsonRejects | src/main/java/com/carsil/userapi/model/enums/StoppageReason.java:32 | `"PARO"` is rejected with an invalid-reason error naming the input |
| Products.Units | src/main/java/com/carsil/userapi/model/Product.java:95 | a null or negative count becomes 0; a non-negative count is kept |
| Products.Normalized | src/main/java/com/carsil/userapi/model/Product.java:94-95 | a null map becomes empty; otherwise the sizes are kept and each count is normalised |
| Products.Counts | src/main/java/com/carsil/userapi/model/Product.java:97 | same sizes, each with its normalised unit count |
| Products.Sum | src/main/java/com/carsil/userapi/model/Product.java:97 | the total of non-negative counts is non-negative |
| Products.SumRemove | src/main/java/com/carsil/userapi/model/Product.java:97 | the total is one count plus the total of the others, whichever size is taken first, so the iteration order of the map does not matter |
| Products.SizeTotal | src/main/java/com/carsil/userapi/model/Product.java:94-97 | the exact total of the normalised breakdown is non-negative |
| Products.SumOfSizes | src/main/java/com/carsil/userapi/model/Product.java:97 | the loop over the sizes computes their exact total (the corrected sum) |
| Products.JavaSumOfSizes | src/main/java/com/carsil/userapi/model/Product.java:97 | the loop of `int` additions over the sizes, as Java's `sum()` runs it, yields the exact total wrapped to 32 bits |
| Products.MadeOrZero | src/main/java/com/carsil/userapi/model/Product.java:110 | the made count with null read as 0 |
| Products.Remaining | src/main/java/com/carsil/userapi/model/Product.java:171 | `Math.max(0, quantity - made)` is never negative, and is exactly what remains for non-negative inputs |
| Products.MadeChecked | src/main/java/com/carsil/userapi/model/Product.java:110-113 | a null made count becomes 0; the check passes, changing nothing else, exactly when the count lies in `[0, quantity]` |
| Products.Reconcile | src/main/java/com/carsil/userapi/model/Product.java:98-113 | a success needs a positive total, sets quantity to it (only when quantity was null, 0 or already equal), and defaults the made count, which lies in `[0, total]`; a total of 0 always fails |
| Products.CreateCheckAsWritten | src/main/java/com/carsil/userapi/model/Product.java:91-114 | `validateOnCreate` as written, reconciling against the wrapped sum: a success sets quantity to the size total wrapped to 32 bits |
| Products.CreateCheck | src/main/java/com/carsil/userapi/model/Product.java:91-114 | the corrected create check: a total beyond the `int` range fails with an overflow error, and a success sets quantity to the exact size total |
| Products.WithNormalizedSizes | src/main/java/com/carsil/userapi/model/Product.java:94-95 | only the size map changes, to its normalised form |
| Products.CreateCheckOutcome | src/main/java/com/carsil/userapi/model/Product.java:91-114 | each failure of the create check happens exactly in its case: overflow, no quantity and no sizes, a quantity but no sizes, a total that differs (naming both numbers), a made count out of range. It succeeds exactly otherwise. A success leaves quantity equal to the exact size total, the sizes normalised and the made count defaulted, and changes nothing else |
| Products.CreateCheckCountsNonNegative | src/main/java/com/carsil/userapi/model/Product.java:95 | after a successful create check every size count is present and non-negative |
| Products.NormalizedIdempotent | src/main/java/com/carsil/userapi/model/Product.java:95 | normalising twice equals normalising once |
| Products.CreateCheckIdempotent | src/main/java/com/carsil/userapi/model/Product.java:91-114 | re-running the create check on a product that passed it changes nothing |
| Products.CreateCheckAgrees | src/main/java/com/carsil/userapi/model/Product.java:97-108 | when the size total fits an `int`, the check as written and the corrected one agree |
| Products.CreateCheckAsWrittenOverflow | src/main/java/com/carsil/userapi/model/Product.java:97-108 | as written, sizes totalling 4294967297 units with no quantity are accepted with quantity 1 |
| Products.UpdateCheck | src/main/java/com/carsil/userapi/model/Product.java:116-126 | succeeds exactly when quantity is positive and the made count (null read as 0) lies in `[0, quantity]`. It then changes only that default. Otherwise it fails with the quantity error or the range error |
| Products.CreateThenUpdateCheck | src/main/java/com/carsil/userapi/model/Product.java:91-126 | a product that passed the create check passes the update check unchanged |
| Products.WithMade | src/main/java/com/carsil/userapi/model/Product.java:174-192 | a zero delta changes nothing, even without a quantity. Without a quantity it fails. A new count below 0 or above quantity fails with its own error. Otherwise only the made count, `missing = quantity - made` and (when SAM is set) `samTotal` change |
| Products.WithMadeExact | src/main/java/com/carsil/userapi/model/Product.java:181-188 | from a non-negative made count nothing wraps: a success leaves exactly `made + delta`, within `[0, quantity]`, with `missing` what remains |
| Products.Product.constructor | src/main/java/com/carsil/userapi/model/Product.java:35-150 | a new entity has the field initialisers: quantity 0, an empty size map, status PROCESO, made 0, everything else null |
| Products.Product.Load | src/main/java/com/carsil/userapi/model/Product.java:35-150 | the entity holds exactly the given column values |
| Products.Product.PatchPrice | src/main/java/com/carsil/userapi/service/ProductService.java:55 | a present price replaces the current one; nothing else changes |
| Products.Product.PatchQuantity | src/main/java/com/carsil/userapi/service/ProductService.java:56 | a present quantity replaces the current one; nothing else changes |
| Products.Product.PatchAssignedDate | src/main/java/com/carsil/userapi/service/ProductService.java:57 | a present assigned date replaces the current one; nothing else changes |
| Products.Product.PatchPlantEntryDate | src/main/java/com/carsil/userapi/service/ProductService.java:58 | a present plant-entry date replaces the current one; nothing else changes |
| Products.Product.PatchReference | src/main/java/com/carsil/userapi/service/ProductService.java:59 | a present reference replaces the current one; nothing else changes |
| Products.Product.PatchBrand | src/main/java/com/carsil/userapi/service/ProductService.java:60 | a present brand replaces the current one; nothing else changes |
| Products.Product.PatchCampaign | src/main/java/com/carsil/userapi/service/ProductService.java:61 | a present campaign replaces the current one; nothing else changes |
| Products.Product.PatchProductType | src/main/java/com/carsil/userapi/service/ProductService.java:62 | a present type replaces the current one; nothing else changes |
| Products.Product.PatchDescription | src/main/java/com/carsil/userapi/service/ProductService.java:63 | a present description replaces the current one; nothing else changes |
| Products.Product.PatchSizeQuantities | src/main/java/com/carsil/userapi/service/ProductService.java:64 | a present size map replaces the current one; nothing else changes |
| Products.Product.PatchSam | src/main/java/com/carsil/userapi/service/ProductService.java:65 | a present SAM replaces the current one; nothing else changes |
| Products.Product.PatchStatus | src/main/java/com/carsil/userapi/service/ProductService.java:66 | a present status replaces the current one; nothing else changes |
| Products.Product.PatchStoppageReason | src/main/java/com/carsil/userapi/service/ProductService.java:67 | a present stoppage reason replaces the current one; nothing else changes |
| Products.Product.PatchModuleId | src/main/java/com/carsil/userapi/service/ProductService.java:68 | a present module replaces the current one; nothing else changes |
| Products.Product.ValidateOnCreate | src/main/java/com/carsil/userapi/model/Product.java:91-114 | it reports an error exactly when `CreateCheck` fails, and that error. On success the entity is `CreateCheck`'s result. The size map is normalised in place in every case. On failure nothing changes except the size map and the derived quantity |
| Products.Product.NormalizeSizes | src/main/java/com/carsil/userapi/model/Product.java:94-95 | the entity becomes `WithNormalizedSizes` of what it was |
| Products.Product.ReconcileQuantity | src/main/java/com/carsil/userapi/model/Product.java:98-113 | the outcome and new state are those of the reconciliation against the given total; on failure at most `quantity` has changed |
| Products.Product.ValidateOnUpdate | src/main/java/com/carsil/userapi/model/Product.java:116-126 | on success the entity is `UpdateCheck`'s result; on failure it reports that error and is unchanged |
| Products.Product.AddMade | src/main/java/com/carsil/userapi/model/Product.java:174-192 | on success the entity is `WithMade`'s result; on failure it reports that error and is unchanged |
| Products.QuantityPending | src/main/java/com/carsil/userapi/model/Product.java:168-172 | null exactly when an input is null; otherwise never negative, and `max(0, quantity - made)` for non-negative inputs |
| Products.TotalPrice | src/main/java/com/carsil/userapi/model/Product.java:152-157 | zero when price or quantity is null; otherwise exactly price times quantity, at the price's scale |
| Products.LoadFormula | src/main/java/com/carsil/userapi/model/Product.java:210-215 | for positive minutes and head count the load is non-negative, at scale 2 |
| Products.LoadDays | src/main/java/com/carsil/userapi/model/Product.java:202-216 | `BigDecimal.ZERO` exactly when the minutes or the head count are null or not positive. Otherwise a non-negative value at scale 2 |
| Products.LoadDaysExample | src/main/java/com/carsil/userapi/model/Product.java:202-216 | 600 minutes with 2 people gives 0.75 |
| Products.LoadDaysMonotone | src/main/java/com/carsil/userapi/model/Product.java:210-215 | more minutes never give fewer load days |
| Products.LoadDaysAntitone | src/main/java/com/carsil/userapi/model/Product.java:210-215 | more people never give more load days |
| Products.HoursStep | src/main/java/com/carsil/userapi/model/Product.java:211 | minutes / 60 at scale 6 is within half a millionth of the exact hours |
| Products.DaysStep | src/main/java/com/carsil/userapi/model/Product.java:212 | hours / 9 at scale 6 is within half a millionth of the exact quotient |
| Products.PerPersonStep | src/main/java/com/carsil/userapi/model/Product.java:213 | days / people at scale 6 is within half a millionth of the exact quotient |
| Products.FinalStep | src/main/java/com/carsil/userapi/model/Product.java:214-215 | times 1.35 and rounded to scale 2, the result is within half a hundredth of the exact product |
| Products.LoadFormulaAccuracy | src/main/java/com/carsil/userapi/model/Product.java:210-215 | the rounded load R (in hundredths) satisfies `abs(540 * people * R - 135 * minutes) <= 271 * people`, so it is within 0.00502 person-days of the exact `minutes / 60 / 9 / people * 1.35` |
| Repositories.Module.Load | src/main/java/com/carsil/userapi/service/ModuleService.java:46 | the module entity holds exactly the row's values |
| Repositories.StoredProduct | src/main/java/com/carsil/userapi/model/Product.java:116-126 | what every saved row satisfies: its key as id, a positive quantity, `0 <= quantityMade <= quantity`, and a status |
| Repositories.Store.Valid | src/main/java/com/carsil/userapi/model/Product.java:91-126 | every product row is a stored product below the next identity; every module row carries its key below the next identity |
| Repositories.Store.ExistsByOpAndIdNot | src/main/java/com/carsil/userapi/repository/ProductRepository.java:26 | some product other than `id` has this `op` |
| Repositories.StoredPassesUpdateCheck | src/main/java/com/carsil/userapi/model/Product.java:116-126 | a stored row passes the update check unchanged |
| Repositories.Store.constructor | src/main/java/com/carsil/userapi/model/Product.java:33 | both tables start empty and valid, with identities from 1 |
| Repositories.Store.InsertProduct | src/main/java/com/carsil/userapi/service/ProductService.java:47 | the `@PrePersist` check runs; a failure writes nothing; a success stores the checked entity under the next identity, which then advances; the tables stay valid |
| Repositories.Store.SaveProduct | src/main/java/com/carsil/userapi/service/ProductService.java:81 | the `@PreUpdate` check runs; a failure writes nothing; a success replaces exactly that row with the checked entity; the tables stay valid |
| Repositories.Store.DeleteProduct | src/main/java/com/carsil/userapi/service/ProductService.java:35 | exactly that row is removed |
| Repositories.Store.InsertModule | src/main/java/com/carsil/userapi/service/ModuleService.java:41 | the module is stored under the next identity, which then advances |
| Repositories.Store.SaveModule | src/main/java/com/carsil/userapi/service/ModuleService.java:52 | exactly that module row is replaced |
| ProductServices.Recalculated | src/main/java/com/carsil/userapi/service/ProductService.java:123-135 | only `missing`, `samTotal` and `status` can change. With a quantity, `missing` is `max(0, quantity - made)`, null made read as 0; without one it stays. When `sam` and `missing` are both set, `samTotal` is `samRound(sam, missing)`; otherwise it stays. A null status becomes PROCESO and a present one is kept |
| ProductServices.Pick | src/main/java/com/carsil/userapi/service/ProductService.java:55-68 | the patch value when present, the current value otherwise |
| ProductServices.Merged | src/main/java/com/carsil/userapi/service/ProductService.java:55-68 | the copy never touches the identity, `op`, the made count, `missing`, `samTotal` or the delivery date |
| ProductServices.Prepared | src/main/java/com/carsil/userapi/service/ProductService.java:40-45 | the entity `create` saves has the given status or PROCESO, the given made count or 0, and the body's quantity and sizes |
| ProductServices.CreateResult | src/main/java/com/carsil/userapi/service/ProductService.java:38-48 | a null quantity fails before saving; a success carries the next identity |
| ProductServices.Finished | src/main/java/com/carsil/userapi/service/ProductService.java:79-81 | an earlier failure passes through; a saved row has a positive quantity, a made count in `[0, quantity]` and a status |
| ProductServices.UpdateResult | src/main/java/com/carsil/userapi/service/ProductService.java:50-85 | a changed `op` held by another product fails with a duplicate error; a success keeps the stored `op` and identity |
| ProductServices.SetMadeResult | src/main/java/com/carsil/userapi/service/ProductService.java:113-121 | a success leaves exactly the requested made count |
| ProductServices.IncrementMadeResult | src/main/java/com/carsil/userapi/service/ProductService.java:137-148 | a zero delta skips `addMade` and only recalculates and checks; a success leaves the stored count plus the delta in `int` arithmetic |
| ProductServices.RecalculatedIdempotent | src/main/java/com/carsil/userapi/service/ProductService.java:123-135 | running `recalcDerived` twice equals running it once |
| ProductServices.RecalculatedMissing | src/main/java/com/carsil/userapi/service/ProductService.java:125-128 | with a quantity set, `missing` becomes `max(0, quantity - made)` |
| ProductServices.CreateOutcome | src/main/java/com/carsil/userapi/service/ProductService.java:38-48 | a null quantity is rejected before saving. A created product has the next identity, the given status or PROCESO, and the given made count or 0. It satisfies the stored-row invariant |
| ProductServices.CreateZeroQuantityQuirk | src/main/java/com/carsil/userapi/service/ProductService.java:40-47 | a create with quantity 0, sizes present and a made count in range (the initialiser 0 included) is stored with quantity equal to the size total and that made count, but with `missing == 0`, because `recalcDerived` runs before the quantity is derived |
| ProductServices.CreateMissing | src/main/java/com/carsil/userapi/service/ProductService.java:45-47 | with a positive quantity given, a created product's `missing` is quantity minus made |
| ProductServices.UpdateCopiesPresentFields | src/main/java/com/carsil/userapi/service/ProductService.java:55-68 | a successful update keeps `op`, the identity and the delivery date. Every other copied column is the patch value if present and the stored value otherwise |
| ProductServices.UpdateDuplicateOp | src/main/java/com/carsil/userapi/service/ProductService.java:70-73 | a changed patch `op` that another product carries fails with a duplicate-key error |
| ProductServices.UpdateMadeRouted | src/main/java/com/carsil/userapi/service/ProductService.java:74-77 | a patch made count goes through `addMade` as a delta. A successful update leaves exactly that count within `[0, quantity]`, with `missing` what remains. A count outside that range fails |
| ProductServices.UpdateNonPositiveQuantityFails | src/main/java/com/carsil/userapi/service/ProductService.java:56 | a patch with quantity 0 or less always fails |
| ProductServices.SetMadeExact | src/main/java/com/carsil/userapi/service/ProductService.java:113-121 | `setMade(id, v)` succeeds exactly when `0 <= v <= quantity`, and then leaves exactly `v` made and `quantity - v` missing |
| ProductServices.IncrementMadeZero | src/main/java/com/carsil/userapi/service/ProductService.java:142-147 | `incrementMade(id, 0)` succeeds and leaves the made count as it was |
| ProductServices.IncrementMadeExact | src/main/java/com/carsil/userapi/service/ProductService.java:137-148 | `incrementMade(id, delta)` succeeds exactly when the stored count plus `delta` lies in `[0, quantity]`, and then leaves that sum |
| ProductServices.ProductService.constructor | src/main/java/com/carsil/userapi/service/ProductService.java:20-24 | the service works over the given store and SAM rounding |
| ProductServices.ProductService.Delete | src/main/java/com/carsil/userapi/service/ProductService.java:31-36 | an absent id fails and removes nothing; otherwise exactly that row is removed; the module table and both identity counters are untouched |
| ProductServices.ProductService.Create | src/main/java/com/carsil/userapi/service/ProductService.java:38-48 | the result is `CreateResult` for the next identity. A success stores it there and advances the product identity. A failure writes nothing and leaves the identity. The module table and its counter are untouched, and the tables stay valid |
| ProductServices.ProductService.Update | src/main/java/com/carsil/userapi/service/ProductService.java:50-85 | an absent id fails. Otherwise the result is `UpdateResult` of the stored row, given whether another product has the patch `op`. Only a success writes, replacing exactly that row |
| ProductServices.ProductService.SetMade | src/main/java/com/carsil/userapi/service/ProductService.java:113-121 | an absent id fails. Otherwise the result is `SetMadeResult` of the stored row. Only a success writes |
| ProductServices.ProductService.IncrementMade | src/main/java/com/carsil/userapi/service/ProductService.java:137-148 | an absent id fails. Otherwise the result is `IncrementMadeResult` of the stored row. Only a success writes |
| ProductServices.ProductService.CopyPresentFields | src/main/java/com/carsil/userapi/service/ProductService.java:55-68 | the entity becomes `Merged` of what it was and the patch |
| ProductServices.ProductService.RecalcDerived | src/main/java/com/carsil/userapi/service/ProductService.java:123-135 | the entity becomes `Recalculated` of what it was |
| ModuleServices.WithHeadCount | src/main/java/com/carsil/userapi/service/ModuleService.java:40 | a null head count becomes 0, a given module is kept as it is, and only the head count can change |
| ModuleServices.Overwritten | src/main/java/com/carsil/userapi/service/ModuleService.java:57-61 | the identity is kept and description, name and head count are the input's, nulls included |
| ModuleServices.UpdatePeopleResult | src/main/java/com/carsil/userapi/service/ModuleService.java:44-53 | an absent module fails; a success is that module with the given head count |
| ModuleServices.WithHeadCountDefault | src/main/java/com/carsil/userapi/service/ModuleService.java:39-41 | a created module always has a head count: a null one becomes 0, a given one is kept, and nothing else changes |
| ModuleServices.UpdatePeopleOutcome | src/main/java/com/carsil/userapi/service/ModuleService.java:44-53 | it fails exactly for an absent module, and for a null or negative count on a present one. A success sets just the given non-negative count |
| ModuleServices.OverwrittenIdempotent | src/main/java/com/carsil/userapi/service/ModuleService.java:57-61 | overwriting keeps the identity, and applying the same input twice equals applying it once |
| ModuleServices.AssignedStillStored | src/main/java/com/carsil/userapi/service/ModuleService.java:76-77 | a stored product linked to a module is still a valid row and passes the update check unchanged |
| ModuleServices.ModuleService.constructor | src/main/java/com/carsil/userapi/service/ModuleService.java:17-21 | the service works over the given store |
| ModuleServices.ModuleService.FindById | src/main/java/com/carsil/userapi/service/ModuleService.java:28-32 | returns the stored module, or fails (never an empty answer) when it is absent |
| ModuleServices.ModuleService.Create | src/main/java/com/carsil/userapi/service/ModuleService.java:38-42 | the module is stored under the next identity, which advances, with a null head count set to 0 and everything else as given; the product table and its counter are untouched |
| ModuleServices.ModuleService.UpdatePeople | src/main/java/com/carsil/userapi/service/ModuleService.java:44-53 | the result is `UpdatePeopleResult` of the module table; only a success writes, replacing that row |
| ModuleServices.ModuleService.Update | src/main/java/com/carsil/userapi/service/ModuleService.java:55-63 | an absent id gives empty and writes nothing. Otherwise description, name and head count are overwritten, nulls included |
| ModuleServices.ModuleService.AssignProduct | src/main/java/com/carsil/userapi/service/ModuleService.java:70-79 | fails, writing nothing, if the module or the product is absent. Otherwise only that product's module reference changes, and the module is returned |

## Left out

- HTTP layer: the controllers, exception handlers and `ApiError`s are not modelled. They only route requests and format messages. Each exception is one `Error` constructor.
- Spring Data repositories are modelled as the two maps of `Store`. The JPQL `LIKE` search, the readers built on it (`getAll`, `getById`, `search`, `getProductsByModule`, `getProductsByOp`, `getProductsByDateRange`, `findByName`, `getProducts`) and the SQL schema are not modelled.
- `existsByOpAndIdNot` is modelled as a query over the product table. Hibernate's auto-flush before that query (which could run `@PreUpdate` first) is not modelled.
- Database constraints are not modelled: the unique `op`, the NOT NULL columns and the bean-validation patterns. They belong to the schema and the validator, not to this code.
- The `id` in a create payload is ignored by both `ProductService.create` and `ModuleService.create`: the product or module is always inserted under the next identity. JPA `merge` of a detached entity is not modelled.
- The `Double` arithmetic is not interpreted:
  - `sam` is kept as its bit pattern;
  - `(int) Math.round(sam * missing)` is the function parameter `samRound`;
  - `getDeliveryPercentage` is left out because it is floating point.
- `Decimal` has a `nat` scale, so a `BigDecimal` with a negative scale (a JSON price written `1E+3`) cannot be represented. The `price` column is declared with scale 4 (Product.java:38), so a price read back from the table has scale 4; prices are taken at a non-negative scale.
- `getCycleCalculated` is left out because it reads the clock (`LocalDate.now()`).
- The optimistic-lock translation in `update` is left out because it concerns concurrency.
- `Module.java`, with its merge-conflict markers and truncated `getTotaLoadDays`, is not part of this model. The services read and write `numPersons` as the column it stands for (ModuleService.java:40 and 60), and the model does the same. The placeholder `getNumPersons` that always returns 0 is not modelled. `LoadDays` takes the head count as a parameter. No per-module load aggregate is modelled.
- `UserService`, `AuditorAwareImpl` and the stale `com.example.userapi` package are not part of this model.
- The tests expect two checks the code does not perform, and the model follows the code: an `op`-uniqueness check on create, and a module-existence check on create and update.
- Integer widths:
  - `Long` identities are unbounded integers;
  - `Integer` columns are Java `int`s;
  - `base + delta`, `patch - existing` and `quantity - made` use explicit 32-bit wrap-around;
  - the size sum wraps in `JavaSumOfSizes` and `CreateCheckAsWritten`. The entity and the services use the exact sum, as the next line says.
- Products.Product.ValidateOnCreate, Repositories.Store.InsertProduct, ProductServices.CreateResult and ProductServices.ProductService.Create run the corrected create check `CreateCheck`. Sizes whose total exceeds 2^31 - 1 therefore fail with `SizeSumOverflow`. The code as written wraps the sum and may accept such an order with a wrapped quantity; `CreateCheckAsWritten` and `CreateCheckAsWrittenOverflow` model that behaviour (see "## Findings").
- Products.LoadFormula: its contract gives non-negativity and scale 2 rather than each rounding. `LoadFormulaAccuracy` and the step lemmas only bound the result: near a half-hundredth two results fit those bounds. Each rounding is fixed exactly by `Divide` and `SetScale` with their HALF_UP inequality, and `LoadFormula` is their composition.
- StoppageReasons.FromJson: its contract does not state the declaration order of the search. `LabelMatchesUnique` shows at most one label can match, so the order cannot change the answer.
- StoppageReasons.MatchesLabelChar: `equalsIgnoreCase` follows Java's `toUpperCase`/`toLowerCase` only for the characters labels consist of (A to Z and space). For those it accepts:
  - the letter itself and its lower-case form;
  - U+0131 and U+0130 for `I`, U+017F for `S`, and U+212A for `K`.
- ProductServices.UpdateResult: a patch made count with a null stored made count fails with `NullMade` (Java's unboxing `NullPointerException`). Stored rows never have a null made count, so this does not arise from the store.
- A JSON body that omits `quantity` deserialises to the initialiser 0, not null, and then fails the update check. The model takes patches as `ProductData` values and shows this case in `UpdateNonPositiveQuantityFails`.

## Findings

| source | as written | input that shows it | evidently intended | confidence | as-written member | corrected member |
|---|---|---|---|---|---|---|
| src/main/java/com/carsil/userapi/model/Product.java:97-108 | the size counts are summed with `IntStream.sum()`, which wraps around in 32-bit `int`, and the wrapped sum is reconciled against `quantity` | no quantity, sizes `{S: 2147483647, M: 2147483647, L: 3}`: the true total is 4294967297, the wrapped sum is 1, and the order is accepted with `quantity = 1` | the quantity equals the true number of units in the breakdown; a breakdown whose total does not fit an `int` is rejected | not executed | Products.CreateCheckAsWrittenOverflow | Products.CreateCheckOutcome |
