/**
 * The production line ("module") service: create with a defaulted head count, head-count
 * and full updates, lookup, and linking a product to a line.
 */
module ModuleServices {
  import opened Errors
  import opened JavaInt
  import opened Products
  import opened Repositories

  /** The module `create` saves: a null head count becomes 0, everything else as given. */
  function WithHeadCount(body: ModuleData): (r: ModuleData)
    ensures body.numPersons.None? ==> r.numPersons == Some(0)
    ensures body.numPersons.Some? ==> r == body
    ensures r == body.(numPersons := r.numPersons)
  {
    if body.numPersons.None? then body.(numPersons := Some(0)) else body
  }

  /** `update(id, input)` on the stored module: description, name and head count are all overwritten, nulls included. */
  function Overwritten(existing: ModuleData, input: ModuleData): (r: ModuleData)
    ensures r.id == existing.id
    ensures r.description == input.description && r.name == input.name && r.numPersons == input.numPersons
  {
    existing.(description := input.description, name := input.name, numPersons := input.numPersons)
  }

  /** `updatePeople(id, numPersons)` on the module table. */
  function UpdatePeopleResult(modules: map<int, ModuleData>, id: int, numPersons: Option<Int32>): (r: Result<ModuleData>)
    ensures id !in modules ==> r == Failure(ModuleNotFound(id))
    ensures r.Success? ==> id in modules && r.value.id == modules[id].id && r.value.numPersons == numPersons
  {
    if id !in modules then Failure(ModuleNotFound(id))
    else if numPersons.None? || numPersons.value < 0 then Failure(InvalidNumPersons)
    else Success(modules[id].(numPersons := numPersons))
  }

  /** A created module always has a head count, the given one when there was one. */
  lemma WithHeadCountDefault(body: ModuleData)
    ensures WithHeadCount(body).numPersons.Some?
    ensures body.numPersons.None? ==> WithHeadCount(body).numPersons == Some(0)
    ensures body.numPersons.Some? ==> WithHeadCount(body) == body
    ensures WithHeadCount(body) == body.(numPersons := WithHeadCount(body).numPersons)
  {
  }

  /**
   * `updatePeople` fails for an absent module and for a null or negative head count; a
   * success changes only the head count, to the given non-negative value.
   */
  lemma UpdatePeopleOutcome(modules: map<int, ModuleData>, id: int, numPersons: Option<Int32>)
    ensures var r := UpdatePeopleResult(modules, id, numPersons);
      && (r == Failure(ModuleNotFound(id)) <==> id !in modules)
      && (r == Failure(InvalidNumPersons) <==> id in modules && (numPersons.None? || numPersons.value < 0))
      && (r.Success? ==>
            && numPersons.Some? && numPersons.value >= 0
            && r.value.numPersons == numPersons
            && r.value == modules[id].(numPersons := r.value.numPersons))
  {
  }

  /** Overwriting keeps the identity and is idempotent: updating twice with the same input is updating once. */
  lemma OverwrittenIdempotent(existing: ModuleData, input: ModuleData)
    ensures Overwritten(existing, input).id == existing.id
    ensures Overwritten(Overwritten(existing, input), input) == Overwritten(existing, input)
  {
  }

  /** Linking a stored product to a module keeps it a valid row that passes the update check unchanged. */
  lemma AssignedStillStored(key: int, row: ProductData, moduleId: int)
    requires StoredProduct(key, row)
    ensures StoredProduct(key, row.(moduleId := Some(moduleId)))
    ensures UpdateCheck(row.(moduleId := Some(moduleId))) == Success(row.(moduleId := Some(moduleId)))
  {
  }

  class ModuleService {
    const store: Store

    constructor (store: Store)
      ensures this.store == store
    {
      this.store := store;
    }

    /** `findById(id)`: the stored module, or a failure (never an empty answer) when there is none. */
    method FindById(id: int) returns (r: Result<ModuleData>)
      ensures id in store.modules ==> r == Success(store.modules[id])
      ensures id !in store.modules ==> r == Failure(ModuleNotFound(id))
    {
      if id !in store.modules {
        return Failure(ModuleNotFound(id));
      }
      return Success(store.modules[id]);
    }

    /** `create(m)`: saved under the next identity with its head count defaulted. */
    method Create(body: ModuleData) returns (r: ModuleData)
      requires store.Valid()
      modifies store
      ensures store.Valid()
      ensures r == WithHeadCount(body).(id := Some(old(store.nextModuleId)))
      ensures store.modules == old(store.modules)[old(store.nextModuleId) := r]
      ensures store.nextModuleId == old(store.nextModuleId) + 1
      ensures store.products == old(store.products) && store.nextProductId == old(store.nextProductId)
    {
      var m := new Module.Load(body);
      if m.numPersons.None? {
        m.numPersons := Some(0);
      }
      r := store.InsertModule(m);
    }

    /** `updatePeople(id, numPersons)`: the result is `UpdatePeopleResult`, and only a success writes. */
    method UpdatePeople(id: int, numPersons: Option<Int32>) returns (r: Result<ModuleData>)
      requires store.Valid()
      modifies store
      ensures store.Valid()
      ensures r == UpdatePeopleResult(old(store.modules), id, numPersons)
      ensures r.Success? ==> store.modules == old(store.modules)[id := r.value]
      ensures r.Failure? ==> store.modules == old(store.modules)
      ensures store.products == old(store.products)
      ensures store.nextProductId == old(store.nextProductId) && store.nextModuleId == old(store.nextModuleId)
    {
      if id !in store.modules {
        return Failure(ModuleNotFound(id));
      }
      var m := new Module.Load(store.modules[id]);
      if numPersons.None? || numPersons.value < 0 {
        return Failure(InvalidNumPersons);
      }
      m.numPersons := numPersons;
      var saved := store.SaveModule(m, id);
      return Success(saved);
    }

    /** `update(id, input)`: empty for an absent id; otherwise the stored module is overwritten. */
    method Update(id: int, input: ModuleData) returns (r: Option<ModuleData>)
      requires store.Valid()
      modifies store
      ensures store.Valid()
      ensures id !in old(store.modules) ==> r.None? && store.modules == old(store.modules)
      ensures id in old(store.modules) ==>
        r == Some(Overwritten(old(store.modules[id]), input)) && store.modules == old(store.modules)[id := r.value]
      ensures store.products == old(store.products)
      ensures store.nextProductId == old(store.nextProductId) && store.nextModuleId == old(store.nextModuleId)
    {
      if id !in store.modules {
        return None;
      }
      var existing := new Module.Load(store.modules[id]);
      existing.description := input.description;
      existing.name := input.name;
      existing.numPersons := input.numPersons;
      var saved := store.SaveModule(existing, id);
      return Some(saved);
    }

    /**
     * `assignProduct(moduleId, productId)`: fails if either row is absent, writing nothing;
     * otherwise the product's module reference, and nothing else, is set to that module.
     */
    method AssignProduct(moduleId: int, productId: int) returns (r: Result<ModuleData>)
      requires store.Valid()
      modifies store
      ensures store.Valid()
      ensures moduleId !in old(store.modules) ==> r == Failure(ModuleNotFound(moduleId))
      ensures moduleId in old(store.modules) && productId !in old(store.products) ==>
        r == Failure(ProductNotFound(productId))
      ensures r.Failure? ==> store.products == old(store.products)
      ensures moduleId in old(store.modules) && productId in old(store.products) ==>
        && r == Success(old(store.modules[moduleId]))
        && store.products == old(store.products)[productId := old(store.products[productId]).(moduleId := Some(moduleId))]
      ensures store.modules == old(store.modules)
      ensures store.nextProductId == old(store.nextProductId) && store.nextModuleId == old(store.nextModuleId)
    {
      if moduleId !in store.modules {
        return Failure(ModuleNotFound(moduleId));
      }
      var m := new Module.Load(store.modules[moduleId]);
      if productId !in store.products {
        return Failure(ProductNotFound(productId));
      }
      var p := new Product.Load(store.products[productId]);
      AssignedStillStored(productId, store.products[productId], moduleId);
      p.PatchModuleId(m.id);
      var _ := store.SaveProduct(p, productId);
      return Success(m.Snapshot());
    }
  }
}
