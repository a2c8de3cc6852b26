/**
 * The two tables behind the services, as one store object: product rows and module rows
 * keyed by id, with the identity counters. Saving a product runs the entity's JPA listener
 * (`@PrePersist` on insert, `@PreUpdate` on update); a failing listener aborts the
 * transaction, so the tables are left as they were.
 */
module Repositories {
  import opened Errors
  import opened JavaInt
  import opened Products

  /** A production line ("module") row. */
  datatype ModuleData = ModuleData(
    id: Option<int>,
    description: Option<string>,
    name: Option<string>,
    numPersons: Option<Int32>)

  /** A module entity whose fields the services set in place. */
  class Module {
    var id: Option<int>
    var description: Option<string>
    var name: Option<string>
    var numPersons: Option<Int32>

    function Snapshot(): ModuleData
      reads this
    {
      ModuleData(id, description, name, numPersons)
    }

    /** An entity holding the given column values. */
    constructor Load(m: ModuleData)
      ensures Snapshot() == m
    {
      id, description, name, numPersons := m.id, m.description, m.name, m.numPersons;
    }
  }

  /**
   * What every stored product row satisfies: it carries its own key as id, it has a
   * positive quantity and a status, and `0 <= quantityMade <= quantity`.
   */
  predicate StoredProduct(key: int, d: ProductData)
  {
    && d.id == Some(key)
    && d.quantity.Some? && d.quantity.value > 0
    && d.quantityMade.Some? && 0 <= d.quantityMade.value <= d.quantity.value
    && d.status.Some?
  }

  /** The update check accepts a stored row as it is. */
  lemma StoredPassesUpdateCheck(key: int, d: ProductData)
    requires StoredProduct(key, d)
    ensures UpdateCheck(d) == Success(d)
  {
  }

  class Store {
    var products: map<int, ProductData>
    var modules: map<int, ModuleData>
    var nextProductId: int
    var nextModuleId: int

    /** Every row satisfies its table's invariant and has a key below the next identity. */
    ghost predicate Valid()
      reads this
    {
      && (forall k | k in products :: StoredProduct(k, products[k]) && k < nextProductId)
      && (forall k | k in modules :: modules[k].id == Some(k) && k < nextModuleId)
    }

    /** Empty tables; identities start at 1. */
    constructor ()
      ensures Valid()
      ensures products == map[] && modules == map[] && nextProductId == 1 && nextModuleId == 1
    {
      products, modules, nextProductId, nextModuleId := map[], map[], 1, 1;
    }

    /** `existsByOpAndIdNot(op, id)`: some other product carries this production order number. */
    predicate ExistsByOpAndIdNot(op: string, id: int)
      reads this
    {
      exists k | k in products :: k != id && products[k].op == Some(op)
    }

    /**
     * `save` of a new product: the `@PrePersist` check runs on the entity; if it passes, the
     * row is inserted under the next identity, otherwise no table changes.
     */
    method InsertProduct(p: Product) returns (r: Result<ProductData>)
      requires Valid() && p.status.Some?
      modifies this, p
      ensures Valid()
      ensures var e := CreateCheck(old(p.Snapshot()));
        && (e.Failure? ==> r == Failure(e.error) && products == old(products) && nextProductId == old(nextProductId))
        && (e.Success? ==> r == Success(e.value.(id := Some(old(nextProductId))))
                           && products == old(products)[old(nextProductId) := r.value]
                           && nextProductId == old(nextProductId) + 1)
      ensures r.Success? ==> p.Snapshot() == r.value
      ensures modules == old(modules) && nextModuleId == old(nextModuleId)
    {
      ghost var d := p.Snapshot();
      var err := p.ValidateOnCreate();
      if err.Some? {
        return Failure(err.value);
      }
      CreateCheckOutcome(d);
      p.id := Some(nextProductId);
      var row := p.Snapshot();
      assert row == CreateCheck(d).value.(id := Some(nextProductId));
      assert StoredProduct(nextProductId, row);
      products := products[nextProductId := row];
      nextProductId := nextProductId + 1;
      r := Success(row);
    }

    /**
     * `save` of a product read from the table: the `@PreUpdate` check runs on the entity; if
     * it passes, the row is replaced, otherwise no table changes.
     */
    method SaveProduct(p: Product, key: int) returns (r: Result<ProductData>)
      requires Valid() && key in products && p.id == Some(key) && p.status.Some?
      modifies this, p
      ensures Valid()
      ensures var e := UpdateCheck(old(p.Snapshot()));
        && (e.Failure? ==> r == Failure(e.error) && products == old(products))
        && (e.Success? ==> r == e && products == old(products)[key := e.value])
      ensures modules == old(modules) && nextProductId == old(nextProductId) && nextModuleId == old(nextModuleId)
    {
      var err := p.ValidateOnUpdate();
      if err.Some? {
        return Failure(err.value);
      }
      products := products[key := p.Snapshot()];
      r := Success(p.Snapshot());
    }

    /** `delete` of a product row. */
    method DeleteProduct(key: int)
      requires Valid() && key in products
      modifies this
      ensures Valid()
      ensures products == old(products) - {key}
      ensures modules == old(modules) && nextProductId == old(nextProductId) && nextModuleId == old(nextModuleId)
    {
      products := products - {key};
    }

    /** `save` of a new module: inserted under the next identity. */
    method InsertModule(m: Module) returns (r: ModuleData)
      requires Valid()
      modifies this, m
      ensures Valid()
      ensures r == old(m.Snapshot()).(id := Some(old(nextModuleId)))
      ensures modules == old(modules)[old(nextModuleId) := r] && nextModuleId == old(nextModuleId) + 1
      ensures products == old(products) && nextProductId == old(nextProductId)
    {
      m.id := Some(nextModuleId);
      r := m.Snapshot();
      modules := modules[nextModuleId := r];
      nextModuleId := nextModuleId + 1;
    }

    /** `save` of a module read from the table. */
    method SaveModule(m: Module, key: int) returns (r: ModuleData)
      requires Valid() && key in modules && m.id == Some(key)
      modifies this
      ensures Valid()
      ensures r == m.Snapshot() && modules == old(modules)[key := r]
      ensures products == old(products) && nextProductId == old(nextProductId) && nextModuleId == old(nextModuleId)
    {
      r := m.Snapshot();
      modules := modules[key := r];
    }
  }
}
