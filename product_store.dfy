/**
 * The WooCommerce product objects the stock core reads and writes.
 *
 * A product is a heap object whose setters stage a change (counted in
 * `writes`) and whose `Save` persists the staged changes (counted in `saves`).
 */
module ProductStore {

  /** The three stock statuses WooCommerce knows. */
  const InStock := "instock"
  const OutOfStock := "outofstock"
  const OnBackorder := "onbackorder"

  /** The stock fields of one product, as a value. */
  datatype StockFields = StockFields(
    managesStock: bool,
    local: int,          // `_stock`, may be negative after an order
    externalMeta: int,   // `_siti_external_stock` meta as stored
    status: string)

  /** The observable state of a product: its fields and how often it was written and saved. */
  datatype Snapshot = Snapshot(fields: StockFields, writes: nat, saves: nat)

  class Product {
    const id: int
    const managedById: int   // id of the product that holds this product's stock
    var managesStock: bool
    var local: int
    var externalMeta: int
    var status: string
    var writes: nat
    var saves: nat

    function Fields(): StockFields
      reads this
    {
      StockFields(managesStock, local, externalMeta, status)
    }

    function State(): Snapshot
      reads this
    {
      Snapshot(Fields(), writes, saves)
    }

    constructor (id: int, managedById: int, fields: StockFields)
      ensures this.id == id && this.managedById == managedById
      ensures State() == Snapshot(fields, 0, 0)
    {
      this.id := id;
      this.managedById := managedById;
      managesStock := fields.managesStock;
      local := fields.local;
      externalMeta := fields.externalMeta;
      status := fields.status;
      writes := 0;
      saves := 0;
    }

    method SetManageStock(value: bool)
      modifies this
      ensures State() == old(State()).(fields := old(Fields()).(managesStock := value), writes := old(writes) + 1)
    {
      managesStock := value;
      writes := writes + 1;
    }

    method SetStockQuantity(quantity: int)
      modifies this
      ensures State() == old(State()).(fields := old(Fields()).(local := quantity), writes := old(writes) + 1)
    {
      local := quantity;
      writes := writes + 1;
    }

    /** `update_meta_data` for the external stock key: staged until `Save`. */
    method UpdateExternalMeta(value: int)
      modifies this
      ensures State() == old(State()).(fields := old(Fields()).(externalMeta := value), writes := old(writes) + 1)
    {
      externalMeta := value;
      writes := writes + 1;
    }

    method SetStockStatus(value: string)
      modifies this
      ensures State() == old(State()).(fields := old(Fields()).(status := value), writes := old(writes) + 1)
    {
      status := value;
      writes := writes + 1;
    }

    /** `update_post_meta` for the external stock key: written straight to the store, not staged. */
    method StoreExternalMeta(value: int)
      modifies this
      ensures State() == old(State()).(fields := old(Fields()).(externalMeta := value))
    {
      externalMeta := value;
    }

    method Save()
      modifies this
      ensures State() == old(State()).(saves := old(saves) + 1)
    {
      saves := saves + 1;
    }
  }

  /**
   * The part of WooCommerce the sync service talks to: whether it is active
   * (`wc_get_product_id_by_sku` exists), the SKU index, and the products that load by id.
   */
  datatype Catalog = Catalog(wcActive: bool, skuIndex: map<string, int>, products: map<int, Product>) {

    /** One object per product id. */
    ghost predicate Valid() {
      forall i, j | i in products && j in products && i != j :: products[i] != products[j]
    }
  }

  /** `wc_get_product_id_by_sku`: 0 when no product has the SKU. */
  function ProductIdBySku(skuIndex: map<string, int>, sku: string): int {
    if sku in skuIndex then skuIndex[sku] else 0
  }

  /** The state of every loadable product, by id. */
  function States(catalog: Catalog): (m: map<int, Snapshot>)
    reads catalog.products.Values
    ensures m.Keys == catalog.products.Keys
  {
    map id | id in catalog.products :: catalog.products[id].State()
  }
}
