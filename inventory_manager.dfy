/**
 * Combined stock (local + external), the stock-status override that follows
 * from it, the rebalancer run after an order reduces stock, and the clamp on
 * external stock entered by an administrator.
 */
module InventoryManager {
  import opened Wrappers
  import opened ProductStore

  /** External stock as read from the meta value: never negative. */
  function ExternalStock(meta: int): (e: nat)
    ensures e >= meta
    ensures e == 0 || e == meta
  {
    if meta < 0 then 0 else meta
  }

  /** Stock available to sell: the non-negative part of local stock plus the external stock. */
  function CombinedStock(f: StockFields): (c: nat)
    ensures c >= ExternalStock(f.externalMeta)
    ensures c >= f.local + ExternalStock(f.externalMeta)
    ensures f.local >= 0 ==> c == f.local + ExternalStock(f.externalMeta)
    ensures f.local < 0 ==> c == ExternalStock(f.externalMeta)
  {
    (if f.local < 0 then 0 else f.local) + ExternalStock(f.externalMeta)
  }

  /**
   * The stock-quantity filter: `product` is None when the filtered object is
   * not a product. Unmanaged stock passes through; managed stock reads as combined.
   */
  function FilterStockQuantity(stock: Option<int>, product: Option<StockFields>): (r: Option<int>)
    ensures (product.None? || !product.value.managesStock) ==> r == stock
    ensures product.Some? && product.value.managesStock ==> r.Some? && r.value >= 0
    ensures product.Some? && product.value.managesStock ==> r == Some(CombinedStock(product.value))
  {
    if product.None? || !product.value.managesStock then stock
    else Some(CombinedStock(product.value))
  }

  /**
   * The stock-status filter: for a managed product, `instock` and
   * `outofstock` are made to agree with combined stock; any other status is kept.
   */
  function FilterStockStatus(status: string, product: Option<StockFields>): (r: string)
    ensures (product.None? || !product.value.managesStock) ==> r == status
    ensures status != InStock && status != OutOfStock ==> r == status
    ensures product.Some? && product.value.managesStock && (status == InStock || status == OutOfStock) ==>
              r == (if CombinedStock(product.value) > 0 then InStock else OutOfStock)
  {
    if product.None? || !product.value.managesStock then status
    else
      var combined := CombinedStock(product.value);
      if status == OutOfStock && combined > 0 then InStock
      else if status == InStock && combined <= 0 then OutOfStock
      else status
  }

  lemma FilterStockStatusIdempotent(status: string, product: Option<StockFields>)
    ensures FilterStockStatus(FilterStockStatus(status, product), product) == FilterStockStatus(status, product)
  {
  }

  /** The backorder status is never overridden, whatever the stock. */
  lemma BackorderNeverOverridden(product: Option<StockFields>)
    ensures FilterStockStatus(OnBackorder, product) == OnBackorder
  {
  }

  // ----- Rebalancing after an order reduction -----

  /** How much stock moves from the external pool to local stock. */
  function Shortage(local: int, external: nat): (s: nat)
    ensures s <= external
    ensures local < 0 ==> s <= -local
    ensures local >= 0 || external == 0 ==> s == 0
    ensures local < 0 && external > 0 ==> s > 0 && (s == -local || s == external)
  {
    if local >= 0 || external <= 0 then 0
    else if -local < external then -local else external
  }

  /**
   * The stock holder's fields after rebalancing: untouched when local stock is
   * not negative or there is no external stock, else the shortage moves over.
   */
  function RebalanceFields(f: StockFields): (g: StockFields)
    ensures g.managesStock == f.managesStock && g.status == f.status
    ensures g.local >= f.local
    ensures g != f ==> g.local + g.externalMeta == f.local + f.externalMeta
    ensures g != f ==> g.externalMeta >= 0 && g.local <= 0
    ensures g != f ==> g.local >= 0 || g.externalMeta == 0
  {
    var external := ExternalStock(f.externalMeta);
    if f.local >= 0 || external <= 0 then f
    else
      var shortage := Shortage(f.local, external);
      f.(local := f.local + shortage, externalMeta := external - shortage)
  }

  /** What the rebalancer promises about the two pools. */
  lemma RebalancePools(f: StockFields)
    ensures var g := RebalanceFields(f);
      && g.managesStock == f.managesStock && g.status == f.status
      && (f.local >= 0 || f.externalMeta <= 0 <==> g == f)
      && (g != f ==> g.local + g.externalMeta == f.local + f.externalMeta)
      && (g != f ==> g.externalMeta >= 0 && g.local <= 0)
      && (g != f ==> g.local >= 0 || g.externalMeta == 0)
      && g.local >= f.local
      && (g != f ==> CombinedStock(g) == if f.local + f.externalMeta > 0 then f.local + f.externalMeta else 0)
  {
  }

  /** Running the rebalancer on its own result changes nothing. */
  lemma RebalanceIdempotent(f: StockFields)
    ensures RebalanceFields(RebalanceFields(f)) == RebalanceFields(f)
  {
  }

  /** Three orders: a shortage fully covered, one partly covered, and no shortage. */
  lemma RebalanceExamples(managesStock: bool, status: string)
    ensures RebalanceFields(StockFields(managesStock, -3, 5, status)) == StockFields(managesStock, 0, 2, status)
    ensures RebalanceFields(StockFields(managesStock, -10, 4, status)) == StockFields(managesStock, -6, 0, status)
    ensures RebalanceFields(StockFields(managesStock, 2, 5, status)) == StockFields(managesStock, 2, 5, status)
  {
  }

  /** The number of fields the rebalancer writes: only those whose value changes. */
  function ChangedFields(f: StockFields, g: StockFields): nat
  {
    (if g.local != f.local then 1 else 0) + (if g.externalMeta != f.externalMeta then 1 else 0)
  }

  /**
   * The product whose stock the rebalancer works on: the line's product when
   * it holds its own stock, else the product loaded by its managed-by id.
   * Null when there is no managed product or the holder does not load.
   */
  function StockHolder(line: Product?, loadable: map<int, Product>): (h: Product?)
    reads line
    ensures h != null ==> line != null && line.managesStock
    ensures line != null && line.managesStock && line.managedById == line.id ==> h == line
    ensures line != null && line.managesStock && (line.managedById == line.id || line.managedById in loadable) ==> h != null
    ensures h != null && line.managedById != line.id ==> line.managedById in loadable && h == loadable[line.managedById]
  {
    if line == null || !line.managesStock then null
    else if line.managedById == line.id then line
    else if line.managedById in loadable then loadable[line.managedById]
    else null
  }

  /**
   * `rebalance_stock_after_order_reduction`: `line` is the order line's
   * product (null when the item is not a product line or has no product),
   * `loadable` the products `wc_get_product` can load.
   */
  method RebalanceStockAfterOrderReduction(line: Product?, loadable: map<int, Product>)
    modifies StockHolder(line, loadable)
    ensures old(StockHolder(line, loadable)) == null && line != null ==> line.State() == old(line.State())
    ensures var h := old(StockHolder(line, loadable));
      h != null ==>
        && h.Fields() == RebalanceFields(old(h.Fields()))
        && h.writes == old(h.writes) + ChangedFields(old(h.Fields()), h.Fields())
        && h.saves == old(h.saves) + (if h.Fields() == old(h.Fields()) then 0 else 1)
  {
    var holder := StockHolder(line, loadable);
    if holder == null {
      return;
    }
    var currentLocal := holder.local;
    var external := ExternalStock(holder.externalMeta);
    if currentLocal >= 0 || external <= 0 {
      return;
    }
    var shortage := Shortage(currentLocal, external);
    var newLocal := currentLocal + shortage;
    var newExternal := external - shortage;
    var needsSave := false;
    if newLocal != currentLocal {
      holder.SetStockQuantity(newLocal);
      needsSave := true;
    }
    if newExternal != external {
      holder.UpdateExternalMeta(newExternal);
      needsSave := true;
    }
    if needsSave {
      holder.Save();
    }
  }

  // ----- External stock entered by an administrator -----

  /**
   * `save_external_stock_value`: `posted` is the submitted field, None when
   * absent; the value is staged clamped to zero or more.
   */
  method SaveExternalStockValue(product: Product?, posted: Option<int>)
    modifies product
    ensures product != null && posted.Some? ==>
      product.State() == old(product.State()).(fields := old(product.Fields()).(externalMeta := ExternalStock(posted.value)), writes := old(product.writes) + 1)
    ensures product != null && posted.Some? ==> product.externalMeta >= 0
    ensures product != null && posted.None? ==> product.State() == old(product.State())
  {
    if product == null || posted.None? {
      return;
    }
    var value := ExternalStock(posted.value);
    product.UpdateExternalMeta(value);
  }

  /**
   * `save_variation_external_stock_value`: `posted` holds the submitted
   * variation fields by loop index; the variation's meta is written directly,
   * clamped to zero or more.
   */
  method SaveVariationExternalStockValue(variation: Product, posted: map<int, int>, index: int)
    modifies variation
    ensures index in posted ==>
      variation.State() == old(variation.State()).(fields := old(variation.Fields()).(externalMeta := ExternalStock(posted[index])))
    ensures index in posted ==> variation.externalMeta >= 0
    ensures index !in posted ==> variation.State() == old(variation.State())
  {
    if index !in posted {
      return;
    }
    var value := ExternalStock(posted[index]);
    variation.StoreExternalMeta(value);
  }

  // ----- Stock as the reservation query sees it -----

  /**
   * The stock figure of the reservation SQL query, with a missing meta row
   * (a NULL from the left join) read as 0.
   */
  function ReservationQueryStock(stockMeta: Option<int>, externalMeta: Option<int>): int
  {
    (if stockMeta.GetOr(0) < 0 then 0 else stockMeta.GetOr(0))
    + (if externalMeta.GetOr(0) < 0 then 0 else externalMeta.GetOr(0))
  }

  /**
   * The reservation query and the stock-quantity filter agree on every
   * managed product, reading a missing `_stock` or external meta row as 0.
   */
  lemma ReservationQueryAgrees(stockMeta: Option<int>, externalMeta: Option<int>, status: string)
    ensures var f := StockFields(true, stockMeta.GetOr(0), externalMeta.GetOr(0), status);
      FilterStockQuantity(stockMeta, Some(f)) == Some(ReservationQueryStock(stockMeta, externalMeta))
  {
  }

}
