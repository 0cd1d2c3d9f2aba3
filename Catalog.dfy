/** The product catalogue entities the services read (backend/src/models/Product.ts). */
module Catalog {
  import opened Wrappers

  type ProductId = string

  /** The six supported product units. */
  datatype Unit = G | Kg | Ml | L | Piece | Pack

  /** The schema's lower bound on `unitQuantity` makes every pack size positive. */
  type PackSize = r: real | r > 0.0 witness 1.0

  /** A catalogue product; `unitQuantity` is the amount of `unit` in one
      purchasable pack (200 for a 200 g pack). */
  datatype Product = Product(
    id: ProductId,
    name: string,
    tags: seq<string>,
    price: real,
    unit: Unit,
    unitQuantity: PackSize,
    imageUrl: Option<string>)
}
