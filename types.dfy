/**
 * The entities the components exchange with the server. Only the fields the
 * modelled code reads or writes are kept.
 */
module Types {
  import opened Wrappers

  /** A purchasable configuration of a product (a storage size, say). */
  datatype ProductStorage = ProductStorage(
    id: int,
    storage: string,
    storage_ascii: string,
    base_price: int,
    default: bool)

  datatype Product = Product(
    id: int,
    product_name: string,
    product_name_ascii: string,
    category_name_ascii: string,
    image_url: string,
    installment: bool,
    storages_data: Option<seq<ProductStorage>>)

  /** A variant overlay record, `ProductStorage & { product_name_ascii }`. */
  datatype Variant = Variant(storage: ProductStorage, product_name_ascii: string)

  datatype Category = Category(id: int, category_name: string, category_ascii: string)

  datatype Brand = Brand(id: int, brand_name: string, brand_ascii: string)

  /** A gallery image; an empty `image_file_path` stands for a missing one. */
  datatype ImageType = ImageType(id: int, name: string, image_url: string, image_file_path: string, size: int)
}
