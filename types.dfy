/** The product records of src/types/product.ts, cut down to the fields the
    product page reads. */
module ProductTypes {

  /** A product row: `id` and `attributes.uniqueName`. */
  datatype Datum = Datum(id: int, uniqueName: string)

  /** `meta.pagination`, as the CMS reports it; `page` is 1-based. */
  datatype Pagination = Pagination(page: int, pageSize: int, pageCount: int, total: int)

  /** `ResponseProduct`: a page of rows and its pagination. */
  datatype ResponseProduct = ResponseProduct(data: seq<Datum>, pagination: Pagination)
}
