/** The product record of the refactored product service (refactored.ts) and
    `ProductAssembler`, which builds and updates it from request bodies. */
module ProductAssembler {
  import opened Wrappers

  /** The fields a product carries besides its id. */
  datatype ProductFields = ProductFields(
    title: string,
    description: Option<string>,
    price: int,
    category: Option<string>)

  /** A stored product document; its id never changes, its fields do. */
  class Product {
    const id: string
    var title: string
    var description: Option<string>
    var price: int
    var category: Option<string>

    constructor(id: string, fields: ProductFields)
      ensures this.id == id && Fields() == fields
    {
      this.id := id;
      title := fields.title;
      description := fields.description;
      price := fields.price;
      category := fields.category;
    }

    function Fields(): ProductFields
      reads this
    {
      ProductFields(title, description, price, category)
    }
  }

  /** `CreateProductDto`: title and price are required. */
  datatype CreateProductDto = CreateProductDto(
    title: string,
    description: Option<string>,
    price: int,
    category: Option<string>)

  /** `UpdateProductDto`: every field may be left out. */
  datatype UpdateProductDto = UpdateProductDto(
    title: Option<string>,
    description: Option<string>,
    price: Option<int>,
    category: Option<string>)

  /** `fromCreateDto`: the title, description, price and category of the
      request, and nothing else. */
  function FromCreateDto(dto: CreateProductDto): (r: ProductFields)
    ensures r.title == dto.title && r.description == dto.description
    ensures r.price == dto.price && r.category == dto.category
  {
    ProductFields(dto.title, dto.description, dto.price, dto.category)
  }

  /** A string field of the request that overrides the stored one (`||`). */
  predicate TruthyText(s: Option<string>) {
    s.Some? && s.value != ""
  }

  /** A number field of the request that overrides the stored one (`||`). */
  predicate TruthyNumber(n: Option<int>) {
    n.Some? && n.value != 0
  }

  /** The falsy-or-keep rule of `fromUpdateDto`: a field the request gives
      a truthy value replaces the stored one, and any other field is kept, so
      an empty title or a price of 0 cannot be written. */
  function Merge(dto: UpdateProductDto, f: ProductFields): (r: ProductFields)
    ensures TruthyText(dto.title) ==> r.title == dto.title.value
    ensures !TruthyText(dto.title) ==> r.title == f.title
    ensures TruthyText(dto.description) ==> r.description == dto.description
    ensures !TruthyText(dto.description) ==> r.description == f.description
    ensures TruthyNumber(dto.price) ==> r.price == dto.price.value
    ensures !TruthyNumber(dto.price) ==> r.price == f.price
    ensures TruthyText(dto.category) ==> r.category == dto.category
    ensures !TruthyText(dto.category) ==> r.category == f.category
  {
    ProductFields(
      if TruthyText(dto.title) then dto.title.value else f.title,
      if TruthyText(dto.description) then dto.description else f.description,
      if TruthyNumber(dto.price) then dto.price.value else f.price,
      if TruthyText(dto.category) then dto.category else f.category)
  }

  /** Applying the same update twice is applying it once. */
  lemma {:induction false} MergeIdempotent(dto: UpdateProductDto, f: ProductFields)
    ensures Merge(dto, Merge(dto, f)) == Merge(dto, f)
  {
  }

  /** A request with no truthy field leaves the product as it is; in
      particular an empty title and a price of 0 are ignored. */
  lemma {:induction false} FalsyUpdateKeeps(dto: UpdateProductDto, f: ProductFields)
    requires !TruthyText(dto.title) && !TruthyText(dto.description)
    requires !TruthyNumber(dto.price) && !TruthyText(dto.category)
    ensures Merge(dto, f) == f
  {
  }

  /** Updates that override disjoint sets of fields commute. */
  lemma {:induction false} DisjointUpdatesCommute(a: UpdateProductDto, b: UpdateProductDto, f: ProductFields)
    requires !(TruthyText(a.title) && TruthyText(b.title))
    requires !(TruthyText(a.description) && TruthyText(b.description))
    requires !(TruthyNumber(a.price) && TruthyNumber(b.price))
    requires !(TruthyText(a.category) && TruthyText(b.category))
    ensures Merge(a, Merge(b, f)) == Merge(b, Merge(a, f))
  {
  }

  /** `fromUpdateDto`: merges the request into the stored product, in place,
      and returns that same product. */
  method FromUpdateDto(dto: UpdateProductDto, existing: Product) returns (p: Product)
    modifies existing
    ensures p == existing
    ensures p.Fields() == Merge(dto, old(existing.Fields()))
  {
    existing.title := if TruthyText(dto.title) then dto.title.value else existing.title;
    existing.description := if TruthyText(dto.description) then dto.description else existing.description;
    existing.price := if TruthyNumber(dto.price) then dto.price.value else existing.price;
    existing.category := if TruthyText(dto.category) then dto.category else existing.category;
    p := existing;
  }
}
