/**
 * `POST /api/admin/products` (`app/api/admin/products/route.ts`): the body is
 * checked against `productSchema`, which fills in the stock and featured
 * defaults; a body that fails is answered with 400 and nothing is created,
 * otherwise the parsed record is what `createProduct` receives.
 */
module AdminProductsRoute {
  import opened Wrappers
  import opened Json
  import opened Schema

  /** The output of `productSchema`; `sizes` and `colors` are JSON text, kept as strings. */
  datatype ProductData = ProductData(
    name: string,
    description: Option<string>,
    price: real,
    image_url: Option<string>,
    category: string,
    brand: string,
    sizes: string,
    colors: string,
    stock_quantity: real,
    featured: bool)

  /** What the schema guarantees of its output. */
  predicate WellFormed(d: ProductData) {
    d.name != [] && d.category != [] && d.brand != [] && d.price >= 0.0 && d.stock_quantity >= 0.0
  }

  /** `productSchema.parse(body)`, `None` when zod throws. Unknown keys are dropped. */
  function ParseProduct(body: Json): (r: Option<ProductData>)
    ensures r.Some? ==> body.JObj? && WellFormed(r.value)
    ensures r.Some? ==> "sizes" in body.fields && body.fields["sizes"].JStr? && "colors" in body.fields && body.fields["colors"].JStr?
    ensures r.Some? && "stock_quantity" !in body.fields ==> r.value.stock_quantity == 0.0
    ensures r.Some? && "featured" !in body.fields ==> !r.value.featured
  {
    if !body.JObj? then None
    else
      var f := body.fields;
      var name := Str(Get(f, "name"), 1);
      var description := OptStr(Get(f, "description"));
      var price := Num(Get(f, "price"), Some(0.0));
      var imageUrl := OptStr(Get(f, "image_url"));
      var category := Str(Get(f, "category"), 1);
      var brand := Str(Get(f, "brand"), 1);
      var sizes := Str(Get(f, "sizes"), 0);
      var colors := Str(Get(f, "colors"), 0);
      var stock := NumOr(Get(f, "stock_quantity"), 0.0, 0.0);
      var featured := BoolOr(Get(f, "featured"), false);
      if name.None? || description.None? || price.None? || imageUrl.None? || category.None? || brand.None?
         || sizes.None? || colors.None? || stock.None? || featured.None? then None
      else
        Some(ProductData(name.value, description.value, price.value, imageUrl.value, category.value, brand.value,
                         sizes.value, colors.value, stock.value, featured.value))
  }

  /** The request body that submits `d` with every field written out. */
  function Encode(d: ProductData): Json {
    JObj((if d.description.Some? then map["description" := JStr(d.description.value)] else map[])
         + (if d.image_url.Some? then map["image_url" := JStr(d.image_url.value)] else map[])
         + map["name" := JStr(d.name), "price" := JNum(d.price), "category" := JStr(d.category),
               "brand" := JStr(d.brand), "sizes" := JStr(d.sizes), "colors" := JStr(d.colors),
               "stock_quantity" := JNum(d.stock_quantity), "featured" := JBool(d.featured)])
  }

  /** Every well-formed record is accepted exactly as submitted. */
  lemma ParseEncode(d: ProductData)
    requires WellFormed(d)
    ensures ParseProduct(Encode(d)) == Some(d)
  {
    EncodeTextFields(d);
    EncodeOtherFields(d);
  }

  /** The string keys of the encoded body. */
  lemma EncodeTextFields(d: ProductData)
    ensures var f := Encode(d).fields;
            Get(f, "name") == Some(JStr(d.name)) && Get(f, "category") == Some(JStr(d.category))
            && Get(f, "brand") == Some(JStr(d.brand))
            && Get(f, "sizes") == Some(JStr(d.sizes)) && Get(f, "colors") == Some(JStr(d.colors))
  {
  }

  /** The number, boolean and optional keys of the encoded body. */
  lemma EncodeOtherFields(d: ProductData)
    ensures var f := Encode(d).fields;
            Get(f, "price") == Some(JNum(d.price))
            && Get(f, "stock_quantity") == Some(JNum(d.stock_quantity)) && Get(f, "featured") == Some(JBool(d.featured))
            && Get(f, "description") == (if d.description.Some? then Some(JStr(d.description.value)) else None)
            && Get(f, "image_url") == (if d.image_url.Some? then Some(JStr(d.image_url.value)) else None)
  {
  }

  /** A product without a brand, or with a negative price, is refused. */
  lemma RequiredFieldsEnforced(d: ProductData)
    requires WellFormed(d)
    ensures ParseProduct(Encode(d.(brand := ""))) == None
    ensures ParseProduct(Encode(d.(price := -1.0))) == None
  {
    assert Get(Encode(d.(brand := "")).fields, "brand") == Some(JStr(""));
    assert Get(Encode(d.(price := -1.0)).fields, "price") == Some(JNum(-1.0));
  }

  /** The route's answer. */
  datatype Response = Created(data: ProductData) | InvalidProductData

  /** `POST`: 400 on a schema failure, otherwise the parsed record goes to `createProduct`. */
  function Post(body: Json): (r: Response)
    ensures r == InvalidProductData <==> ParseProduct(body).None?
    ensures r.Created? ==> WellFormed(r.data)
  {
    match ParseProduct(body)
    case None => InvalidProductData
    case Some(d) => Created(d)
  }
}
