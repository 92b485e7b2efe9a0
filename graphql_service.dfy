/** The storefront's service layer over the GraphQL backend. Every backend
    answer is a parameter: the product or order list a query returned, or the
    `{success, message, id}` record a mutation returned. A thrown error is an
    `Err` value. */
module GraphQLService {
  import opened Wrappers
  import opened Seqs
  import opened Text
  import opened GraphQLTypes

  datatype ServiceError =
    | ProductNotFound(productId: string)
    | OrderNotFound(orderId: string)
    | BackendFailure(message: string)
    | InvalidResponse

  /** JavaScript truthiness of an optional string: present and non-empty. */
  predicate Truthy(s: Option<string>) {
    s.Some? && s.value != ""
  }

  // ---------------------------------------------------------------------
  // getProducts

  predicate InCategory(p: Product, category: string) {
    p.category.id == category || p.category.name == category
  }

  /** The category filter of `getProducts`: only a non-empty category filters. */
  function FilterByCategory(products: seq<Product>, category: Option<string>): (r: seq<Product>)
    ensures !Truthy(category) ==> r == products
    ensures Truthy(category) ==>
              && (forall i :: 0 <= i < |r| ==> InCategory(r[i], category.value))
              && (forall p :: multiset(r)[p] == if InCategory(p, category.value) then multiset(products)[p] else 0)
              && IsSubsequence(r, products)
  {
    if Truthy(category) then Filter(products, p => InCategory(p, category.value)) else products
  }

  datatype ProductsReply = ProductsReply(products: seq<LegacyProduct>, restaurant_id: string, total: int)

  /** `getProducts`: a missing product list counts as empty; the kept products
      are converted to the legacy shape one for one and `total` is their number. */
  function GetProducts(restaurantId: string, category: Option<string>, data: Option<seq<Product>>): (r: ProductsReply)
    ensures var kept := FilterByCategory(data.GetOr([]), category);
            && |r.products| == |kept| == r.total
            && (forall i :: 0 <= i < |kept| ==> r.products[i] == ConvertProductToLegacy(kept[i]))
    ensures r.restaurant_id == restaurantId
  {
    var kept := FilterByCategory(data.GetOr([]), category);
    ProductsReply(Map(kept, ConvertProductToLegacy), restaurantId, |kept|)
  }

  // ---------------------------------------------------------------------
  // Finding the backend id of a legacy numeric id.

  /** What `Number(productId)` gives for the string id `getProduct` receives. */
  datatype NumberValue = NaN | Integral(value: int) | Fractional

  /** `number` is what `Number(productId)` gives, as far as the model reads
      numbers: an optionally negative decimal integer is that integer, and the
      empty string is 0. */
  predicate NumberOf(productId: string, number: NumberValue) {
    && (ParseSigned(productId).Some? ==> number == Integral(ParseSigned(productId).value))
    && (productId == "" ==> number == Integral(0))
  }

  /** Position `i` holds the first listed product with legacy id `n`. */
  predicate FirstWithId(listing: seq<LegacyProduct>, n: int, i: int) {
    && 0 <= i < |listing| && listing[i].id == n
    && forall j :: 0 <= j < i ==> listing[j].id != n
  }

  /** `getProduct`'s id resolution over the product listing it fetches: a
      string that is not a number is used as it is; a number must be the
      legacy id of a listed product that carries a non-empty `originalId`,
      and the first product with that id is the one consulted. */
  function ResolveForGet(productId: string, number: NumberValue, listing: seq<LegacyProduct>): (r: Result<string, ServiceError>)
    requires NumberOf(productId, number)
    ensures number.NaN? ==> r == Ok(productId)
    ensures number.Fractional? ==> r == Err(ProductNotFound(productId))
    ensures number.Integral? ==>
              (r.Ok? <==> exists i :: FirstWithId(listing, number.value, i) && Truthy(listing[i].originalId))
    ensures number.Integral? && r.Ok? ==>
              exists i :: FirstWithId(listing, number.value, i) && listing[i].originalId == Some(r.value)
    ensures r.Err? ==> r.error == ProductNotFound(productId)
  {
    match number
    case NaN => Ok(productId)
    case Fractional => Err(ProductNotFound(productId))
    case Integral(n) =>
      match Find(listing, (p: LegacyProduct) => p.id == n)
      case Some(p) =>
        if Truthy(p.originalId) then Ok(p.originalId.value) else Err(ProductNotFound(productId))
      case None => Err(ProductNotFound(productId))
  }

  /** The decimal form of a listed legacy id reads back as that id and
      resolves to the backend id of the first product carrying it. */
  lemma DecimalIdResolves(listing: seq<LegacyProduct>, i: int)
    requires 0 <= i < |listing| && FirstWithId(listing, listing[i].id, i) && Truthy(listing[i].originalId)
    ensures NumberOf(IntToDecimal(listing[i].id), Integral(listing[i].id))
    ensures ResolveForGet(IntToDecimal(listing[i].id), Integral(listing[i].id), listing) == Ok(listing[i].originalId.value)
  {
    IntDecimalRoundTrip(listing[i].id);
  }

  datatype ProductReply = ProductReply(product: LegacyProduct, restaurant_id: string)

  /** `getProduct`: resolve the id, then the product query's answer (`None`
      when the backend has no such product) is converted. */
  function GetProduct(productId: string, number: NumberValue, restaurantId: string,
                      listing: seq<LegacyProduct>, answer: Option<Product>): (r: Result<ProductReply, ServiceError>)
    requires NumberOf(productId, number)
    ensures ResolveForGet(productId, number, listing).Err? ==> r == Err(ProductNotFound(productId))
    ensures answer.None? ==> r == Err(ProductNotFound(productId))
    ensures r.Ok? <==> ResolveForGet(productId, number, listing).Ok? && answer.Some?
    ensures r.Ok? ==> r.value.product == ConvertProductToLegacy(answer.value) && r.value.restaurant_id == restaurantId
  {
    match ResolveForGet(productId, number, listing)
    case Err(e) => Err(e)
    case Ok(_) =>
      match answer
      case None => Err(ProductNotFound(productId))
      case Some(p) => Ok(ProductReply(ConvertProductToLegacy(p), restaurantId))
  }

  predicate ExactMatch(p: LegacyProduct, productId: int) {
    p.id == productId
  }

  /** The fallback search: `String(p.id) === String(productId)` or
      `p.originalId === String(productId)`. */
  predicate LooseMatch(p: LegacyProduct, productId: int) {
    IntToDecimal(p.id) == IntToDecimal(productId) || p.originalId == Some(IntToDecimal(productId))
  }

  /** The backend id carried by the first product a search finds, if it has one. */
  function UsableOriginalId(found: Option<LegacyProduct>): Option<string> {
    if found.Some? && Truthy(found.value.originalId) then found.value.originalId else None
  }

  /** `updateProduct`'s id resolution: a non-empty `originalId` argument wins
      without a lookup; otherwise the first product with the same legacy id,
      then the first product the fallback search finds; the product found
      must carry a non-empty `originalId`. */
  function ResolveForUpdate(productId: int, originalId: Option<string>, listing: seq<LegacyProduct>): (r: Result<string, ServiceError>)
    ensures Truthy(originalId) ==> r == Ok(originalId.value)
    ensures r.Ok? ==> r.value != ""
    ensures r.Ok? && !Truthy(originalId) ==>
              exists i :: 0 <= i < |listing| && (ExactMatch(listing[i], productId) || LooseMatch(listing[i], productId))
                && listing[i].originalId == Some(r.value)
    ensures r.Err? <==>
              && !Truthy(originalId)
              && UsableOriginalId(Find(listing, p => ExactMatch(p, productId))).None?
              && UsableOriginalId(Find(listing, p => LooseMatch(p, productId))).None?
    ensures r.Err? ==> r.error == ProductNotFound(IntToDecimal(productId))
  {
    if Truthy(originalId) then Ok(originalId.value)
    else
      match UsableOriginalId(Find(listing, p => ExactMatch(p, productId)))
      case Some(id) => Ok(id)
      case None =>
        match UsableOriginalId(Find(listing, p => LooseMatch(p, productId)))
        case Some(id) => Ok(id)
        case None => Err(ProductNotFound(IntToDecimal(productId)))
  }

  /** `deleteProduct`'s id resolution: the same as `updateProduct`'s without the
      fallback search. */
  function ResolveForDelete(productId: int, originalId: Option<string>, listing: seq<LegacyProduct>): (r: Result<string, ServiceError>)
    ensures Truthy(originalId) ==> r == Ok(originalId.value)
    ensures r.Ok? && !Truthy(originalId) ==>
              exists i :: 0 <= i < |listing| && listing[i].id == productId
                && listing[i].originalId == Some(r.value) && r.value != ""
                && forall j :: 0 <= j < i ==> listing[j].id != productId
    ensures r.Err? <==> !Truthy(originalId) && UsableOriginalId(Find(listing, p => ExactMatch(p, productId))).None?
    ensures r.Err? ==> r.error == ProductNotFound(IntToDecimal(productId))
  {
    if Truthy(originalId) then Ok(originalId.value)
    else
      match FirstIndex(listing, p => ExactMatch(p, productId))
      case Some(i) =>
        if Truthy(listing[i].originalId) then Ok(listing[i].originalId.value)
        else Err(ProductNotFound(IntToDecimal(productId)))
      case None => Err(ProductNotFound(IntToDecimal(productId)))
  }

  /** The fallback's first test is the exact test in another form:
      `String(a) === String(b)` exactly when `a === b`. */
  lemma LooseMatchByIdIsExact(a: int, b: int)
    ensures IntToDecimal(a) == IntToDecimal(b) <==> a == b
  {
    if IntToDecimal(a) == IntToDecimal(b) {
      IntDecimalRoundTrip(a);
      IntDecimalRoundTrip(b);
    }
  }

  /** Whatever a delete resolves, an update with the same arguments resolves
      to the same backend id: the update only adds a fallback. */
  lemma DeleteResolutionImpliesUpdate(productId: int, originalId: Option<string>, listing: seq<LegacyProduct>)
    requires ResolveForDelete(productId, originalId, listing).Ok?
    ensures ResolveForUpdate(productId, originalId, listing) == ResolveForDelete(productId, originalId, listing)
  {
  }

  /** A case the fallback rescues: the product with legacy id 7 has lost its
      backend id, but an earlier product's backend id is the string "7". The
      delete fails, the update goes to that other product. */
  lemma FallbackRescuesUpdate()
    ensures var cat := Category("c", "Bebidas", None);
            var lost := LegacyProduct(7, "a", "", 0, None, true, None, cat, None, Some(""));
            var other := LegacyProduct(9, "b", "", 0, None, true, None, cat, None, Some("7"));
            && ResolveForDelete(7, None, [other, lost]) == Err(ProductNotFound("7"))
            && ResolveForUpdate(7, None, [other, lost]) == Ok("7")
  {
    var cat := Category("c", "Bebidas", None);
    var lost := LegacyProduct(7, "a", "", 0, None, true, None, cat, None, Some(""));
    var other := LegacyProduct(9, "b", "", 0, None, true, None, cat, None, Some("7"));
    assert IntToDecimal(7) == "7";
    assert IntToDecimal(9) == "9";
    assert !ExactMatch(other, 7) && ExactMatch(lost, 7);
    assert LooseMatch(other, 7);
  }

  /** Over a listing that `getProducts` converted from products with non-empty
      ids, resolving a legacy id without `originalId` is `findOriginalId`. */
  lemma DeleteResolutionIsFindOriginalId(productId: int, products: seq<Product>)
    requires forall i :: 0 <= i < |products| ==> products[i].id != ""
    ensures var r := ResolveForDelete(productId, None, Map(products, ConvertProductToLegacy));
            match FindOriginalId(products, productId)
            case Some(id) => r == Ok(id)
            case None => r == Err(ProductNotFound(IntToDecimal(productId)))
  {
    var listing := Map(products, ConvertProductToLegacy);
    FirstIndexAgree(listing, p => ExactMatch(p, productId), products, p => HashesTo(p, productId));
  }

  // ---------------------------------------------------------------------
  // updateProduct / deleteProduct / createProduct

  /** The admin form's product data; in an update every field may be absent. */
  datatype ProductPatch = ProductPatch(
    name: Option<string>,
    description: Option<string>,
    price: Option<int>,
    image_url: Option<string>,
    available: Option<bool>,
    category: Option<string>,
    restaurant_id: Option<string>,
    variants: Option<seq<ProductVariant>>)

  /** The update input carries exactly the defined fields of the form data,
      renamed; `restaurant_id` is never sent. */
  ghost predicate CarriesDefinedFields(input: UpdateProductInput, data: ProductPatch) {
    && input.name == data.name && input.description == data.description
    && input.price == data.price && input.imageUrl == data.image_url
    && input.available == data.available && input.categoryId == data.category
    && input.variants == data.variants
  }

  /** Building the `UpdateProductInput` field by field: a field is set only when
      the form data defines it. An empty `variants` list is defined, so it is
      sent. */
  method BuildUpdateInput(data: ProductPatch) returns (input: UpdateProductInput)
    ensures CarriesDefinedFields(input, data)
    ensures data.variants == Some([]) ==> input.variants == Some([])
  {
    input := UpdateProductInput(None, None, None, None, None, None, None);
    if data.name.Some? { input := input.(name := data.name); }
    if data.description.Some? { input := input.(description := data.description); }
    if data.price.Some? { input := input.(price := data.price); }
    if data.image_url.Some? { input := input.(imageUrl := data.image_url); }
    if data.available.Some? { input := input.(available := data.available); }
    if data.category.Some? { input := input.(categoryId := data.category); }
    if data.variants.Some? { input := input.(variants := data.variants); }
  }

  /** The update input is empty exactly when the form defines none of the
      fields it carries. */
  lemma EmptyUpdateInput(input: UpdateProductInput, data: ProductPatch)
    requires CarriesDefinedFields(input, data)
    ensures input == UpdateProductInput(None, None, None, None, None, None, None)
        <==> data.(restaurant_id := None) == ProductPatch(None, None, None, None, None, None, None, None)
  {
  }

  datatype MutationReply = MutationReply(success: bool, message: string)

  /** A mutation's answer: success carries the backend's message, failure throws it. */
  function MutationOutcome(answer: OperationResult): (r: Result<MutationReply, ServiceError>)
    ensures r.Ok? <==> answer.success
    ensures r.Ok? ==> r.value == MutationReply(true, answer.message)
    ensures r.Err? ==> r.error == BackendFailure(answer.message)
  {
    if answer.success then Ok(MutationReply(true, answer.message)) else Err(BackendFailure(answer.message))
  }

  /** `updateProduct`: resolve the backend id, build the input, send the
      mutation (`sent`), and turn the answer into the reply. Nothing is sent
      when the id does not resolve. */
  method UpdateProduct(productId: int, data: ProductPatch, originalId: Option<string>,
                       listing: seq<LegacyProduct>, answer: OperationResult)
    returns (r: Result<MutationReply, ServiceError>, sent: Option<(string, UpdateProductInput)>)
    ensures ResolveForUpdate(productId, originalId, listing).Err? ==>
              sent.None? && r == Err(ProductNotFound(IntToDecimal(productId)))
    ensures ResolveForUpdate(productId, originalId, listing).Ok? ==>
              && sent.Some? && sent.value.0 == ResolveForUpdate(productId, originalId, listing).value
              && CarriesDefinedFields(sent.value.1, data)
              && r == MutationOutcome(answer)
  {
    var actualProductId := ResolveForUpdate(productId, originalId, listing);
    if actualProductId.Err? {
      return Err(actualProductId.error), None;
    }
    var input := BuildUpdateInput(data);
    sent := Some((actualProductId.value, input));
    r := MutationOutcome(answer);
  }

  /** `deleteProduct`: resolve without the fallback, then the answer. */
  function DeleteProduct(productId: int, originalId: Option<string>, listing: seq<LegacyProduct>,
                         answer: OperationResult): (r: Result<MutationReply, ServiceError>)
    ensures ResolveForDelete(productId, originalId, listing).Err? ==> r == Err(ProductNotFound(IntToDecimal(productId)))
    ensures ResolveForDelete(productId, originalId, listing).Ok? ==> r == MutationOutcome(answer)
  {
    match ResolveForDelete(productId, originalId, listing)
    case Err(e) => Err(e)
    case Ok(_) => MutationOutcome(answer)
  }

  /** The form data of a new product, every field given. */
  datatype NewProductData = NewProductData(
    name: string,
    description: string,
    price: int,
    image_url: Option<string>,
    available: bool,
    category: string,
    restaurant_id: string,
    variants: Option<seq<ProductVariant>>)

  function CreateInput(data: NewProductData, restaurantId: string): (input: CreateProductInput)
    ensures input.categoryId == data.category && input.restaurantId == restaurantId
    ensures input.name == data.name && input.description == data.description && input.price == data.price
    ensures input.imageUrl == data.image_url && input.available == data.available && input.variants == data.variants
  {
    CreateProductInput(data.name, data.description, data.price, data.image_url, data.available,
                       data.category, restaurantId, data.variants)
  }

  datatype CreateReply = CreateReply(success: bool, product_id: nat, message: string)

  /** The service's private copy of `generateNumericId`, the same loop over the
      code units. */
  method ServiceNumericId(str: string) returns (id: nat)
    ensures id == NumericId(str)
  {
    var units := Utf16(str);
    var hash := 0;
    for i := 0 to |units|
      invariant hash == HashOf(units[..i])
    {
      var code := units[i];
      ShiftStepIsHashStep(hash, code);
      assert units[..i + 1][..i] == units[..i];
      hash := ToInt32(ToInt32(32 * hash) - hash + code);
    }
    assert units[..|units|] == units;
    id := Abs(hash);
  }

  /** `createProduct`: on success the reply's `product_id` is the legacy id of
      the backend's new id; a success without an id fails (hashing `undefined`
      throws); a failure throws the backend's message. */
  method CreateProduct(data: NewProductData, restaurantId: string, answer: OperationResult)
    returns (r: Result<CreateReply, ServiceError>, sent: CreateProductInput)
    ensures sent == CreateInput(data, restaurantId)
    ensures answer.success && answer.id.Some? ==> r == Ok(CreateReply(true, NumericId(answer.id.value), answer.message))
    ensures answer.success && answer.id.None? ==> r == Err(InvalidResponse)
    ensures !answer.success ==> r == Err(BackendFailure(answer.message))
  {
    sent := CreateInput(data, restaurantId);
    if answer.success {
      if answer.id.None? {
        return Err(InvalidResponse), sent;
      }
      var numericId := ServiceNumericId(answer.id.value);
      r := Ok(CreateReply(true, numericId, answer.message));
    } else {
      r := Err(BackendFailure(answer.message));
    }
  }

  // ---------------------------------------------------------------------
  // Orders

  datatype OrderReply = OrderReply(success: bool, order_id: Option<string>, message: string)

  /** `createOrder`: the legacy form data is converted and sent; the answer
      decides the reply. */
  function CreateOrder(orderData: LegacyCreateOrderData, restaurantId: string, answer: OperationResult)
    : (r: (CreateOrderInput, Result<OrderReply, ServiceError>))
    ensures r.0 == ConvertLegacyOrderDataToGraphQL(orderData, restaurantId)
    ensures r.1.Ok? <==> answer.success
    ensures r.1.Ok? ==> r.1.value == OrderReply(true, answer.id, answer.message)
    ensures r.1.Err? ==> r.1.error == BackendFailure(answer.message)
  {
    var input := ConvertLegacyOrderDataToGraphQL(orderData, restaurantId);
    if answer.success then (input, Ok(OrderReply(true, answer.id, answer.message)))
    else (input, Err(BackendFailure(answer.message)))
  }

  /** The orders query's answer: no data at all, or data whose `orders` may be missing. */
  datatype OrdersAnswer = NoData | Data(orders: Option<seq<Order>>)

  datatype OrdersReply = OrdersReply(success: bool, restaurant_id: string, orders: seq<LegacyOrder>, total_count: int)

  const NO_DATA_MESSAGE: string := "No se recibieron datos del servidor GraphQL"

  /** `getOrders`: no data throws; missing orders count as none; every order is
      converted, in order, and `total_count` is their number. */
  function GetOrders(restaurantId: string, answer: OrdersAnswer): (r: Result<OrdersReply, ServiceError>)
    ensures answer.NoData? <==> r.Err?
    ensures r.Err? ==> r.error == BackendFailure(NO_DATA_MESSAGE)
    ensures r.Ok? ==>
              var orders := answer.orders.GetOr([]);
              && r.value.success && r.value.restaurant_id == restaurantId
              && |r.value.orders| == |orders| == r.value.total_count
              && forall i :: 0 <= i < |orders| ==> r.value.orders[i] == ConvertOrderToLegacy(orders[i])
  {
    match answer
    case NoData => Err(BackendFailure(NO_DATA_MESSAGE))
    case Data(orders) =>
      var legacy := Map(orders.GetOr([]), ConvertOrderToLegacy);
      Ok(OrdersReply(true, restaurantId, legacy, |legacy|))
  }

  /** `getOrderStatus`: the first order with the given id, else "not found". */
  function GetOrderStatus(orderId: string, orders: seq<LegacyOrder>): (r: Result<LegacyOrder, ServiceError>)
    ensures r.Ok? ==> exists i :: 0 <= i < |orders| && orders[i] == r.value && r.value.order_id == orderId
                        && forall j :: 0 <= j < i ==> orders[j].order_id != orderId
    ensures r.Err? <==> forall i :: 0 <= i < |orders| ==> orders[i].order_id != orderId
    ensures r.Err? ==> r.error == OrderNotFound(orderId)
  {
    match Find(orders, (o: LegacyOrder) => o.order_id == orderId)
    case Some(o) => Ok(o)
    case None => Err(OrderNotFound(orderId))
  }

  /** `updateOrderStatus`: the mutation's answer decides the reply. */
  function UpdateOrderStatus(answer: OperationResult): (r: Result<MutationReply, ServiceError>)
    ensures r.Ok? <==> answer.success
    ensures r.Err? ==> r.error == BackendFailure(answer.message)
  {
    MutationOutcome(answer)
  }
}
