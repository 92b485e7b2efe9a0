/** The backend's records, the legacy records the storefront pages use, the
    converters between them, and the numeric legacy product id: a 32-bit
    polynomial hash of the backend's string id. */
module GraphQLTypes {
  import opened Wrappers
  import opened Seqs
  import opened Text

  // ---------------------------------------------------------------------
  // Backend records.

  datatype ProductVariant = ProductVariant(size: string, price: int)

  datatype Category = Category(id: string, name: string, description: Option<string>)

  datatype Product = Product(
    id: string,
    name: string,
    description: string,
    price: int,
    imageUrl: Option<string>,
    available: bool,
    preparationTime: Option<int>,
    restaurantId: string,
    category: Category,
    variants: Option<seq<ProductVariant>>)

  datatype OrderProduct = OrderProduct(id: string, name: string, quantity: int, price: int, total: int)

  datatype Customer = Customer(name: string, phone: string, email: Option<string>)

  /** `createdAt`/`updatedAt` are instants, in milliseconds since the epoch. */
  datatype Order = Order(
    id: string,
    restaurantId: string,
    customer: Customer,
    products: seq<OrderProduct>,
    total: int,
    paymentMethod: string,
    deliveryMethod: string,
    mesa: Option<string>,
    deliveryAddress: Option<string>,
    status: string,
    createdAt: int,
    updatedAt: int)

  /** What every backend mutation answers. */
  datatype OperationResult = OperationResult(success: bool, message: string, id: Option<string>)

  datatype CreateProductInput = CreateProductInput(
    name: string,
    description: string,
    price: int,
    imageUrl: Option<string>,
    available: bool,
    categoryId: string,
    restaurantId: string,
    variants: Option<seq<ProductVariant>>)

  /** A partial update: `None` is a field left out of the object. */
  datatype UpdateProductInput = UpdateProductInput(
    name: Option<string>,
    description: Option<string>,
    price: Option<int>,
    imageUrl: Option<string>,
    available: Option<bool>,
    categoryId: Option<string>,
    variants: Option<seq<ProductVariant>>)

  datatype OrderProductInput = OrderProductInput(id: string, quantity: int, price: int)

  datatype CreateOrderInput = CreateOrderInput(
    customerName: string,
    customerPhone: string,
    customerEmail: string,
    restaurantId: string,
    products: seq<OrderProductInput>,
    total: int,
    paymentMethod: string,
    deliveryMethod: string,
    mesa: Option<string>,
    deliveryAddress: Option<string>)

  // ---------------------------------------------------------------------
  // Legacy records.

  datatype LegacyProduct = LegacyProduct(
    id: int,
    name: string,
    description: string,
    price: int,
    image_url: Option<string>,
    available: bool,
    preparation_time: Option<int>,
    category: Category,
    variants: Option<seq<ProductVariant>>,
    originalId: Option<string>)

  datatype LegacyOrderLine = LegacyOrderLine(id: int, name: string, nombre: Option<string>, cantidad: int, precio: int)

  datatype LegacyOrder = LegacyOrder(
    order_id: string,
    restaurant_id: string,
    customer_name: string,
    customer_phone: string,
    customer_email: string,
    products: seq<LegacyOrderLine>,
    total: int,
    payment_method: string,
    delivery_method: string,
    mesa: Option<string>,
    direccion: Option<string>,
    status: string,
    created_at: int)

  datatype LegacyOrderItem = LegacyOrderItem(id: int, cantidad: int, precio: int)

  datatype LegacyCreateOrderData = LegacyCreateOrderData(
    nombre: string,
    telefono: string,
    correo: string,
    productos: seq<LegacyOrderItem>,
    total: int,
    metodo_pago: string,
    modalidad_entrega: string,
    mesa: Option<string>,
    direccion: Option<string>)

  /** The restaurant every request defaults to. */
  const DEFAULT_RESTAURANT_ID: string := "choripam"

  // ---------------------------------------------------------------------
  // The legacy numeric id.

  const TWO_31: int := 0x8000_0000
  const TWO_32: int := 0x1_0000_0000

  /** ECMAScript's ToInt32, which the bitwise operators apply to their operands:
      the representative of `x` modulo 2^32 in [-2^31, 2^31). */
  function ToInt32(x: int): (r: int)
    ensures -TWO_31 <= r < TWO_31
    ensures r == x - TWO_32 * ((x + TWO_31) / TWO_32)
  {
    (x + TWO_31) % TWO_32 - TWO_31
  }

  /** A value already in the signed 32-bit range is left as it is. */
  lemma ToInt32InRange(x: int)
    requires -TWO_31 <= x < TWO_31
    ensures ToInt32(x) == x
  {
    assert (x + TWO_31) / TWO_32 == 0;
  }

  /** ToInt32 only sees its argument modulo 2^32. */
  lemma ToInt32Congruent(x: int, y: int, k: int)
    requires x == y + k * TWO_32
    ensures ToInt32(x) == ToInt32(y)
  {
    assert (x + TWO_31) % TWO_32 == (y + TWO_31) % TWO_32;
  }

  /** One step of the hash as the specification of it reads: `31 * h + c`,
      wrapped to a signed 32-bit integer. */
  function HashStep(h: int, c: CodeUnit): int {
    ToInt32(31 * h + c)
  }

  /** The signed 32-bit hash of a code-unit sequence, folded from the left
      starting at 0. */
  function HashOf(units: seq<CodeUnit>): (h: int)
    ensures -TWO_31 <= h < TWO_31
  {
    if units == [] then 0 else HashStep(HashOf(units[..|units| - 1]), units[|units| - 1])
  }

  /** The same polynomial over the unbounded integers:
      `units[0] * 31^(n-1) + ... + units[n-1]`. */
  function Polynomial(units: seq<CodeUnit>): int {
    if units == [] then 0 else 31 * Polynomial(units[..|units| - 1]) + units[|units| - 1]
  }

  /** The 32-bit hash is the polynomial hash reduced to a signed 32-bit integer:
      wrapping after every step and wrapping once at the end agree. */
  lemma {:induction false} HashOfIsWrappedPolynomial(units: seq<CodeUnit>)
    ensures HashOf(units) == ToInt32(Polynomial(units))
  {
    if units != [] {
      var init := units[..|units| - 1];
      var c := units[|units| - 1];
      HashOfIsWrappedPolynomial(init);
      var p := Polynomial(init);
      var q := (p + TWO_31) / TWO_32;
      assert HashOf(init) == p - TWO_32 * q;
      ToInt32Congruent(31 * Polynomial(init) + c, 31 * HashOf(init) + c, 31 * q);
    }
  }

  function Abs(x: int): nat {
    if x < 0 then -x else x
  }

  /** `generateNumericId(str)` over the code units of `str`. */
  function NumericIdOfUnits(units: seq<CodeUnit>): (r: nat)
    ensures r <= TWO_31
  {
    Abs(HashOf(units))
  }

  /** `generateNumericId(str)`: the legacy numeric id of a backend string id. */
  function NumericId(s: string): (r: nat)
    ensures r <= TWO_31
  {
    NumericIdOfUnits(Utf16(s))
  }

  /** The JavaScript step `((hash << 5) - hash) + char` followed by
      `hash & hash`: the shift wraps `32 * hash` to 32 bits, the subtraction and
      addition are exact, and `& hash` wraps the sum to 32 bits again. It is
      the specification's step `31 * hash + char` wrapped once. */
  lemma ShiftStepIsHashStep(h: int, c: CodeUnit)
    ensures ToInt32(ToInt32(32 * h) - h + c) == HashStep(h, c)
  {
    var q := (32 * h + TWO_31) / TWO_32;
    ToInt32Congruent(31 * h + c, ToInt32(32 * h) - h + c, q);
  }

  /** `generateNumericId`, loop for loop: fold the code units of `str` into a
      32-bit signed hash and return its magnitude. */
  method GenerateNumericId(str: string) returns (id: nat)
    ensures id == NumericId(str)
    ensures id <= TWO_31
  {
    var units := Utf16(str);
    var hash := 0;
    for i := 0 to |units|
      invariant hash == HashOf(units[..i])
    {
      var code := units[i];
      ShiftStepIsHashStep(hash, code);
      assert units[..i + 1][..i] == units[..i];
      hash := ToInt32(ToInt32(32 * hash) - hash + code);
    }
    assert units[..|units|] == units;
    id := Abs(hash);
  }

  /** The empty id hashes to 0: the loop body never runs. */
  lemma NumericIdEmpty()
    ensures NumericId("") == 0
  {
  }

  /** The hash of a two-unit id: `31 * x + y`, wrapped. */
  lemma HashOfPair(x: CodeUnit, y: CodeUnit)
    ensures HashOf([x, y]) == ToInt32(31 * x + y)
  {
    assert [x, y][..1] == [x];
    assert [x][..0] == [];
    assert HashOf([x]) == ToInt32(x) == x;
  }

  /** The hash is not injective: "Aa" and "BB" get the same legacy id
      (65 * 31 + 97 == 66 * 31 + 66 == 2112). */
  lemma NumericIdCollides()
    ensures "Aa" != "BB" && NumericId("Aa") == NumericId("BB") == 2112
  {
    Utf16Pair('A', 'a');
    Utf16Pair('B', 'B');
    HashOfPair(65, 97);
    HashOfPair(66, 66);
    ToInt32InRange(2112);
  }

  // ---------------------------------------------------------------------
  // Converters.

  /** `convertProductToLegacy`: the numeric id is the hash of the string id,
      which is kept as `originalId`; the other fields are copied. */
  function ConvertProductToLegacy(product: Product): (r: LegacyProduct)
    ensures r.id == NumericId(product.id) && r.originalId == Some(product.id)
    ensures r.name == product.name && r.description == product.description
    ensures r.price == product.price && r.available == product.available
    ensures r.image_url == product.imageUrl && r.preparation_time == product.preparationTime
    ensures r.category == product.category && r.variants == product.variants
  {
    LegacyProduct(
      NumericId(product.id), product.name, product.description, product.price,
      product.imageUrl, product.available, product.preparationTime,
      product.category, product.variants, Some(product.id))
  }

  function ConvertOrderLine(p: OrderProduct): LegacyOrderLine {
    LegacyOrderLine(NumericId(p.id), p.name, None, p.quantity, p.price)
  }

  /** `convertOrderToLegacy`: lines keep their order and carry the hashed id,
      the quantity as `cantidad` and the unit price as `precio`; a missing
      email becomes `""`; `total` and `status` are copied, not recomputed. */
  function ConvertOrderToLegacy(order: Order): (r: LegacyOrder)
    ensures |r.products| == |order.products|
    ensures forall i :: 0 <= i < |order.products| ==>
              && r.products[i].id == NumericId(order.products[i].id)
              && r.products[i].name == order.products[i].name
              && r.products[i].cantidad == order.products[i].quantity
              && r.products[i].precio == order.products[i].price
    ensures r.customer_email == order.customer.email.GetOr("")
    ensures r.order_id == order.id && r.restaurant_id == order.restaurantId
    ensures r.customer_name == order.customer.name && r.customer_phone == order.customer.phone
    ensures r.total == order.total && r.status == order.status && r.created_at == order.createdAt
    ensures r.payment_method == order.paymentMethod && r.delivery_method == order.deliveryMethod
    ensures r.mesa == order.mesa && r.direccion == order.deliveryAddress
  {
    LegacyOrder(
      order.id, order.restaurantId, order.customer.name, order.customer.phone,
      order.customer.email.GetOr(""), Map(order.products, ConvertOrderLine),
      order.total, order.paymentMethod, order.deliveryMethod,
      order.mesa, order.deliveryAddress, order.status, order.createdAt)
  }

  function BackendLineAmount(p: OrderProduct): int { p.price * p.quantity }

  function LegacyLineAmount(l: LegacyOrderLine): int { l.precio * l.cantidad }

  /** Converting an order keeps the amount of its lines (Σ price × quantity). */
  lemma {:induction false} ConvertOrderKeepsLineAmount(products: seq<OrderProduct>)
    ensures SumOf(Map(products, ConvertOrderLine), LegacyLineAmount) == SumOf(products, BackendLineAmount)
  {
    if products != [] {
      var init := products[..|products| - 1];
      ConvertOrderKeepsLineAmount(init);
      assert Map(products, ConvertOrderLine)[..|products| - 1] == Map(init, ConvertOrderLine);
    }
  }

  function ConvertOrderItem(p: LegacyOrderItem): OrderProductInput {
    OrderProductInput(IntToDecimal(p.id), p.cantidad, p.precio)
  }

  /** `convertLegacyOrderDataToGraphQL`: the Spanish form fields map one to one
      onto the input; each product id becomes its decimal string. */
  function ConvertLegacyOrderDataToGraphQL(data: LegacyCreateOrderData, restaurantId: string): (r: CreateOrderInput)
    ensures |r.products| == |data.productos|
    ensures forall i :: 0 <= i < |data.productos| ==>
              && r.products[i].id == IntToDecimal(data.productos[i].id)
              && r.products[i].quantity == data.productos[i].cantidad
              && r.products[i].price == data.productos[i].precio
    ensures r.customerName == data.nombre && r.customerPhone == data.telefono
    ensures r.customerEmail == data.correo && r.restaurantId == restaurantId
    ensures r.total == data.total && r.paymentMethod == data.metodo_pago
    ensures r.deliveryMethod == data.modalidad_entrega
    ensures r.mesa == data.mesa && r.deliveryAddress == data.direccion
  {
    CreateOrderInput(
      data.nombre, data.telefono, data.correo, restaurantId,
      Map(data.productos, ConvertOrderItem), data.total,
      data.metodo_pago, data.modalidad_entrega, data.mesa, data.direccion)
  }

  /** The backend can read every product id back: `Number(id.toString()) == id`. */
  lemma ConvertLegacyOrderDataIdsRoundTrip(data: LegacyCreateOrderData, restaurantId: string, i: int)
    requires 0 <= i < |data.productos|
    ensures ParseSigned(ConvertLegacyOrderDataToGraphQL(data, restaurantId).products[i].id)
         == Some(data.productos[i].id)
  {
    IntDecimalRoundTrip(data.productos[i].id);
  }

  predicate HashesTo(p: Product, numericId: int) {
    NumericId(p.id) == numericId
  }

  /** `findOriginalId`: the string id of the first product whose hash is
      `numericId`, `None` (`null`) when no product hashes to it. */
  function FindOriginalId(products: seq<Product>, numericId: int): (r: Option<string>)
    ensures r.None? <==> forall i :: 0 <= i < |products| ==> NumericId(products[i].id) != numericId
    ensures r.Some? ==> exists i :: 0 <= i < |products| && products[i].id == r.value
                          && NumericId(products[i].id) == numericId
                          && forall j :: 0 <= j < i ==> NumericId(products[j].id) != numericId
  {
    match FirstIndex(products, p => HashesTo(p, numericId))
    case None => None
    case Some(i) => Some(products[i].id)
  }

  /** Converting then looking up a product's own legacy id finds a product
      with the same legacy id; when no earlier product collides with it, the
      lookup returns the product's own string id. */
  lemma FindOriginalIdOfConverted(products: seq<Product>, i: int)
    requires 0 <= i < |products|
    requires forall j :: 0 <= j < i ==> NumericId(products[j].id) != NumericId(products[i].id)
    ensures FindOriginalId(products, ConvertProductToLegacy(products[i]).id) == Some(products[i].id)
  {
    var r := FindOriginalId(products, NumericId(products[i].id));
    var k :| 0 <= k < |products| && products[k].id == r.value
             && NumericId(products[k].id) == NumericId(products[i].id)
             && forall j :: 0 <= j < k ==> NumericId(products[j].id) != NumericId(products[i].id);
    assert !(k < i) && !(i < k);
  }
}
