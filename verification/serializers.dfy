/** The hand-written validators of the server's serializers: registration's
    password confirmation and user creation, the cart-item product and stock
    checks, and a category's count of active products. */
module Serializers {
  import opened Wrappers
  import opened ServerStore

  datatype ValidationError =
    | PasswordMismatch
    | MissingKey(key: string)
    | ProductNotFound
    | InsufficientStock(available: int)

  /** Request fields by name. */
  type Attrs = map<string, string>

  /** `RegisterSerializer.validate`. Both password fields are declared
      required, so they are present whenever this runs. */
  function ValidateRegistration(attrs: Attrs): (r: Result<Attrs, ValidationError>)
    requires "password" in attrs && "password2" in attrs
    ensures r.Err? <==> attrs["password"] != attrs["password2"]
    ensures r.Err? ==> r.error == PasswordMismatch
    ensures r.Ok? ==> r.value == attrs
  {
    if attrs["password"] != attrs["password2"] then Err(PasswordMismatch) else Ok(attrs)
  }

  /** `RegisterSerializer.create`: the fields the user is built from, which are
      the validated data with the confirmation popped off (`pop` without a
      default fails when the key is absent). */
  function UserFields(validated: Attrs): (r: Result<Attrs, ValidationError>)
    ensures r.Err? <==> "password2" !in validated
    ensures r.Ok? ==> "password2" !in r.value && r.value.Keys == validated.Keys - {"password2"}
    ensures r.Ok? ==> forall k :: k in r.value ==> r.value[k] == validated[k]
  {
    if "password2" !in validated then Err(MissingKey("password2"))
    else Ok(validated - {"password2"})
  }

  /** Validation then creation: a registration goes through exactly when the
      two passwords agree, and the user gets that password and every other
      field, but never the confirmation field. */
  lemma RegistrationFlow(attrs: Attrs)
    requires "password" in attrs && "password2" in attrs
    ensures ValidateRegistration(attrs).Ok? <==> attrs["password"] == attrs["password2"]
    ensures ValidateRegistration(attrs).Ok? ==>
              var u := UserFields(ValidateRegistration(attrs).value);
              u.Ok? && "password" in u.value && u.value["password"] == attrs["password2"] &&
              "password2" !in u.value &&
              forall k :: k in attrs && k != "password2" ==> k in u.value && u.value[k] == attrs[k]
  {
  }

  datatype CartItemAttrs = CartItemAttrs(productId: ProductId, quantity: int)

  /** `CartItemSerializer.validate_product_id`. */
  function ValidateProductId(products: map<ProductId, Product>, id: ProductId): (r: Result<ProductId, ValidationError>)
    ensures r.Err? <==> !IsActive(products, id)
    ensures r.Err? ==> r.error == ProductNotFound
    ensures r.Ok? ==> r.value == id
  {
    if IsActive(products, id) then Ok(id) else Err(ProductNotFound)
  }

  /** Field validation of `product_id` followed by `CartItemSerializer.validate`. */
  function ValidateCartItem(products: map<ProductId, Product>, attrs: CartItemAttrs): (r: Result<CartItemAttrs, ValidationError>)
    ensures r.Ok? <==> IsActive(products, attrs.productId) && attrs.quantity <= products[attrs.productId].stock
    ensures r.Ok? ==> r.value == attrs
    ensures !IsActive(products, attrs.productId) ==> r == Err(ProductNotFound)
    ensures IsActive(products, attrs.productId) && attrs.quantity > products[attrs.productId].stock ==>
              r == Err(InsufficientStock(products[attrs.productId].stock))
  {
    match ValidateProductId(products, attrs.productId)
    case Err(e) => Err(e)
    case Ok(id) =>
      var stock := products[id].stock;
      if attrs.quantity > stock then Err(InsufficientStock(stock)) else Ok(attrs)
  }

  /** The active products of a category. */
  function ActiveIn(products: map<ProductId, Product>, c: int): set<ProductId>
  {
    set id | id in products && products[id].category == c && products[id].isActive
  }

  /** `CategorySerializer.get_product_count`. */
  function ProductCount(products: map<ProductId, Product>, c: int): (r: nat)
    ensures r <= |products.Keys|
    ensures r == 0 <==> forall id :: id in products && products[id].category == c ==> !products[id].isActive
  {
    ActiveInFacts(products, c);
    |ActiveIn(products, c)|
  }

  lemma ActiveInFacts(products: map<ProductId, Product>, c: int)
    ensures |ActiveIn(products, c)| <= |products.Keys|
    ensures |ActiveIn(products, c)| == 0 <==>
              forall id :: id in products && products[id].category == c ==> !products[id].isActive
  {
    var s := ActiveIn(products, c);
    SubsetCard(s, products.Keys);
    if !forall id :: id in products && products[id].category == c ==> !products[id].isActive {
      var id :| id in products && products[id].category == c && products[id].isActive;
      assert id in s;
      SubsetCard({id}, s);
    }
  }

  lemma SubsetCard<T>(a: set<T>, b: set<T>)
    requires a <= b
    ensures |a| <= |b|
  {
    assert b == a + (b - a);
  }

  /** Deactivating an active product of the category lowers the count by one;
      changing any product of another category leaves it alone. */
  lemma ProductCountChanges(products: map<ProductId, Product>, c: int, id: ProductId, p: Product)
    requires id in products
    ensures products[id].category == c && products[id].isActive && p == products[id].(isActive := false) ==>
              ProductCount(products[id := p], c) == ProductCount(products, c) - 1
    ensures products[id].category != c && p.category != c ==>
              ProductCount(products[id := p], c) == ProductCount(products, c)
  {
    var after := products[id := p];
    if products[id].category == c && products[id].isActive && p == products[id].(isActive := false) {
      assert ActiveIn(after, c) == ActiveIn(products, c) - {id};
    }
    if products[id].category != c && p.category != c {
      assert ActiveIn(after, c) == ActiveIn(products, c);
    }
  }
}
