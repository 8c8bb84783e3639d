/**
 * The pure core of the UCP REST client: base-URL normalisation, the target
 * URL of every call, the checks every proxied reply goes through, the
 * unwrapping of product and cart bodies, the client's mutable settings and
 * the cached client instance.
 *
 * The proxy round trip itself is outside the model: a reply is an input
 * value. Path segments that `UCPClient` passes through
 * `encodeURIComponent` are taken already encoded.
 */
module UcpClient {
  import opened Wrappers
  import opened JsValue
  import opened Text

  // ---------------------------------------------------------------------------
  // Base URL
  // ---------------------------------------------------------------------------

  predicate HasScheme(url: string) {
    StartsWith(url, "http://") || StartsWith(url, "https://")
  }

  /** `url.replace(/\/$/, '')`: one trailing slash, if any, is removed. */
  function StripTrailingSlash(url: string): (r: string)
    ensures EndsWith(url, "/") ==> |r| == |url| - 1 && url == r + "/"
    ensures !EndsWith(url, "/") ==> r == url
  {
    if |url| > 0 && url[|url| - 1] == '/' then url[..|url| - 1] else url
  }

  /** `normalizeUrl`: drop one trailing slash, then prefix `http://` unless a scheme is present. */
  function NormalizeUrl(url: string): (r: string)
    ensures HasScheme(r)
    ensures EndsWith(r, StripTrailingSlash(url))
    ensures HasScheme(StripTrailingSlash(url)) ==> r == StripTrailingSlash(url)
    ensures !HasScheme(StripTrailingSlash(url)) ==> StartsWith(r, "http://") && |r| == |StripTrailingSlash(url)| + 7
  {
    var s := StripTrailingSlash(url);
    if HasScheme(s) then s
    else
      var r := "http://" + s;
      assert r[..7] == "http://";
      assert r[|r| - |s|..] == s;
      r
  }

  /** A URL that already has a scheme and no trailing slash is left as it is. */
  lemma NormalizeUrlFixedPoint(url: string)
    requires HasScheme(url) && !EndsWith(url, "/")
    ensures NormalizeUrl(url) == url
  {
  }

  /** Normalising twice is normalising once, unless the first result still ends in a slash. */
  lemma NormalizeUrlIdempotent(url: string)
    requires !EndsWith(NormalizeUrl(url), "/")
    ensures NormalizeUrl(NormalizeUrl(url)) == NormalizeUrl(url)
  {
    NormalizeUrlFixedPoint(NormalizeUrl(url));
  }

  /**
   * A bare scheme is not recognised once its last slash is stripped, so it
   * is prefixed again: `"https://"` normalises to `"http://https:/"`.
   */
  lemma NormalizeBareScheme()
    ensures NormalizeUrl("https://") == "http://https:/"
    ensures NormalizeUrl("") == "http://" && NormalizeUrl(NormalizeUrl("")) == "http://http:/"
  {
    assert StripTrailingSlash("https://") == "https:/";
    assert !StartsWith("https:/", "https://");
    assert "https:/"[4] != "http://"[4];
    assert StripTrailingSlash("http://") == "http:/";
    assert !StartsWith("http:/", "https://");
    assert !StartsWith("http:/", "http://");
    assert !HasScheme("");
  }

  // ---------------------------------------------------------------------------
  // Endpoints
  // ---------------------------------------------------------------------------

  const CartSuffix := "/wp-json/ucp/v1/carts"
  const CheckoutSessionSuffix := "/wp-json/ucp/v1/checkout/sessions"
  const OrderSuffix := "/wp-json/ucp/v1/orders"

  /** `getCartEndpoint` */
  function CartEndpoint(base: string): (r: string)
    ensures StartsWith(r, base) && EndsWith(r, CartSuffix) && |r| == |base| + |CartSuffix|
  {
    var r := base + CartSuffix;
    assert r[..|base|] == base && r[|r| - |CartSuffix|..] == CartSuffix;
    r
  }

  /** `getCheckoutSessionEndpoint` */
  function CheckoutSessionEndpoint(base: string): (r: string)
    ensures StartsWith(r, base) && EndsWith(r, CheckoutSessionSuffix) && |r| == |base| + |CheckoutSessionSuffix|
  {
    var r := base + CheckoutSessionSuffix;
    assert r[..|base|] == base && r[|r| - |CheckoutSessionSuffix|..] == CheckoutSessionSuffix;
    r
  }

  /** `getOrderEndpoint` */
  function OrderEndpoint(base: string): (r: string)
    ensures StartsWith(r, base) && EndsWith(r, OrderSuffix) && |r| == |base| + |OrderSuffix|
  {
    var r := base + OrderSuffix;
    assert r[..|base|] == base && r[|r| - |OrderSuffix|..] == OrderSuffix;
    r
  }

  /** The base URL can be read back from every endpoint, and the three endpoints of one base differ. */
  lemma EndpointsDistinct(base: string, other: string)
    ensures CartEndpoint(base) == CartEndpoint(other) ==> base == other
    ensures CheckoutSessionEndpoint(base) == CheckoutSessionEndpoint(other) ==> base == other
    ensures OrderEndpoint(base) == OrderEndpoint(other) ==> base == other
    ensures CartEndpoint(base) != CheckoutSessionEndpoint(base)
    ensures CartEndpoint(base) != OrderEndpoint(base)
    ensures CheckoutSessionEndpoint(base) != OrderEndpoint(base)
  {
    if CartEndpoint(base) == CartEndpoint(other) {
      assert base == CartEndpoint(base)[..|base|];
    }
    if CheckoutSessionEndpoint(base) == CheckoutSessionEndpoint(other) {
      assert base == CheckoutSessionEndpoint(base)[..|base|];
    }
    if OrderEndpoint(base) == OrderEndpoint(other) {
      assert base == OrderEndpoint(base)[..|base|];
    }
    var s, o := CheckoutSessionEndpoint(base), OrderEndpoint(base);
    assert s[|base| + 16] == CheckoutSessionSuffix[16] == 'c';
    assert o[|base| + 16] == OrderSuffix[16] == 'o';
  }

  /** `x ? ... : ...` on an optional string: given and non-empty. */
  predicate Given(s: Option<string>) {
    s.Some? && s.value != ""
  }

  /** One call of the client, with the path segments it interpolates. */
  datatype Operation =
    | Discover
    | GetProducts(productsEndpoint: Option<string>)
    | GetProductById(productId: string, baseEndpoint: Option<string>)
    | CreateCart
    | GetCart(cartId: string)
    | AddToCart(cartId: string)
    | UpdateCartItem(cartId: string, itemKey: string)
    | RemoveCartItem(cartId: string, itemKey: string)
    | ConvertCartToCheckout(cartId: string)
    | DeleteCart(cartId: string)
    | CreateCheckout
    | GetCheckout(encodedId: string)
    | UpdateCheckout(encodedId: string)
    | CompleteCheckout(encodedId: string)
    | CancelCheckout(encodedId: string)
    | GetOrder(encodedId: string)
  {
    /** The call targets an endpoint the caller supplied rather than one under the base URL. */
    predicate CallerEndpoint() {
      (GetProducts? && Given(productsEndpoint)) || (GetProductById? && Given(baseEndpoint))
    }

    predicate OnCart() {
      CreateCart? || GetCart? || AddToCart? || UpdateCartItem? || RemoveCartItem? || ConvertCartToCheckout? || DeleteCart?
    }

    predicate OnCheckoutSession() {
      GetCheckout? || UpdateCheckout? || CompleteCheckout? || CancelCheckout?
    }

    /** The calls whose body is also checked for an HTML page. */
    predicate ChecksHtml() {
      CreateCheckout? || OnCheckoutSession() || GetOrder?
    }
  }

  /** The URL each call asks the proxy to fetch. */
  function TargetUrl(base: string, op: Operation): (r: string)
    ensures op.GetProducts? && Given(op.productsEndpoint) ==> r == op.productsEndpoint.value
    ensures !op.CallerEndpoint() ==> |r| > |base| && r[..|base|] == base
  {
    match op
    case Discover => base + "/.well-known/ucp"
    case GetProducts(e) => if Given(e) then e.value else base + "/products"
    case GetProductById(id, e) =>
      if Given(e) then StripTrailingSlash(e.value) + "/" + id else base + "/products/" + id
    case CreateCart => CartEndpoint(base)
    case GetCart(c) => CartEndpoint(base) + "/" + c
    case AddToCart(c) => CartEndpoint(base) + "/" + c + "/items"
    case UpdateCartItem(c, k) => CartEndpoint(base) + "/" + c + "/items/" + k
    case RemoveCartItem(c, k) => CartEndpoint(base) + "/" + c + "/items/" + k
    case ConvertCartToCheckout(c) => CartEndpoint(base) + "/" + c + "/checkout"
    case DeleteCart(c) => CartEndpoint(base) + "/" + c
    case CreateCheckout => base + "/checkout-sessions"
    case GetCheckout(i) => CheckoutSessionEndpoint(base) + "/" + i
    case UpdateCheckout(i) => CheckoutSessionEndpoint(base) + "/" + i
    case CompleteCheckout(i) => CheckoutSessionEndpoint(base) + "/" + i + "/complete"
    case CancelCheckout(i) => CheckoutSessionEndpoint(base) + "/" + i + "/cancel"
    case GetOrder(i) => OrderEndpoint(base) + "/" + i
  }

  lemma StartsWithConcat(a: string, b: string)
    ensures StartsWith(a + b, a)
  {
    assert (a + b)[..|a|] == a;
  }

  lemma StartsWithTrans(s: string, p: string, q: string)
    requires StartsWith(s, p) && StartsWith(p, q)
    ensures StartsWith(s, q)
  {
    assert s[..|q|] == s[..|p|][..|q|];
  }

  /** A URL that starts with `<endpoint>/`, where the endpoint starts with `<base>/`, starts with `<base>/`. */
  lemma SlashedPrefix(r: string, endpoint: string, base: string)
    requires StartsWith(r, endpoint + "/") && StartsWith(endpoint, base + "/")
    ensures StartsWith(r, base + "/")
  {
    StartsWithConcat(endpoint, "/");
    StartsWithTrans(r, endpoint + "/", endpoint);
    StartsWithTrans(r, endpoint, base + "/");
  }

  /** Appending to a string keeps its prefixes. */
  lemma StartsWithExtend(p: string, x: string, q: string)
    requires StartsWith(p, q)
    ensures StartsWith(p + x, q)
  {
    assert (p + x)[..|q|] == p[..|q|];
  }

  /** `base` followed by a path that begins with a slash starts with `base + "/"`. */
  lemma UnderSlash(base: string, path: string)
    requires |path| > 0 && path[0] == '/'
    ensures StartsWith(base + path, base + "/")
  {
    assert (base + path)[..|base| + 1] == base + "/";
  }

  /** Cart calls go to paths under the cart endpoint. */
  lemma CartUrlUnderCartEndpoint(base: string, op: Operation)
    requires op.OnCart()
    ensures StartsWith(TargetUrl(base, op), CartEndpoint(base))
  {
    var cart := CartEndpoint(base);
    StartsWithExtend(cart, "/", cart);
    match op {
      case CreateCart =>
      case GetCart(c) =>
        StartsWithExtend(cart + "/", c, cart);
      case DeleteCart(c) =>
        StartsWithExtend(cart + "/", c, cart);
      case AddToCart(c) =>
        StartsWithExtend(cart + "/", c, cart);
        StartsWithExtend(cart + "/" + c, "/items", cart);
      case UpdateCartItem(c, k) =>
        StartsWithExtend(cart + "/", c, cart);
        StartsWithExtend(cart + "/" + c, "/items/", cart);
        StartsWithExtend(cart + "/" + c + "/items/", k, cart);
      case RemoveCartItem(c, k) =>
        StartsWithExtend(cart + "/", c, cart);
        StartsWithExtend(cart + "/" + c, "/items/", cart);
        StartsWithExtend(cart + "/" + c + "/items/", k, cart);
      case ConvertCartToCheckout(c) =>
        StartsWithExtend(cart + "/", c, cart);
        StartsWithExtend(cart + "/" + c, "/checkout", cart);
    }
  }

  /** Checkout-session calls go to paths under the session endpoint. */
  lemma SessionUrlUnderSessionEndpoint(base: string, op: Operation)
    requires op.OnCheckoutSession()
    ensures StartsWith(TargetUrl(base, op), CheckoutSessionEndpoint(base) + "/")
  {
    var p := CheckoutSessionEndpoint(base) + "/";
    match op {
      case GetCheckout(i) =>
        StartsWithExtend(p, i, p);
      case UpdateCheckout(i) =>
        StartsWithExtend(p, i, p);
      case CompleteCheckout(i) =>
        StartsWithExtend(p, i, p);
        StartsWithExtend(p + i, "/complete", p);
      case CancelCheckout(i) =>
        StartsWithExtend(p, i, p);
        StartsWithExtend(p + i, "/cancel", p);
    }
  }

  /**
   * Every call that does not take a caller-supplied endpoint goes to a path
   * under the base URL: cart calls under the cart endpoint, checkout-session
   * calls under the session endpoint, order lookups under the order endpoint.
   */
  lemma TargetUrlUnderBase(base: string, op: Operation)
    ensures !op.CallerEndpoint() ==> StartsWith(TargetUrl(base, op), base + "/")
    ensures op.OnCart() ==> StartsWith(TargetUrl(base, op), CartEndpoint(base))
    ensures op.OnCheckoutSession() ==> StartsWith(TargetUrl(base, op), CheckoutSessionEndpoint(base) + "/")
    ensures op.GetOrder? ==> StartsWith(TargetUrl(base, op), OrderEndpoint(base) + "/")
  {
    var b := base + "/";
    var r := TargetUrl(base, op);
    if op.OnCart() {
      CartUrlUnderCartEndpoint(base, op);
      UnderSlash(base, CartSuffix);
      StartsWithTrans(r, CartEndpoint(base), b);
    } else if op.OnCheckoutSession() {
      SessionUrlUnderSessionEndpoint(base, op);
      var session := CheckoutSessionEndpoint(base);
      UnderSlash(base, CheckoutSessionSuffix);
      StartsWithExtend(session, "/", b);
      StartsWithTrans(r, session + "/", b);
    } else if op.GetOrder? {
      var order := OrderEndpoint(base);
      StartsWithExtend(order + "/", op.encodedId, order + "/");
      UnderSlash(base, OrderSuffix);
      StartsWithExtend(order, "/", b);
      StartsWithTrans(r, order + "/", b);
    } else if op.Discover? {
      UnderSlash(base, "/.well-known/ucp");
    } else if op.CreateCheckout? {
      UnderSlash(base, "/checkout-sessions");
    } else if op.GetProducts? {
      UnderSlash(base, "/products");
    } else {
      UnderSlash(base, "/products/");
      StartsWithExtend(base + "/products/", op.productId, b);
    }
  }

  /**
   * `createCheckout` posts to `<base>/checkout-sessions`, which is not under
   * the session endpoint that the other checkout calls use.
   */
  lemma CreateCheckoutOutsideSessions(base: string)
    ensures !StartsWith(TargetUrl(base, CreateCheckout), CheckoutSessionEndpoint(base))
  {
    assert |TargetUrl(base, CreateCheckout)| < |CheckoutSessionEndpoint(base)|;
  }

  /**
   * With a caller-supplied base endpoint, the product URL is that endpoint,
   * one trailing slash removed, then `/<id>`; without one it is the base URL
   * followed by `/products/<id>`.
   */
  lemma ProductByIdUrl(base: string, productId: string, baseEndpoint: Option<string>)
    ensures Given(baseEndpoint) && EndsWith(baseEndpoint.value, "/") ==>
              TargetUrl(base, GetProductById(productId, baseEndpoint)) == baseEndpoint.value + productId
    ensures Given(baseEndpoint) && !EndsWith(baseEndpoint.value, "/") ==>
              TargetUrl(base, GetProductById(productId, baseEndpoint)) == baseEndpoint.value + "/" + productId
    ensures !Given(baseEndpoint) ==> TargetUrl(base, GetProductById(productId, baseEndpoint)) == base + "/products/" + productId
  {
    if Given(baseEndpoint) && EndsWith(baseEndpoint.value, "/") {
      var e := baseEndpoint.value;
      assert e == StripTrailingSlash(e) + "/";
    }
  }

  // ---------------------------------------------------------------------------
  // Reply checks and unwrapping
  // ---------------------------------------------------------------------------

  /** The JSON envelope the proxy returns. Headers are not read by the client. */
  datatype ProxyReply = ProxyReply(status: int, statusText: string, data: Value, error: Value)

  /** Why a call throws instead of returning. */
  datatype Rejection =
    | ProxyFailed(message: Value)
    | HttpFailed(status: int, statusText: string)
    | HtmlPage

  /** A string body that is an HTML page rather than JSON. */
  predicate IsHtml(v: Value) {
    v.Str? && (Contains(v.s, "<!DOCTYPE") || Contains(v.s, "<html"))
  }

  /**
   * The checks every call applies to the proxy's reply, in order: a truthy
   * `error`, then a status of 400 or more, then (checkout and order calls
   * only) an HTML body.
   */
  function CheckReply(op: Operation, reply: ProxyReply): (r: Result<Value, Rejection>)
    ensures r.Ok? <==> !Truthy(reply.error) && reply.status < 400 && !(op.ChecksHtml() && IsHtml(reply.data))
    ensures r.Ok? ==> r.value == reply.data
    ensures Truthy(reply.error) ==> r == Err(ProxyFailed(reply.error))
    ensures !Truthy(reply.error) && reply.status >= 400 ==> r == Err(HttpFailed(reply.status, reply.statusText))
    ensures r == Err(HtmlPage) ==> op.ChecksHtml() && IsHtml(reply.data)
  {
    if Truthy(reply.error) then Err(ProxyFailed(reply.error))
    else if reply.status >= 400 then Err(HttpFailed(reply.status, reply.statusText))
    else if op.ChecksHtml() && IsHtml(reply.data) then Err(HtmlPage)
    else Ok(reply.data)
  }

  /** A body that merely mentions an HTML tag inside a JSON object is not rejected; a page served with status 200 on a checkout call is. */
  lemma HtmlCheckOnlyOnStrings(op: Operation, status: int, statusText: string, page: string)
    requires status < 400 && op.ChecksHtml()
    requires Contains(page, "<html")
    ensures CheckReply(op, ProxyReply(status, statusText, Str(page), Undefined)) == Err(HtmlPage)
    ensures CheckReply(op, ProxyReply(status, statusText, Obj([("body", Str(page))]), Undefined)).Ok?
    ensures CheckReply(CreateCart, ProxyReply(status, statusText, Str(page), Undefined)).Ok?
  {
  }

  /** Every value is an object (`v && typeof v === 'object'`). */
  predicate AllObjects(vs: seq<Value>) {
    forall i :: 0 <= i < |vs| ==> IsObject(vs[i])
  }

  /** The product list in a `getProducts` body. */
  function ExtractProducts(data: Value): (r: seq<Value>)
    ensures data.Arr? ==> r == data.elems
    ensures !IsObject(data) ==> r == []
    ensures data.Obj? && Get(data, "products").Arr? ==> r == Get(data, "products").elems
    ensures data.Obj? && !Get(data, "products").Arr? && Get(data, "items").Arr? ==> r == Get(data, "items").elems
    ensures data.Obj? && !Get(data, "products").Arr? && !Get(data, "items").Arr? && Get(data, "data").Arr? ==>
              r == Get(data, "data").elems
    ensures data.Obj? && !Get(data, "products").Arr? && !Get(data, "items").Arr? && !Get(data, "data").Arr? ==>
              (|data.props| > 0 && AllObjects(Values(data.props)) ==> r == Values(data.props)) &&
              (!(|data.props| > 0 && AllObjects(Values(data.props))) ==> r == [])
  {
    match data
    case Arr(xs) => xs
    case Obj(props) =>
      if Get(data, "products").Arr? then Get(data, "products").elems
      else if Get(data, "items").Arr? then Get(data, "items").elems
      else if Get(data, "data").Arr? then Get(data, "data").elems
      else
        var values := Values(props);
        if |values| > 0 && AllObjects(values) then values else []
    case _ => []
  }

  /** Whatever wrapper a product list arrives in, the same list comes out. */
  lemma ExtractProductsWrappers(products: seq<Value>)
    ensures ExtractProducts(Arr(products)) == products
    ensures ExtractProducts(Obj([("products", Arr(products))])) == products
    ensures ExtractProducts(Obj([("items", Arr(products))])) == products
    ensures ExtractProducts(Obj([("data", Arr(products))])) == products
  {
    LookupSingle("items", Arr(products), "products");
    LookupSingle("data", Arr(products), "products");
    LookupSingle("data", Arr(products), "items");
  }

  /** The wrapper keys, in the order they are tried. */
  const WrapperKeys := ["products", "items", "data"]

  /** Every extracted product is a value found in the body: an element of it, of one of its wrapper arrays, or an object property. */
  lemma ExtractProductsFromBody(data: Value, p: Value)
    requires p in ExtractProducts(data)
    ensures (data.Arr? && p in data.elems)
         || (data.Obj? && exists k :: 0 <= k < 3 && Get(data, WrapperKeys[k]).Arr? && p in Get(data, WrapperKeys[k]).elems)
         || (data.Obj? && p in Values(data.props) && IsObject(p))
  {
    if data.Obj? {
      if Get(data, "products").Arr? {
        assert WrapperKeys[0] == "products";
      } else if Get(data, "items").Arr? {
        assert WrapperKeys[1] == "items";
      } else if Get(data, "data").Arr? {
        assert WrapperKeys[2] == "data";
      } else {
        var r := ExtractProducts(data);
        var i :| 0 <= i < |r| && r[i] == p;
      }
    }
  }

  lemma LookupSingle(k: string, v: Value, key: string)
    ensures Lookup([(k, v)], key) == if k == key then v else Undefined
  {
    assert [(k, v)][1..] == [];
  }

  /** The product in a `getProductById` body: a truthy `product`, else an object `data`, else the body; `null` for a non-object. */
  function UnwrapProduct(data: Value): (r: Value)
    ensures !IsObject(data) ==> r == Null
    ensures IsObject(data) && Truthy(Get(data, "product")) ==> r == Get(data, "product")
    ensures IsObject(data) && !Truthy(Get(data, "product")) && IsObject(Get(data, "data")) ==> r == Get(data, "data")
    ensures IsObject(data) && !Truthy(Get(data, "product")) && !IsObject(Get(data, "data")) ==> r == data
  {
    if !IsObject(data) then Null
    else if Truthy(Get(data, "product")) then Get(data, "product")
    else if IsObject(Get(data, "data")) then Get(data, "data")
    else data
  }

  /** A wrapped product is unwrapped, and a bare product object is returned as it is. */
  lemma UnwrapProductRoundTrip(product: Value, props: seq<(string, Value)>)
    requires IsObject(product)
    requires Lookup(props, "product") == Undefined && Lookup(props, "data") == Undefined
    ensures UnwrapProduct(Obj([("product", product)])) == product
    ensures UnwrapProduct(Obj([("data", product)])) == product
    ensures UnwrapProduct(Obj(props)) == Obj(props)
  {
    LookupSingle("data", product, "product");
    LookupSingle("product", product, "product");
    LookupSingle("data", product, "data");
  }

  /** The cart in a cart-call body: a truthy `cart` property, else the body itself. */
  function UnwrapCart(data: Value): (r: Value)
    ensures IsObject(data) && Truthy(Get(data, "cart")) ==> r == Get(data, "cart")
    ensures !(IsObject(data) && Truthy(Get(data, "cart"))) ==> r == data
  {
    if IsObject(data) && Truthy(Get(data, "cart")) then Get(data, "cart") else data
  }

  /** Unwrapping undoes the `{ cart: ... }` wrapper, and leaves an unwrapped cart as it is. */
  lemma UnwrapCartRoundTrip(cart: Value, props: seq<(string, Value)>)
    requires Truthy(cart) && !Truthy(Lookup(props, "cart"))
    ensures UnwrapCart(Obj([("cart", cart)])) == cart
    ensures UnwrapCart(Obj(props)) == Obj(props)
  {
  }

  // ---------------------------------------------------------------------------
  // Client state and the cached instance
  // ---------------------------------------------------------------------------

  const DefaultPlatformProfile := "https://ucp-browser.local/profile"
  const ProxyPath := "/api/proxy"
  const DefaultBaseUrl := "http://localhost:8080"

  /** `a || b` on an optional string. */
  function OrElse(s: Option<string>, default: string): (r: string)
    ensures Given(s) ==> r == s.value
    ensures !Given(s) ==> r == default
  {
    if Given(s) then s.value else default
  }

  class Client {
    var baseUrl: string
    var platformProfile: string
    var proxyUrl: string
    var apiKey: string

    /** The base URL is always in normal form. */
    predicate Valid()
      reads this
    {
      HasScheme(baseUrl)
    }

    constructor (url: string, profile: Option<string>, key: Option<string>)
      ensures Valid()
      ensures baseUrl == NormalizeUrl(url)
      ensures platformProfile == OrElse(profile, DefaultPlatformProfile)
      ensures proxyUrl == ProxyPath
      ensures apiKey == OrElse(key, "")
    {
      baseUrl := NormalizeUrl(url);
      platformProfile := OrElse(profile, DefaultPlatformProfile);
      proxyUrl := ProxyPath;
      apiKey := OrElse(key, "");
    }

    /** `setBaseUrl`: stores the normalised URL; nothing else changes. */
    method SetBaseUrl(url: string)
      modifies this`baseUrl
      ensures Valid() && baseUrl == NormalizeUrl(url)
    {
      baseUrl := NormalizeUrl(url);
    }

    /** `getBaseUrl` */
    method GetBaseUrl() returns (url: string)
      requires Valid()
      ensures url == baseUrl && HasScheme(url)
    {
      url := baseUrl;
    }

    /** `setApiKey`: stores the key as given; nothing else changes. */
    method SetApiKey(key: string)
      modifies this`apiKey
      ensures apiKey == key
    {
      apiKey := key;
    }

    /** `getApiKey` */
    method GetApiKey() returns (key: string)
      ensures key == apiKey
    {
      key := apiKey;
    }

    /** `getCartEndpoint`, `getCheckoutSessionEndpoint`, `getOrderEndpoint` on the current base URL. */
    method Endpoints() returns (cart: string, session: string, order: string)
      requires Valid()
      ensures cart == CartEndpoint(baseUrl) && session == CheckoutSessionEndpoint(baseUrl) && order == OrderEndpoint(baseUrl)
      ensures HasScheme(cart) && HasScheme(session) && HasScheme(order)
    {
      cart, session, order := CartEndpoint(baseUrl), CheckoutSessionEndpoint(baseUrl), OrderEndpoint(baseUrl);
      var scheme := if StartsWith(baseUrl, "http://") then "http://" else "https://";
      StartsWithTrans(cart, baseUrl, scheme);
      StartsWithTrans(session, baseUrl, scheme);
      StartsWithTrans(order, baseUrl, scheme);
    }
  }

  /** Setting a base URL and reading it back yields its normal form. */
  method SetThenGetBaseUrl(c: Client, url: string) returns (got: string)
    modifies c
    ensures got == NormalizeUrl(url) && HasScheme(got)
  {
    c.SetBaseUrl(url);
    got := c.GetBaseUrl();
  }

  /** The module-level `clientInstance` and `getUCPClient`. */
  class ClientCache {
    var instance: Client?

    /** A cached client has a normalised base URL. */
    predicate Valid()
      reads this, instance
    {
      instance != null ==> instance.Valid()
    }

    constructor ()
      ensures Valid() && instance == null
    {
      instance := null;
    }

    /**
     * The cached client is returned unless there is none or a non-empty
     * `baseUrl` is given that differs from its base URL; otherwise a fresh
     * client for `baseUrl` (or the default) replaces it. The cached base is
     * normalised and the argument is not compared in normal form, so an
     * argument without a scheme always yields a fresh client.
     */
    method GetClient(baseUrl: Option<string>) returns (c: Client)
      requires Valid()
      modifies this`instance
      ensures Valid() && instance == c && c.Valid()
      ensures old(instance) != null && !(Given(baseUrl) && old(instance.baseUrl) != baseUrl.value) ==> c == old(instance)
      ensures old(instance) == null || (Given(baseUrl) && old(instance.baseUrl) != baseUrl.value) ==>
                && fresh(c)
                && c.baseUrl == NormalizeUrl(OrElse(baseUrl, DefaultBaseUrl))
                && c.platformProfile == DefaultPlatformProfile
                && c.apiKey == ""
      ensures Given(baseUrl) && !HasScheme(baseUrl.value) ==> fresh(c)
    {
      if instance == null || (Given(baseUrl) && instance.baseUrl != baseUrl.value) {
        c := new Client(OrElse(baseUrl, DefaultBaseUrl), None, None);
        instance := c;
      } else {
        c := instance;
      }
    }
  }
}
