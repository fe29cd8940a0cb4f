/** `Screen`: the navigation routes and the product detail route builder. */
module Navigation {
  import opened KotlinText

  const SplashRoute := "splash_screen"
  const LoginRoute := "login_screen"
  const HomeRoute := "home_screen"
  const ProductsRoute := "products_screen"
  const CategoriesRoute := "categories_screen"
  const CartRoute := "cart_screen"
  const ProfileRoute := "profile_screen"
  const ProductDetailPrefix := "product_detail_screen/"
  const ProductDetailRoute := "product_detail_screen/{productId}"

  const Routes: seq<string> :=
    [SplashRoute, LoginRoute, HomeRoute, ProductsRoute, CategoriesRoute, CartRoute, ProfileRoute, ProductDetailRoute]

  /** `ProductDetail.createRoute`: the prefix of the route pattern, then the id as given. */
  function CreateRoute(productId: string): (route: string)
    ensures |route| == |ProductDetailPrefix| + |productId|
    ensures route[..|ProductDetailPrefix|] == ProductDetailPrefix
    ensures route[|ProductDetailPrefix|..] == productId
  {
    ProductDetailPrefix + productId
  }

  /** Different product ids give different routes. */
  lemma CreateRouteInjective(p: string, q: string)
    requires CreateRoute(p) == CreateRoute(q)
    ensures p == q
  {
    assert p == CreateRoute(p)[|ProductDetailPrefix|..];
  }

  /** The route pattern and every created route share the prefix. */
  lemma PatternSharesPrefix(productId: string)
    ensures ProductDetailRoute[..|ProductDetailPrefix|] == ProductDetailPrefix
    ensures CreateRoute(productId)[..|ProductDetailPrefix|] == ProductDetailPrefix
    ensures CreateRoute("{productId}") == ProductDetailRoute
  {
  }

  /**
   * The home screen opens a product by its integer id rendered in decimal:
   * two products with different ids never share a detail route.
   */
  lemma {:induction false} ProductRoutesDistinct(id1: int, id2: int)
    requires id1 != id2
    ensures CreateRoute(IntToString(id1)) != CreateRoute(IntToString(id2))
  {
    if CreateRoute(IntToString(id1)) == CreateRoute(IntToString(id2)) {
      CreateRouteInjective(IntToString(id1), IntToString(id2));
      IntToStringInjective(id1, id2);
    }
  }

  /** The eight route strings are pairwise distinct. */
  lemma {:induction false} RoutesDistinct()
    ensures |Routes| == 8
    ensures forall i, j :: 0 <= i < j < |Routes| ==> Routes[i] != Routes[j]
  {
    forall i, j | 0 <= i < j < |Routes|
      ensures Routes[i] != Routes[j]
    {
      if |Routes[i]| == |Routes[j]| {
        assert Routes[i][0] != Routes[j][0];
      }
    }
  }
}
