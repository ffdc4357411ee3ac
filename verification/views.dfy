/** The page the single-page app shows: the home grid, the full shop, or one
    product's detail page. */
module Views {

  datatype View = Home | Shop | ProductPage

  /** The view's name as the components compare it ('home', 'shop',
      'product'). */
  function Id(v: View): string {
    match v
    case Home => "home"
    case Shop => "shop"
    case ProductPage => "product"
  }

  /** Distinct views have distinct names. */
  lemma IdInjective(v: View, w: View)
    requires Id(v) == Id(w)
    ensures v == w
  {
    assert Id(v)[0] == Id(w)[0];
  }
}
