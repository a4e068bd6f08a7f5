/** The derived views of the dashboard page: the filtered product list, the
    three status lanes, and the category and supplier filter options. All are
    pure functions of the product list and the three filter strings. */
module Views {
  import opened Text
  import opened Sequences
  import opened Products

  /** The filter predicate: the lower-cased name contains the lower-cased search
      term, and an empty category/supplier filter means "any". With all three
      filters empty every product matches. */
  function Matches(p: Product, search: string, category: string, supplier: string): (r: bool)
    ensures search == "" && category == "" && supplier == "" ==> r
  {
    IncludesEmpty(ToLower(p.name));
    && Includes(ToLower(p.name), ToLower(search))
    && (category == "" || p.category == category)
    && (supplier == "" || p.supplier == supplier)
  }

  /** The filter never looks at `status`. */
  lemma MatchesIgnoresStatus(p: Product, s: Status, search: string, category: string, supplier: string)
    ensures Matches(p.(status := s), search, category, supplier) == Matches(p, search, category, supplier)
  {
  }

  /** The search ignores the case of the term: searching for its lower-cased
      form gives the same answer. */
  lemma MatchesIgnoresCase(p: Product, search: string, category: string, supplier: string)
    ensures Matches(p, ToLower(search), category, supplier) == Matches(p, search, category, supplier)
  {
    ToLowerIdempotent(search);
  }

  /** `filteredProducts`: the products that match, in list order. */
  function FilteredView(ps: seq<Product>, search: string, category: string, supplier: string): (r: seq<Product>)
    ensures forall p :: p in r <==> p in ps && Matches(p, search, category, supplier)
    ensures forall p :: multiset(r)[p] == if Matches(p, search, category, supplier) then multiset(ps)[p] else 0
    ensures IsSubsequence(r, ps)
  {
    Filter(ps, (p: Product) => Matches(p, search, category, supplier))
  }

  /** The first product is in the view exactly when it matches. */
  lemma ViewUnfold(ps: seq<Product>, search: string, category: string, supplier: string)
    requires ps != []
    ensures FilteredView(ps, search, category, supplier)
            == (if Matches(ps[0], search, category, supplier) then [ps[0]] else [])
               + FilteredView(ps[1..], search, category, supplier)
  {
  }

  /** With all three filters empty, the view is the whole list. */
  lemma EmptyFiltersShowAll(ps: seq<Product>)
    ensures FilteredView(ps, "", "", "") == ps
  {
    forall i | 0 <= i < |ps|
      ensures Matches(ps[i], "", "", "")
    {
      IncludesEmpty(ToLower(ps[i].name));
    }
    FilterKeepsAll(ps, (p: Product) => Matches(p, "", "", ""));
  }

  /** Searching "iphone" finds "iPhone 15 Pro" (the search ignores case) and
      not "Gaming Chair": the view of these two records is the first alone. */
  lemma SearchScenario()
    ensures var iphone := Product(1, "iPhone 15 Pro", "Electronics", 25, "Apple Inc", InStock);
            var chair := Product(3, "Gaming Chair", "Furniture", 0, "Herman Miller", OutOfStock);
            FilteredView([iphone, chair], "iphone", "", "") == [iphone]
  {
    var iphone := Product(1, "iPhone 15 Pro", "Electronics", 25, "Apple Inc", InStock);
    var chair := Product(3, "Gaming Chair", "Furniture", 0, "Herman Miller", OutOfStock);
    IphoneMatches(iphone);
    ChairDoesNotMatch(chair);
    var keep := (p: Product) => Matches(p, "iphone", "", "");
    assert Filter([chair], keep) == Filter([], keep);
    assert Filter([iphone, chair], keep) == [iphone] + Filter([chair], keep);
  }

  lemma IphoneMatches(p: Product)
    requires p.name == "iPhone 15 Pro"
    ensures Matches(p, "iphone", "", "")
  {
    var n, t := ToLower(p.name), ToLower("iphone");
    assert forall j :: 0 <= j < |t| ==> n[j] == t[j];
    assert n[0..|t|] == t;
    assert OccursAt(n, t, 0);
  }

  lemma ChairDoesNotMatch(p: Product)
    requires p.name == "Gaming Chair"
    ensures !Matches(p, "iphone", "", "")
  {
    var n, t := ToLower(p.name), ToLower("iphone");
    assert t[1] == 'p';
    assert forall j :: 0 <= j < |n| ==> n[j] != 'p';
    forall i | OccursAt(n, t, i)
      ensures false
    {
      OccursAtStart(n, t, i);
    }
  }

  /** One lane of the board: the view's products with the given status, in order. */
  function Lane(view: seq<Product>, s: Status): (r: seq<Product>)
    ensures forall p :: p in r <==> p in view && p.status == s
    ensures forall p :: multiset(r)[p] == if p.status == s then multiset(view)[p] else 0
  {
    Filter(view, (p: Product) => p.status == s)
  }

  /** The size of a lane, counted from the first product on. */
  lemma LaneCount(ps: seq<Product>, s: Status)
    requires ps != []
    ensures |Lane(ps, s)| == (if ps[0].status == s then 1 else 0) + |Lane(ps[1..], s)|
  {
    assert Lane(ps, s) == (if ps[0].status == s then [ps[0]] else []) + Lane(ps[1..], s);
  }

  /** The three lanes partition the view: together they hold every product of
      the view exactly as often as the view does. */
  lemma LanesPartition(view: seq<Product>)
    ensures multiset(Lane(view, InStock)) + multiset(Lane(view, LowStock)) + multiset(Lane(view, OutOfStock))
            == multiset(view)
  {
    var a, b, c := multiset(Lane(view, InStock)), multiset(Lane(view, LowStock)), multiset(Lane(view, OutOfStock));
    forall p: Product
      ensures (a + b + c)[p] == multiset(view)[p]
    {
      LaneMultiplicity(view, p);
    }
    assert a + b + c == multiset(view);
  }

  /** A product occurs in the lane of its own status as often as in the view,
      and in no other lane. */
  lemma LaneMultiplicity(view: seq<Product>, p: Product)
    ensures multiset(Lane(view, p.status))[p] == multiset(view)[p]
    ensures forall s :: s != p.status ==> multiset(Lane(view, s))[p] == 0
  {
  }

  /** The lane sizes add up to the view's length. */
  lemma LaneSizes(view: seq<Product>)
    ensures |Lane(view, InStock)| + |Lane(view, LowStock)| + |Lane(view, OutOfStock)| == |view|
  {
    LanesPartition(view);
    var a, b, c := Lane(view, InStock), Lane(view, LowStock), Lane(view, OutOfStock);
    assert |multiset(a) + multiset(b) + multiset(c)| == |multiset(view)|;
  }

  /** No product appears in two lanes. */
  lemma LanesDisjoint(view: seq<Product>, s: Status, t: Status, p: Product)
    requires s != t && p in Lane(view, s)
    ensures p !in Lane(view, t)
  {
  }

  /** The values of one field, in list order. */
  function Column(ps: seq<Product>, field: Product -> string): (r: seq<string>)
    ensures |r| == |ps|
    ensures forall i :: 0 <= i < |ps| ==> r[i] == field(ps[i])
  {
    if ps == [] then [] else [field(ps[0])] + Column(ps[1..], field)
  }

  /** `[...new Set(products.map(field))]`: each value once, in order of first
      appearance, and exactly the values some product carries. */
  function Options(ps: seq<Product>, field: Product -> string): (r: seq<string>)
    ensures NoDuplicates(r)
    ensures forall i :: 0 <= i < |r| ==> exists k :: 0 <= k < |ps| && field(ps[k]) == r[i]
    ensures forall k :: 0 <= k < |ps| ==> field(ps[k]) in r
    ensures forall i, j :: 0 <= i < j < |r| ==>
              FirstIndex(Column(ps, field), r[i]) < FirstIndex(Column(ps, field), r[j])
  {
    var column := Column(ps, field);
    var r := Distinct(column);
    assert forall i :: 0 <= i < |r| ==> exists k :: 0 <= k < |ps| && field(ps[k]) == r[i] by {
      forall i | 0 <= i < |r|
        ensures exists k :: 0 <= k < |ps| && field(ps[k]) == r[i]
      {
        var k := FirstIndex(column, r[i]);
        assert field(ps[k]) == r[i];
      }
    }
    assert forall k :: 0 <= k < |ps| ==> column[k] in r;
    r
  }

  /** `categories`: the category filter's options. */
  function Categories(ps: seq<Product>): (r: seq<string>)
    ensures NoDuplicates(r)
    ensures forall c :: c in r <==> exists k :: 0 <= k < |ps| && ps[k].category == c
  {
    Options(ps, (p: Product) => p.category)
  }

  /** `suppliers`: the supplier filter's options. */
  function Suppliers(ps: seq<Product>): (r: seq<string>)
    ensures NoDuplicates(r)
    ensures forall s :: s in r <==> exists k :: 0 <= k < |ps| && ps[k].supplier == s
  {
    Options(ps, (p: Product) => p.supplier)
  }
}
