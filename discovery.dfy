/** Finding products: the discovery page's search (App.tsx:1093-1099), the featured list
    (App.tsx:787), a vendor's storefront (App.tsx:1048) and lookups by id (App.tsx:823, 1047).
    All are pure and keep the catalog's order. */
module Discovery {
  import opened Options
  import opened Lists
  import opened Text
  import opened Entities
  import opened Catalog

  /** The name or the description contains the query, ignoring case: the folded query occurs
      at some position of the folded name or of the folded description. */
  predicate MatchesQuery(p: Product, query: string): (b: bool)
    ensures b <==>
      (exists i: nat :: OccursAt(LowerStr(p.name), LowerStr(query), i)) ||
      (exists i: nat :: OccursAt(LowerStr(p.description), LowerStr(query), i))
    ensures query == "" ==> b
  {
    ContainsIffOccurs(LowerStr(p.name), LowerStr(query));
    ContainsIffOccurs(LowerStr(p.description), LowerStr(query));
    Contains(LowerStr(p.name), LowerStr(query)) || Contains(LowerStr(p.description), LowerStr(query))
  }

  /** `cat ? p.category === cat : true`: no category (or an empty one) lets every product through. */
  predicate MatchesCategory(p: Product, cat: Option<string>): (b: bool)
    ensures cat.None? || cat == Some("") ==> b
    ensures cat.Some? && cat.value != "" ==> (b <==> CategoryName(p.category) == cat.value)
  {
    match cat
    case None => true
    case Some(c) => c == "" || CategoryName(p.category) == c
  }

  /** Whether the discovery page shows `p` for `query` and `cat`. */
  predicate Shown(p: Product, query: string, cat: Option<string>): (b: bool)
    ensures query == "" ==> (b <==> MatchesCategory(p, cat))
    ensures cat.None? ==> (b <==> MatchesQuery(p, query))
    ensures b ==> MatchesQuery(p, query) && MatchesCategory(p, cat)
  {
    MatchesQuery(p, query) && MatchesCategory(p, cat)
  }

  /** The discovery page's result: the products it shows, each as often as in the catalog, in
      catalog order. `query` is the `q` parameter (empty when absent) and `cat` the `category`
      parameter. */
  function DiscoveryFilter(ps: seq<Product>, query: string, cat: Option<string>): (r: seq<Product>)
    ensures forall i :: 0 <= i < |r| ==> MatchesQuery(r[i], query) && MatchesCategory(r[i], cat)
    ensures forall p :: p in ps && Shown(p, query, cat) ==> multiset(r)[p] == multiset(ps)[p]
    ensures forall p :: p in r ==> p in ps
    ensures IsSubseq(r, ps)
  {
    var keep := (p: Product) => Shown(p, query, cat);
    FilterCounts(ps, keep);
    FilterIsSubseq(ps, keep);
    Filter(ps, keep)
  }

  /** An empty query without a category shows the whole catalog. */
  lemma DiscoveryShowsAll(ps: seq<Product>)
    ensures DiscoveryFilter(ps, "", None) == ps
  {
    forall i | 0 <= i < |ps| ensures Shown(ps[i], "", None) {
      ContainsEmpty(LowerStr(ps[i].name));
    }
    FilterKeepsAll(ps, (p: Product) => Shown(p, "", None));
  }

  /** Searching the result again with the same query and category changes nothing. */
  lemma DiscoveryIdempotent(ps: seq<Product>, query: string, cat: Option<string>)
    ensures DiscoveryFilter(DiscoveryFilter(ps, query, cat), query, cat) == DiscoveryFilter(ps, query, cat)
  {
    FilterIdempotent(ps, (p: Product) => Shown(p, query, cat));
  }

  /** The query is compared after case folding: queries that fold alike give the same result. */
  lemma DiscoveryIgnoresCase(ps: seq<Product>, q1: string, q2: string, cat: Option<string>)
    requires LowerStr(q1) == LowerStr(q2)
    ensures DiscoveryFilter(ps, q1, cat) == DiscoveryFilter(ps, q2, cat)
  {
    FilterAgree(ps, (p: Product) => Shown(p, q1, cat), (p: Product) => Shown(p, q2, cat));
  }

  /** Searching for the query as typed or for its lower-case form gives the same result. */
  lemma DiscoveryLowerQuery(ps: seq<Product>, query: string, cat: Option<string>)
    ensures DiscoveryFilter(ps, LowerStr(query), cat) == DiscoveryFilter(ps, query, cat)
  {
    LowerStrIdempotent(query);
    DiscoveryIgnoresCase(ps, LowerStr(query), query, cat);
  }

  /** The products of category `c`, in catalog order, defined on its own. */
  function InCategory(ps: seq<Product>, c: string): seq<Product>
  {
    if ps == [] then []
    else (if CategoryName(ps[0].category) == c then [ps[0]] else []) + InCategory(ps[1..], c)
  }

  /** With an empty query, choosing a category shows exactly that category's products, in
      catalog order. */
  lemma {:induction false} DiscoveryByCategory(ps: seq<Product>, c: string)
    requires c != ""
    ensures DiscoveryFilter(ps, "", Some(c)) == InCategory(ps, c)
  {
    if ps != [] {
      DiscoveryByCategory(ps[1..], c);
      ContainsEmpty(LowerStr(ps[0].name));
      assert Shown(ps[0], "", Some(c)) == (CategoryName(ps[0].category) == c);
    }
  }

  /** The featured products (`products.filter(p => p.isFeatured)`), in catalog order. */
  function Featured(ps: seq<Product>): (r: seq<Product>)
    ensures forall p :: p in r <==> p in ps && p.isFeatured == Some(true)
    ensures forall p :: p in ps && p.isFeatured == Some(true) ==> multiset(r)[p] == multiset(ps)[p]
    ensures IsSubseq(r, ps)
  {
    var keep := (p: Product) => p.isFeatured == Some(true);
    FilterCounts(ps, keep);
    FilterIsSubseq(ps, keep);
    Filter(ps, keep)
  }

  /** A vendor's storefront (`products.filter(p => p.vendorId === vendorId)`), in catalog order. */
  function VendorProducts(ps: seq<Product>, vendorId: string): (r: seq<Product>)
    ensures forall p :: p in r <==> p in ps && p.vendorId == vendorId
    ensures forall p :: p in ps && p.vendorId == vendorId ==> multiset(r)[p] == multiset(ps)[p]
    ensures IsSubseq(r, ps)
  {
    var keep := (p: Product) => p.vendorId == vendorId;
    FilterCounts(ps, keep);
    FilterIsSubseq(ps, keep);
    Filter(ps, keep)
  }

  /** `products.find(p => p.id === id)`: the first product with that id, none if there is none. */
  function FindProduct(ps: seq<Product>, id: string): (r: Option<Product>)
    ensures r.None? <==> forall i :: 0 <= i < |ps| ==> ps[i].id != id
    ensures r.Some? ==> r.value.id == id && exists i :: 0 <= i < |ps| && ps[i] == r.value && forall j :: 0 <= j < i ==> ps[j].id != id
  {
    Find(ps, (p: Product) => p.id == id)
  }

  /** `vendors.find(v => v.id === id)`: the first vendor with that id, none if there is none. */
  function FindVendor(vs: seq<Vendor>, id: string): (r: Option<Vendor>)
    ensures r.None? <==> forall i :: 0 <= i < |vs| ==> vs[i].id != id
    ensures r.Some? ==> r.value.id == id && exists i :: 0 <= i < |vs| && vs[i] == r.value && forall j :: 0 <= j < i ==> vs[j].id != id
  {
    Find(vs, (v: Vendor) => v.id == id)
  }

  /** A product just added is what a lookup by its id finds, since it is put first. */
  lemma FindAfterAdd(ps: seq<Product>, p: Product)
    ensures FindProduct([p] + ps, p.id) == Some(p)
  {
  }

  /** After `removeProduct(id)` no product with that id is found. */
  lemma FindAfterRemove(ps: seq<Product>, id: string)
    ensures FindProduct(WithoutProduct(ps, id), id) == None
  {
  }

  /** `removeProduct(id)` does not change what a lookup by any other id finds. */
  lemma {:induction false} FindOtherAfterRemove(ps: seq<Product>, id: string, other: string)
    requires other != id
    ensures FindProduct(WithoutProduct(ps, id), other) == FindProduct(ps, other)
  {
    if ps != [] {
      FindOtherAfterRemove(ps[1..], id, other);
      var keep := (q: Product) => q.id != id;
      assert WithoutProduct(ps, id) == Filter(ps, keep);
      assert WithoutProduct(ps[1..], id) == Filter(ps[1..], keep);
      if ps[0].id != id {
        assert Filter(ps, keep) == [ps[0]] + Filter(ps[1..], keep);
        assert ([ps[0]] + Filter(ps[1..], keep))[1..] == Filter(ps[1..], keep);
      }
    }
  }
}
