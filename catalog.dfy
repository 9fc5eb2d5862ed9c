/** The store's catalog (StoreProvider, App.tsx:127-190): products, the vendor list and vendor
    applications. Each operation replaces the product or application list with a new sequence
    computed by one of the pure functions below. Generated ids and the current time come in as
    parameters. */
module Catalog {
  import opened Options
  import opened Lists
  import opened Text
  import opened Entities

  /** The vendor list as the store starts it: the seed vendors, each marked active. */
  function MarkActive(vs: seq<Vendor>): (r: seq<Vendor>)
    ensures |r| == |vs|
    ensures forall i :: 0 <= i < |r| ==> r[i].status == Active && r[i].(status := vs[i].status) == vs[i]
  {
    seq(|vs|, i requires 0 <= i < |vs| => vs[i].(status := Active))
  }

  /** `removeProduct`: drops every product with id `id` and keeps the others, in order. */
  function WithoutProduct(ps: seq<Product>, id: string): (r: seq<Product>)
    ensures forall q :: q in r <==> q in ps && q.id != id
    ensures forall q :: q in ps && q.id != id ==> multiset(r)[q] == multiset(ps)[q]
    ensures IsSubseq(r, ps)
  {
    var keep := (q: Product) => q.id != id;
    FilterCounts(ps, keep);
    FilterIsSubseq(ps, keep);
    Filter(ps, keep)
  }

  /** An application id: "APP-" and the four decimal digits of `draw + 1000`, where `draw` is
      `Math.floor(Math.random() * 9000)`. */
  function ApplicationId(draw: nat): (id: string)
    requires draw < 9000
    ensures |id| == 8 && id[..4] == "APP-"
    ensures forall i :: 4 <= i < 8 ==> '0' <= id[i] <= '9'
    ensures DigitsValue(id[4..]) == draw + 1000
  {
    FourDigits(draw + 1000);
    DecimalRoundTrip(draw + 1000);
    var id := "APP-" + Decimal(draw + 1000);
    assert id[4..] == Decimal(draw + 1000);
    id
  }

  /** Different draws give different application ids. */
  lemma ApplicationIdInjective(a: nat, b: nat)
    requires a < 9000 && b < 9000 && a != b
    ensures ApplicationId(a) != ApplicationId(b)
  {
  }

  /** `applyAsVendor`'s new record: the supplied fields, a generated id, today's date (the date
      part of the ISO timestamp `now`) and status Pending. */
  function NewApplication(data: ApplicationData, draw: nat, now: string): (a: VendorApplication)
    requires draw < 9000
    ensures a.status == ApplicationStatus.Pending
    ensures a.id == ApplicationId(draw) && a.appliedAt == DatePart(now)
    ensures a.businessName == data.businessName && a.contactName == data.contactName
    ensures a.email == data.email && a.phone == data.phone
    ensures a.category == data.category && a.location == data.location
  {
    VendorApplication(ApplicationId(draw), data.businessName, data.contactName, data.email,
      data.phone, data.category, data.location, DatePart(now), ApplicationStatus.Pending)
  }

  /** `addReview`'s new record: the supplied fields, the generated id and today's date. */
  function NewReview(data: ReviewData, id: string, now: string): (r: Review)
    ensures r.userName == data.userName && r.rating == data.rating && r.comment == data.comment
    ensures r.id == id && r.date == DatePart(now) && 'T' !in r.date
  {
    Review(id, data.userName, data.rating, data.comment, DatePart(now))
  }

  /** The ratings of `rs` added up from first to last (the `reduce` of App.tsx:167). */
  function SumRatings(rs: seq<Review>): (r: int)
    ensures rs == [] ==> r == 0
    ensures |rs| == 1 ==> r == rs[0].rating
  {
    if rs == [] then 0 else SumRatings(rs[..|rs| - 1]) + rs[|rs| - 1].rating
  }

  /** The ratings of two lists laid end to end add up to the sum of their ratings. */
  lemma {:induction false} SumRatingsAppend(a: seq<Review>, b: seq<Review>)
    ensures SumRatings(a + b) == SumRatings(a) + SumRatings(b)
    decreases |b|
  {
    if b == [] {
      assert a + b == a;
    } else {
      assert (a + b)[..|a + b| - 1] == a + b[..|b| - 1];
      SumRatingsAppend(a, b[..|b| - 1]);
    }
  }

  /** The mean rating of a non-empty list of reviews. */
  function MeanRating(rs: seq<Review>): (m: real)
    requires rs != []
    ensures m * (|rs| as real) == SumRatings(rs) as real
  {
    SumRatings(rs) as real / |rs| as real
  }

  /** When every rating lies in `[lo, hi]`, the sum lies between `lo` and `hi` times the count. */
  lemma {:induction false} SumRatingsBounds(rs: seq<Review>, lo: int, hi: int)
    requires forall i :: 0 <= i < |rs| ==> lo <= rs[i].rating <= hi
    ensures lo * |rs| <= SumRatings(rs) <= hi * |rs|
  {
    if rs != [] {
      var init := rs[..|rs| - 1];
      SumRatingsBounds(init, lo, hi);
      assert SumRatings(rs) == SumRatings(init) + rs[|rs| - 1].rating;
      assert lo * |rs| == lo * |init| + lo && hi * |rs| == hi * |init| + hi;
    }
  }

  /** The mean lies between any lower and upper bound of the ratings (in particular between
      the smallest and the largest rating). */
  lemma MeanWithin(rs: seq<Review>, lo: int, hi: int)
    requires rs != []
    requires forall i :: 0 <= i < |rs| ==> lo <= rs[i].rating <= hi
    ensures lo as real <= MeanRating(rs) <= hi as real
  {
    SumRatingsBounds(rs, lo, hi);
    var n, m := |rs| as real, MeanRating(rs);
    assert (lo as real) * n <= m * n <= (hi as real) * n;
  }

  /** One product after `addReview`: the review appended to its list (a missing list read as
      empty), `reviewCount` the new list length and `rating` its mean; nothing else changes. */
  function WithReview(p: Product, rev: Review): (q: Product)
    ensures ReviewsOf(q) == ReviewsOf(p) + [rev]
    ensures q.reviewCount == |ReviewsOf(p)| + 1
    ensures q.rating * (q.reviewCount as real) == SumRatings(ReviewsOf(q)) as real
    ensures q.(reviews := p.reviews, rating := p.rating, reviewCount := p.reviewCount) == p
  {
    var updated := ReviewsOf(p) + [rev];
    p.(reviews := Some(updated), rating := MeanRating(updated), reviewCount := |updated|)
  }

  /** The new `reviewCount` is one more than the old one exactly when the old one agreed with
      the length of the stored list: the count is recomputed, not incremented. */
  lemma ReviewCountRecomputed(p: Product, rev: Review)
    ensures WithReview(p, rev).reviewCount == p.reviewCount + 1 <==> p.reviewCount == |ReviewsOf(p)|
  {
  }

  /** With every stored rating and the new one in `[1, 5]`, the recomputed rating is in `[1, 5]`. */
  lemma WithReviewRatingInRange(p: Product, rev: Review)
    requires forall i :: 0 <= i < |ReviewsOf(p)| ==> 1 <= ReviewsOf(p)[i].rating <= 5
    requires 1 <= rev.rating <= 5
    ensures 1.0 <= WithReview(p, rev).rating <= 5.0
  {
    var rs := ReviewsOf(p) + [rev];
    assert forall i :: 0 <= i < |rs| ==> 1 <= rs[i].rating <= 5;
    MeanWithin(rs, 1, 5);
  }

  /** `addReview`: every product with id `pid` gets the review; every other product, the
      length and the order stay as they were. */
  function AddReviewTo(ps: seq<Product>, pid: string, rev: Review): (r: seq<Product>)
    ensures |r| == |ps|
    ensures forall i :: 0 <= i < |ps| && ps[i].id != pid ==> r[i] == ps[i]
    ensures forall i :: 0 <= i < |ps| && ps[i].id == pid ==> r[i] == WithReview(ps[i], rev) && r[i].id == pid
    ensures (forall i :: 0 <= i < |ps| ==> ps[i].id != pid) ==> r == ps
  {
    seq(|ps|, i requires 0 <= i < |ps| => if ps[i].id == pid then WithReview(ps[i], rev) else ps[i])
  }

  /** The catalog provider: the product list, the vendor list (which nothing replaces) and the
      vendor applications. */
  class StoreProvider {
    var products: seq<Product>
    const vendors: seq<Vendor>
    var applications: seq<VendorApplication>

    /** The provider starts from the products and applications read back from storage and
        from the seed vendors, marked active. */
    constructor (savedProducts: seq<Product>, seedVendors: seq<Vendor>, savedApplications: seq<VendorApplication>)
      ensures products == savedProducts && applications == savedApplications
      ensures vendors == MarkActive(seedVendors)
    {
      products := savedProducts;
      vendors := MarkActive(seedVendors);
      applications := savedApplications;
    }

    method AddProduct(p: Product)
      modifies this
      ensures products == [p] + old(products)
      ensures applications == old(applications)
    {
      products := [p] + products;
    }

    method RemoveProduct(id: string)
      modifies this
      ensures products == WithoutProduct(old(products), id)
      ensures applications == old(applications)
    {
      products := WithoutProduct(products, id);
    }

    /** `draw` is the random draw behind the id and `now` the current ISO timestamp. */
    method ApplyAsVendor(data: ApplicationData, draw: nat, now: string)
      requires draw < 9000
      modifies this
      ensures applications == [NewApplication(data, draw, now)] + old(applications)
      ensures products == old(products)
    {
      applications := [NewApplication(data, draw, now)] + applications;
    }

    /** Approving an application changes nothing. */
    method ApproveApplication(appId: string)
      ensures products == old(products) && applications == old(applications)
    {
    }

    /** `reviewId` is the generated review id and `now` the current ISO timestamp. */
    method AddReview(productId: string, data: ReviewData, reviewId: string, now: string)
      modifies this
      ensures products == AddReviewTo(old(products), productId, NewReview(data, reviewId, now))
      ensures applications == old(applications)
    {
      products := AddReviewTo(products, productId, NewReview(data, reviewId, now));
    }
  }
}
