/** The records of the store (types.ts): products with their embedded vendor snapshot and
    reviews, cart lines, vendors and vendor applications. Prices are integer fils (one KD is
    1000 fils), so every total is exact; a product's `rating` is a real, so a mean is exact. */
module Entities {
  import opened Options

  /** The closed set of catalog categories. */
  datatype Category = Digital | Clothing | Hardware | Electrical | Electronics

  /** The string a category stands for, which is what a `category` query parameter is
      compared with. */
  function CategoryName(c: Category): (s: string)
    ensures s != ""
  {
    match c
    case Digital => "Digital Products"
    case Clothing => "Clothing & Apparels"
    case Hardware => "Hardware & Accessories"
    case Electrical => "Electrical & Plumbing"
    case Electronics => "Electronics & Home Appliances"
  }

  datatype Review = Review(id: string, userName: string, rating: int, comment: string, date: string)

  /** The fields a customer supplies for a review; `id` and `date` are added by the store. */
  datatype ReviewData = ReviewData(userName: string, rating: int, comment: string)

  datatype VendorStatus = Active | Pending | Suspended

  datatype Vendor = Vendor(
    id: string,
    name: string,
    rating: real,
    location: string,
    joinedDate: string,
    totalSales: int,
    email: Option<string>,
    status: VendorStatus)

  datatype ApplicationStatus = Pending | Approved | Rejected

  datatype VendorApplication = VendorApplication(
    id: string,
    businessName: string,
    contactName: string,
    email: string,
    phone: string,
    category: string,
    location: string,
    appliedAt: string,
    status: ApplicationStatus)

  /** The fields a would-be vendor supplies; `id`, `appliedAt` and `status` are added by the store. */
  datatype ApplicationData = ApplicationData(
    businessName: string,
    contactName: string,
    email: string,
    phone: string,
    category: string,
    location: string)

  datatype Product = Product(
    id: string,
    name: string,
    price: int,                     // fils
    discountPrice: Option<int>,     // fils
    category: Category,
    subcategory: string,
    description: string,
    detailedDescription: string,
    images: seq<string>,
    vendorId: string,
    vendor: Vendor,
    rating: real,
    reviewCount: int,
    isFeatured: Option<bool>,
    stock: int,
    sku: string,
    reviews: Option<seq<Review>>)

  /** A cart line: the product as it was when first added, and how many of it. */
  datatype CartItem = CartItem(product: Product, quantity: int)

  /** Different categories stand for different strings, so a category parameter selects at
      most one of them. */
  lemma CategoryNamesDistinct(c: Category, d: Category)
    requires c != d
    ensures CategoryName(c) != CategoryName(d)
  {
  }

  /** The reviews of a product, a missing list read as empty. */
  function ReviewsOf(p: Product): (rs: seq<Review>)
    ensures p.reviews.None? ==> rs == []
    ensures p.reviews.Some? ==> rs == p.reviews.value
  {
    p.reviews.GetOr([])
  }
}
