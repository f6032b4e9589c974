/** The product marketplace: a static catalog of eight financial products
    and the category filter behind the market tabs. */
module Marketplace {
  import opened Text

  datatype Product = Product(
    id: nat,
    name: string,
    category: string,
    provider: string,
    logo: string,
    description: string,
    tags: seq<string>,
    highlight: string,
    color: string)

  const Catalog: seq<Product> := [
    Product(1, "VIB Super Card", "credit-cards", "VIB",
      "https://cdn.haitrieu.com/wp-content/uploads/2022/01/Logo-VIB-Blue.png",
      "Hoàn tiền 15% mua sắm, ăn uống", ["Hoàn tiền", "Mua sắm"], "15% Cashback", "#0066B3"),
    Product(2, "Techcombank Visa", "credit-cards", "Techcombank",
      "https://cdn.haitrieu.com/wp-content/uploads/2022/01/Logo-Techcombank.png",
      "Miễn phí thường niên trọn đời", ["Miễn phí", "Visa"], "Free Lifetime", "#E31937"),
    Product(3, "VPBank StepUp", "credit-cards", "VPBank",
      "https://cdn.haitrieu.com/wp-content/uploads/2022/01/Logo-VPBank.png",
      "Hoàn 15% chi tiêu Online", ["Online", "Gen Z"], "Best for Gen Z", "#00B14F"),
    Product(4, "Vay Tiêu Dùng Shinhan", "loans", "Shinhan Finance",
      "https://cdn.haitrieu.com/wp-content/uploads/2022/02/Logo-Shinhan-Finance.png",
      "Lãi suất từ 1.16%/tháng", ["Lãi thấp", "Nhanh"], "1.16% / tháng", "#004685"),
    Product(5, "Vay Nhanh MoneyCat", "loans", "MoneyCat",
      "https://moneycat.vn/public/images/logo.png",
      "Duyệt vay trong 5 phút", ["Online", "Cấp tốc"], "5 Mins", "#66CC33"),
    Product(6, "Bảo Hiểm Sức Khỏe Liberty", "insurance", "Liberty Insurance",
      "https://cdn.haitrieu.com/wp-content/uploads/2022/02/Logo-Liberty-Insurance.png",
      "Bảo vệ toàn diện lên đến 20 tỷ", ["Sức khỏe", "Cao cấp"], "Max 20 Tỷ", "#1A3B8D"),
    Product(7, "Bảo Hiểm Xe Máy PVI", "insurance", "PVI",
      "https://cdn.haitrieu.com/wp-content/uploads/2022/01/Logo-PVI.png",
      "Bắt buộc TNDS chỉ 66k", ["Xe máy", "Giá rẻ"], "66k / năm", "#FDB913"),
    Product(8, "Tiết Kiệm Cake", "savings", "Cake by VPBank",
      "https://cdn.haitrieu.com/wp-content/uploads/2022/01/Logo-Cake-By-VPBank.png",
      "Lãi suất 5.5% kỳ hạn 6 tháng", ["Online", "Lãi cao"], "5.5% p.a", "#FF0099")
  ]

  /** Array.prototype.filter with the predicate `p.category === category`:
      the products of that category, in their original order. */
  function Filter(ps: seq<Product>, category: string): (r: seq<Product>)
    ensures |r| <= |ps|
    ensures forall k :: 0 <= k < |r| ==> r[k].category == category && r[k] in ps
  {
    if ps == [] then []
    else
      var init := Filter(ps[..|ps| - 1], category);
      var last := ps[|ps| - 1];
      if last.category == category then init + [last] else init
  }

  /** The products shown for a tab's category. The parameter defaults to
      'all', so a tab without a data-category attribute (None) also shows the
      whole catalog. */
  function Visible(category: Option<string>): (r: seq<Product>)
    ensures |r| <= |Catalog|
    ensures forall k :: 0 <= k < |r| ==> r[k] in Catalog
    ensures category.Some? && category.value != "all" ==>
      forall k :: 0 <= k < |r| ==> r[k].category == category.value
  {
    var c := if category.Some? then category.value else "all";
    if c == "all" then Catalog else Filter(Catalog, c)
  }

  /** Filtering a concatenation filters each part; with FilterSingle this
      pins Filter down completely: it keeps each matching product, in
      order, and drops every other. */
  lemma {:induction false} FilterAppend(a: seq<Product>, b: seq<Product>, category: string)
    ensures Filter(a + b, category) == Filter(a, category) + Filter(b, category)
  {
    if b != [] {
      var b' := b[..|b| - 1];
      assert (a + b)[..|a + b| - 1] == a + b';
      assert (a + b)[|a + b| - 1] == b[|b| - 1];
      FilterAppend(a, b', category);
    } else {
      assert a + b == a;
    }
  }

  /** A single product is kept exactly when its category matches. */
  lemma FilterSingle(p: Product, category: string)
    ensures Filter([p], category) == if p.category == category then [p] else []
  {
    assert [p][..0] == [];
  }

  /** Filter keeps every copy of a matching product and no copy of any other
      one. */
  lemma {:induction false} FilterCounts(ps: seq<Product>, category: string, p: Product)
    ensures multiset(Filter(ps, category))[p] == if p.category == category then multiset(ps)[p] else 0
  {
    if ps != [] {
      var init := ps[..|ps| - 1];
      assert ps == init + [ps[|ps| - 1]];
      FilterCounts(init, category, p);
    }
  }

  /** When every product matches, nothing is dropped; when none does,
      nothing is kept. */
  lemma {:induction false} FilterExtremes(ps: seq<Product>, category: string)
    ensures (forall k :: 0 <= k < |ps| ==> ps[k].category == category) ==> Filter(ps, category) == ps
    ensures (forall k :: 0 <= k < |ps| ==> ps[k].category != category) ==> Filter(ps, category) == []
  {
    if ps != [] {
      var init := ps[..|ps| - 1];
      assert ps == init + [ps[|ps| - 1]];
      FilterExtremes(init, category);
    }
  }

  /** Filtering twice by the same category changes nothing. */
  lemma FilterIdempotent(ps: seq<Product>, category: string)
    ensures Filter(Filter(ps, category), category) == Filter(ps, category)
  {
    FilterExtremes(Filter(ps, category), category);
  }

  /** 'all', given or defaulted, shows the catalog unchanged; any other
      value shows the products of exactly that category. */
  lemma VisibleRule(category: Option<string>)
    ensures category == None || category == Some("all") ==> Visible(category) == Catalog
    ensures category.Some? && category.value != "all" ==> Visible(category) == Filter(Catalog, category.value)
  {
  }

  /** A run of matching products between two runs of other products is
      exactly what the filter keeps. */
  lemma FilterMiddle(front: seq<Product>, middle: seq<Product>, back: seq<Product>, category: string)
    requires forall k :: 0 <= k < |front| ==> front[k].category != category
    requires forall k :: 0 <= k < |middle| ==> middle[k].category == category
    requires forall k :: 0 <= k < |back| ==> back[k].category != category
    ensures Filter(front + middle + back, category) == middle
  {
    FilterExtremes(front, category);
    FilterExtremes(middle, category);
    FilterExtremes(back, category);
    FilterAppend(front, middle, category);
    FilterAppend(front + middle, back, category);
  }

  /** The loans tab shows the Shinhan and MoneyCat loans (ids 4 and 5), in
      that order. */
  lemma LoansTab()
    ensures Visible(Some("loans")) == Catalog[3..5]
  {
    var front, loans, back := Catalog[..3], Catalog[3..5], Catalog[5..];
    assert Catalog == front + loans + back;
    assert forall k :: 0 <= k < |front| ==> front[k].category != "loans";
    assert forall k :: 0 <= k < |loans| ==> loans[k].category == "loans";
    assert forall k :: 0 <= k < |back| ==> back[k].category != "loans";
    FilterMiddle(front, loans, back, "loans");
  }

  /** A category no product carries shows an empty grid. */
  lemma UnknownCategory(c: string)
    requires c != "all"
    requires forall k :: 0 <= k < |Catalog| ==> Catalog[k].category != c
    ensures Visible(Some(c)) == []
  {
    FilterExtremes(Catalog, c);
  }
}
