/** The product catalogue: the `Product` record every page shares and the
    in-memory product service (src/services/productServiceTest.js), whose
    tag and category lists are collected into a set and sorted. */
module Catalog {

  import opened Wrappers

  /** A catalogue product. Prices are whole roubles, as in the sample data. */
  datatype Product = Product(
    id: string,
    name: string,
    description: string,
    price: int,
    imageUrl: string,
    tags: seq<string>,
    category: string,
    stock: int,
    rating: real,
    reviews: int)

  /** The service's product table. */
  const SampleProducts: seq<Product> := [
    Product("1", "Смартфон \"Фотон X\"",
      "Новейший смартфон с передовыми технологиями камеры и производительности. Большой OLED экран, тройная камера 48МП и быстрая зарядка.",
      79990, "https://via.placeholder.com/400x300/FFC107/000000?Text=Smartphone+Photon+X",
      ["electronics", "smartphone", "new", "camera", "oled"], "Смартфоны", 15, 4.8, 120),
    Product("2", "Ноутбук \"Орбита Про 16\"",
      "Мощный и легкий ноутбук для профессионалов и творческих задач. Процессор Intel Core i7, 16 ГБ ОЗУ, SSD 512 ГБ.",
      129900, "https://via.placeholder.com/400x300/0DCAF0/FFFFFF?Text=Laptop+Orbita+Pro",
      ["electronics", "laptop", "professional", "powerful", "intel"], "Ноутбуки", 8, 4.9, 85),
    Product("3", "Беспроводные наушники \"АудиоСфера\"",
      "Кристально чистый звук, активное шумоподавление и комфорт на весь день. До 30 часов работы.",
      19950, "https://via.placeholder.com/400x300/6F42C1/FFFFFF?Text=Headphones+AudioSphere",
      ["electronics", "audio", "headphones", "wireless", "noise-cancelling"], "Аудиотехника", 25, 4.6, 210),
    Product("4", "Умные часы \"Хронос 2\"",
      "Следите за своим здоровьем, активностью и оставайтесь на связи. Встроенный GPS, NFC, мониторинг сна.",
      24900, "https://via.placeholder.com/400x300/198754/FFFFFF?Text=Smartwatch+Chronos+2",
      ["electronics", "wearable", "smartwatch", "health", "gps", "nfc"], "Носимая электроника", 12, 4.5, 150),
    Product("5", "Планшет \"Таблет Z10\"",
      "Универсальный 10-дюймовый планшет для работы, учебы и развлечений. Яркий экран, долгое время работы.",
      45000, "https://via.placeholder.com/400x300/DC3545/FFFFFF?Text=Tablet+Z10",
      ["electronics", "tablet", "entertainment", "10-inch"], "Планшеты", 20, 4.4, 95),
    Product("6", "Игровая консоль \"ГеймМастер 5\"",
      "Погрузитесь в мир игр нового поколения с потрясающей графикой и скоростью. Поддержка 4K HDR.",
      59990, "https://via.placeholder.com/400x300/FD7E14/000000?Text=GameMaster+5",
      ["electronics", "gaming", "console", "entertainment", "new", "4k"], "Игровые консоли", 7, 4.9, 180),
    Product("7", "Фотоаппарат \"ПроПиксел M2\"",
      "Профессиональное качество снимков для энтузиастов и начинающих фотографов. Сменный объектив.",
      99900, "https://via.placeholder.com/400x300/20C997/000000?Text=Camera+ProPixel+M2",
      ["electronics", "camera", "photography", "professional", "mirrorless"], "Фототехника", 5, 4.7, 60),
    Product("8", "Портативная колонка \"БасБуст Мини\"",
      "Мощный звук в компактном корпусе, бери музыку с собой. Защита от воды IPX7.",
      8990, "https://via.placeholder.com/400x300/6610F2/FFFFFF?Text=Speaker+BassBoost+Mini",
      ["electronics", "audio", "speaker", "portable", "bluetooth", "waterproof"], "Аудиотехника", 30, 4.5, 110)
  ]

  // ---------------------------------------------------------------------
  // The order `Array.prototype.sort` uses on strings
  // ---------------------------------------------------------------------

  /** `a` sorts before `b`: a proper prefix, or smaller at the first
      character where they differ. */
  predicate StrLess(a: string, b: string)
  {
    if a == [] then b != []
    else if b == [] then false
    else if a[0] != b[0] then a[0] < b[0]
    else StrLess(a[1..], b[1..])
  }

  lemma {:induction false} StrLessIrreflexive(a: string)
    ensures !StrLess(a, a)
  {
    if a != [] { StrLessIrreflexive(a[1..]); }
  }

  lemma {:induction false} StrLessTransitive(a: string, b: string, c: string)
    requires StrLess(a, b) && StrLess(b, c)
    ensures StrLess(a, c)
  {
    if a != [] && b != [] && c != [] && a[0] == b[0] && b[0] == c[0] {
      StrLessTransitive(a[1..], b[1..], c[1..]);
    }
  }

  lemma {:induction false} StrLessTotal(a: string, b: string)
    requires a != b
    ensures StrLess(a, b) || StrLess(b, a)
  {
    if a != [] && b != [] && a[0] == b[0] {
      assert a == [a[0]] + a[1..] && b == [b[0]] + b[1..];
      StrLessTotal(a[1..], b[1..]);
    }
  }

  /** Sorted with no repeats. */
  predicate StrictlyAscending(s: seq<string>)
  {
    forall i, j :: 0 <= i < j < |s| ==> StrLess(s[i], s[j])
  }

  /** Insert `x` into a strictly ascending list, unless it is already there. */
  function Insert(sorted: seq<string>, x: string): (r: seq<string>)
    requires StrictlyAscending(sorted)
    ensures StrictlyAscending(r)
    ensures forall y :: y in r <==> y in sorted || y == x
    ensures x in sorted ==> r == sorted
    ensures x !in sorted ==> |r| == |sorted| + 1
  {
    if sorted == [] then [x]
    else if x == sorted[0] then sorted
    else if StrLess(x, sorted[0]) then
      forall j | 0 < j < |sorted| ensures StrLess(x, sorted[j]) {
        StrLessTransitive(x, sorted[0], sorted[j]);
      }
      forall j | 0 <= j < |sorted| ensures sorted[j] != x {
        if j > 0 { StrLessIrreflexive(x); }
      }
      [x] + sorted
    else
      StrLessTotal(x, sorted[0]);
      var rest := Insert(sorted[1..], x);
      assert forall y :: y in rest ==> StrLess(sorted[0], y);
      [sorted[0]] + rest
  }

  /** `Array.from(set).sort()`: the set's members, ascending, each once. */
  method SortedFromSet(s: set<string>) returns (r: seq<string>)
    ensures StrictlyAscending(r)
    ensures forall y :: y in r <==> y in s
    ensures |r| == |s|
  {
    r := [];
    var rest := s;
    while rest != {}
      invariant StrictlyAscending(r)
      invariant forall y :: y in s <==> y in r || y in rest
      invariant forall y :: y in r ==> y !in rest
      invariant |r| + |rest| == |s|
      decreases |rest|
    {
      var x :| x in rest;
      r := Insert(r, x);
      rest := rest - {x};
    }
  }

  // ---------------------------------------------------------------------
  // The service
  // ---------------------------------------------------------------------

  /** The members of a list, as a set. */
  function Members(s: seq<string>): (r: set<string>)
    ensures forall x :: x in r <==> x in s
  {
    set i | 0 <= i < |s| :: s[i]
  }

  /** Every tag of every product. */
  ghost function TagUnion(products: seq<Product>): set<string>
  {
    if products == [] then {} else TagUnion(products[..|products| - 1]) + Members(products[|products| - 1].tags)
  }

  /** Every non-empty category (`if (product.category)` skips the empty one). */
  ghost function CategoryUnion(products: seq<Product>): set<string>
  {
    if products == [] then {}
    else
      var p := products[|products| - 1];
      CategoryUnion(products[..|products| - 1]) + (if p.category != "" then {p.category} else {})
  }

  lemma {:induction false} TagUnionMembers(products: seq<Product>, t: string)
    ensures t in TagUnion(products) <==> exists k :: 0 <= k < |products| && t in products[k].tags
  {
    if products != [] {
      var n := |products| - 1;
      TagUnionMembers(products[..n], t);
      if t in TagUnion(products[..n]) {
        var k :| 0 <= k < n && t in products[..n][k].tags;
        assert t in products[k].tags;
      }
      if exists k :: 0 <= k < |products| && t in products[k].tags {
        var k :| 0 <= k < |products| && t in products[k].tags;
        if k < n { assert products[..n][k] == products[k]; }
      }
    }
  }

  lemma {:induction false} CategoryUnionMembers(products: seq<Product>, c: string)
    ensures c in CategoryUnion(products) <==> c != "" && exists k :: 0 <= k < |products| && products[k].category == c
  {
    if products != [] {
      var n := |products| - 1;
      CategoryUnionMembers(products[..n], c);
      if c in CategoryUnion(products[..n]) {
        var k :| 0 <= k < n && products[..n][k].category == c;
        assert products[k].category == c;
      }
      if c != "" && exists k :: 0 <= k < |products| && products[k].category == c {
        var k :| 0 <= k < |products| && products[k].category == c;
        if k < n { assert products[..n][k] == products[k]; }
      }
    }
  }

  /** `getAllTags`: each product's tags added to a set, which is then
      sorted. The result is strictly ascending and holds exactly the tags
      some product carries. */
  method GetAllTags(products: seq<Product>) returns (tags: seq<string>)
    ensures StrictlyAscending(tags)
    ensures forall t :: t in tags <==> exists k :: 0 <= k < |products| && t in products[k].tags
  {
    var allTags: set<string> := {};
    for i := 0 to |products|
      invariant allTags == TagUnion(products[..i])
    {
      var product := products[i];
      for j := 0 to |product.tags|
        invariant allTags == TagUnion(products[..i]) + Members(product.tags[..j])
      {
        allTags := allTags + {product.tags[j]};
      }
      assert product.tags[..|product.tags|] == product.tags;
      assert products[..i + 1][..i] == products[..i];
    }
    assert products[..|products|] == products;
    tags := SortedFromSet(allTags);
    forall t ensures t in tags <==> exists k :: 0 <= k < |products| && t in products[k].tags {
      TagUnionMembers(products, t);
    }
  }

  /** `getAllCategories`: the non-empty categories, strictly ascending. */
  method GetAllCategories(products: seq<Product>) returns (categories: seq<string>)
    ensures StrictlyAscending(categories)
    ensures forall c :: c in categories <==> c != "" && exists k :: 0 <= k < |products| && products[k].category == c
  {
    var allCategories: set<string> := {};
    for i := 0 to |products|
      invariant allCategories == CategoryUnion(products[..i])
    {
      if products[i].category != "" {
        allCategories := allCategories + {products[i].category};
      }
      assert products[..i + 1][..i] == products[..i];
    }
    assert products[..|products|] == products;
    categories := SortedFromSet(allCategories);
    forall c ensures c in categories <==> c != "" && exists k :: 0 <= k < |products| && products[k].category == c {
      CategoryUnionMembers(products, c);
    }
  }

  /** `getProductById`: the first product with that id, or `None` (`null`)
      when there is none. The service hands out a deep copy; a datatype
      value is one. */
  function GetProductById(products: seq<Product>, id: string): (r: Option<Product>)
    ensures r.None? <==> forall k :: 0 <= k < |products| ==> products[k].id != id
    ensures r.Some? ==> exists k :: 0 <= k < |products| && products[k] == r.value &&
                          r.value.id == id && forall m :: 0 <= m < k ==> products[m].id != id
  {
    if products == [] then None
    else if products[0].id == id then Some(products[0])
    else
      var r := GetProductById(products[1..], id);
      if r.Some? then
        var k :| 0 <= k < |products[1..]| && products[1..][k] == r.value &&
                 r.value.id == id && forall m :: 0 <= m < k ==> products[1..][m].id != id;
        assert products[k + 1] == r.value;
        r
      else r
  }
}
