/** The unified search aggregator `globalSearch` and the two list accessors of the mock API. */
module Search {
  import opened Wrappers
  import opened Types
  import opened Text
  import opened Seqs
  import Fixtures
  import opened Letters

  /** The collections the aggregator scans: the menu and the four searchable entity stores. */
  datatype Catalog = Catalog(
    nav: seq<NavItem>, products: seq<Product>, posts: seq<BlogPost>,
    courses: seq<Course>, ebooks: seq<Ebook>)

  /** The constant collections the source reads. */
  const MockCatalog: Catalog :=
    Catalog(Fixtures.NavItems, Fixtures.MockProducts, Fixtures.MockPosts, Fixtures.MockCourses, Fixtures.MockEbooks)

  /** `getProducts`: a copy of the mock product list, without the simulated latency. */
  function GetProducts(): (r: seq<Product>)
    ensures r == Fixtures.MockProducts
    ensures forall i, j :: 0 <= i < j < |r| ==> r[i].id != r[j].id
  {
    Fixtures.MockProducts
  }

  /** `getOrders`: a copy of the mock order list, without the simulated latency. */
  function GetOrders(): (r: seq<Order>)
    ensures r == Fixtures.MockOrders
    ensures forall i, j :: 0 <= i < j < |r| ==> r[i].id != r[j].id
  {
    Fixtures.MockOrders
  }

  // Result records, one shape per type.

  function NavResult(item: NavItem): SearchResult
  {
    SearchResult(ViewName(item.id), NavigationType, "Go to " + item.name, None, item.id, item.icon)
  }

  function ProductResult(p: Product): SearchResult
  {
    SearchResult(p.id, ProductType, p.name, Some("BEOK"), BeokView, ShirtIcon)
  }

  function PostResult(p: BlogPost): SearchResult
  {
    SearchResult(p.id, PostType, p.title, Some("WORD'S"), WordsView, PenSquareIcon)
  }

  function CourseResult(c: Course): SearchResult
  {
    SearchResult(c.id, CourseType, c.title, Some("ESCAN"), EscanView, BookOpenIcon)
  }

  function EbookResult(e: Ebook): SearchResult
  {
    SearchResult(e.id, EbookType, e.title, Some("EBOK"), EbokView, LibraryIcon)
  }

  // Matching rules; `lq` is the lowered query.

  predicate NavMatches(lq: string, item: NavItem)
  {
    Contains(Lower(item.name), lq)
  }

  predicate ProductMatches(lq: string, p: Product)
  {
    Contains(Lower(p.name), lq) || Contains(Lower(p.category), lq)
  }

  predicate PostMatches(lq: string, p: BlogPost)
  {
    Contains(Lower(p.title), lq) || Contains(Lower(p.author), lq)
  }

  predicate CourseMatches(lq: string, c: Course)
  {
    Contains(Lower(c.title), lq) || Contains(Lower(c.instructor), lq)
  }

  predicate EbookMatches(lq: string, e: Ebook)
  {
    Contains(Lower(e.title), lq) || Contains(Lower(e.author), lq)
  }

  function NavFilter(lq: string): NavItem -> bool { (item: NavItem) => NavMatches(lq, item) }
  function ProductFilter(lq: string): Product -> bool { (p: Product) => ProductMatches(lq, p) }
  function PostFilter(lq: string): BlogPost -> bool { (p: BlogPost) => PostMatches(lq, p) }
  function CourseFilter(lq: string): Course -> bool { (c: Course) => CourseMatches(lq, c) }
  function EbookFilter(lq: string): Ebook -> bool { (e: Ebook) => EbookMatches(lq, e) }

  /** The shortcut list returned for the empty query: one entry per menu item. */
  function NavShortcuts(nav: seq<NavItem>): seq<SearchResult>
  {
    Map(nav, NavResult)
  }

  // One block per type: the matching records, in collection order, as results.

  function NavBlock(lq: string, nav: seq<NavItem>): seq<SearchResult>
  {
    Map(Filter(nav, NavFilter(lq)), NavResult)
  }

  function ProductBlock(lq: string, ps: seq<Product>): seq<SearchResult>
  {
    Map(Filter(ps, ProductFilter(lq)), ProductResult)
  }

  function PostBlock(lq: string, ps: seq<BlogPost>): seq<SearchResult>
  {
    Map(Filter(ps, PostFilter(lq)), PostResult)
  }

  function CourseBlock(lq: string, cs: seq<Course>): seq<SearchResult>
  {
    Map(Filter(cs, CourseFilter(lq)), CourseResult)
  }

  function EbookBlock(lq: string, es: seq<Ebook>): seq<SearchResult>
  {
    Map(Filter(es, EbookFilter(lq)), EbookResult)
  }

  /** Position of a type in the output: Navigation, Product, Blog Post, Course, Ebook. */
  function Rank(t: ResultType): nat
  {
    match t
    case NavigationType => 0
    case ProductType => 1
    case PostType => 2
    case CourseType => 3
    case EbookType => 4
  }

  /** The subsidiary label and target screen a result of each type carries. */
  predicate FixedTarget(x: SearchResult)
  {
    match x.kind
    case NavigationType => x.subsidiary == None
    case ProductType => x.subsidiary == Some("BEOK") && x.view == BeokView
    case PostType => x.subsidiary == Some("WORD'S") && x.view == WordsView
    case CourseType => x.subsidiary == Some("ESCAN") && x.view == EscanView
    case EbookType => x.subsidiary == Some("EBOK") && x.view == EbokView
  }

  /** Results ordered by type, types never interleaved. */
  predicate RankedByType(r: seq<SearchResult>)
  {
    forall i, j :: 0 <= i < j < |r| ==> Rank(r[i].kind) <= Rank(r[j].kind)
  }

  /** Every result of the block has type `k` and carries that type's label and screen. */
  predicate BlockOf(b: seq<SearchResult>, k: ResultType)
  {
    forall i :: 0 <= i < |b| ==> b[i].kind == k && FixedTarget(b[i])
  }

  /** Results ranked by type, none ranked above `n`, each with its type's label and screen. */
  predicate RankedUpTo(r: seq<SearchResult>, n: nat)
  {
    RankedByType(r) && forall i :: 0 <= i < |r| ==> Rank(r[i].kind) <= n && FixedTarget(r[i])
  }

  /** Appending a block of a type ranked `n` to results ranked at most `n` keeps them ranked. */
  lemma AppendBlock(a: seq<SearchResult>, b: seq<SearchResult>, k: ResultType, m: nat)
    requires RankedUpTo(a, m) && m <= Rank(k) && BlockOf(b, k)
    ensures RankedUpTo(a + b, Rank(k))
  {
    var ab := a + b;
    forall i, j | 0 <= i < j < |ab| ensures Rank(ab[i].kind) <= Rank(ab[j].kind) {
      if j >= |a| {
        assert ab[j] == b[j - |a|];
        if i >= |a| { assert ab[i] == b[i - |a|]; } else { assert ab[i] == a[i]; }
      } else {
        assert ab[i] == a[i] && ab[j] == a[j];
      }
    }
    forall i | 0 <= i < |ab| ensures Rank(ab[i].kind) <= Rank(k) && FixedTarget(ab[i]) {
      if i >= |a| { assert ab[i] == b[i - |a|]; } else { assert ab[i] == a[i]; }
    }
  }

  /** Mapping records to results of one type gives a block of that type. */
  lemma MapBlock<T>(s: seq<T>, f: T -> SearchResult, k: ResultType)
    requires forall x :: f(x).kind == k && FixedTarget(f(x))
    ensures BlockOf(Map(s, f), k)
  {
  }

  /** Five blocks of ranks 0 to 4, laid end to end, are ranked. */
  lemma FiveBlocksRanked(
    b0: seq<SearchResult>, b1: seq<SearchResult>, b2: seq<SearchResult>,
    b3: seq<SearchResult>, b4: seq<SearchResult>)
    requires BlockOf(b0, NavigationType) && BlockOf(b1, ProductType) && BlockOf(b2, PostType)
    requires BlockOf(b3, CourseType) && BlockOf(b4, EbookType)
    ensures RankedUpTo(b0 + b1 + b2 + b3 + b4, 4)
  {
    assert RankedUpTo(b0, 0);
    AppendBlock(b0, b1, ProductType, 0);
    AppendBlock(b0 + b1, b2, PostType, 1);
    AppendBlock(b0 + b1 + b2, b3, CourseType, 2);
    AppendBlock(b0 + b1 + b2 + b3, b4, EbookType, 3);
  }

  /** The five blocks of a non-empty query's answer, laid end to end in rank order. */
  lemma BlocksRanked(lq: string, c: Catalog)
    ensures RankedUpTo(
      NavBlock(lq, c.nav) + ProductBlock(lq, c.products) + PostBlock(lq, c.posts)
      + CourseBlock(lq, c.courses) + EbookBlock(lq, c.ebooks), 4)
  {
    MapBlock(Filter(c.nav, NavFilter(lq)), NavResult, NavigationType);
    MapBlock(Filter(c.products, ProductFilter(lq)), ProductResult, ProductType);
    MapBlock(Filter(c.posts, PostFilter(lq)), PostResult, PostType);
    MapBlock(Filter(c.courses, CourseFilter(lq)), CourseResult, CourseType);
    MapBlock(Filter(c.ebooks, EbookFilter(lq)), EbookResult, EbookType);
    FiveBlocksRanked(
      NavBlock(lq, c.nav), ProductBlock(lq, c.products), PostBlock(lq, c.posts),
      CourseBlock(lq, c.courses), EbookBlock(lq, c.ebooks));
  }

  /** `globalSearch(query)` over the collections `c`. */
  function GlobalSearch(query: string, c: Catalog): (r: seq<SearchResult>)
    ensures |r| <= |c.nav| + |c.products| + |c.posts| + |c.courses| + |c.ebooks|
    ensures RankedByType(r)
    ensures forall i :: 0 <= i < |r| ==> FixedTarget(r[i])
  {
    if query == "" then
      var r := NavShortcuts(c.nav);
      assert RankedUpTo(r, 0);
      r
    else
      var lq := Lower(query);
      BlocksRanked(lq, c);
      NavBlock(lq, c.nav) + ProductBlock(lq, c.products) + PostBlock(lq, c.posts)
      + CourseBlock(lq, c.courses) + EbookBlock(lq, c.ebooks)
  }

  /** The empty query yields one "Go to" shortcut per menu entry, in menu order. */
  lemma EmptyQueryShortcuts(c: Catalog)
    ensures |GlobalSearch("", c)| == |c.nav|
    ensures forall i :: 0 <= i < |c.nav| ==>
      var x := GlobalSearch("", c)[i];
      && x.kind == NavigationType && x.title == "Go to " + c.nav[i].name
      && x.view == c.nav[i].id && x.id == ViewName(c.nav[i].id) && x.subsidiary == None
  {
  }

  /** The empty query scans none of the entity collections: only the menu decides the answer. */
  lemma EmptyQueryIgnoresEntities(c: Catalog, d: Catalog)
    requires c.nav == d.nav
    ensures GlobalSearch("", c) == GlobalSearch("", d)
  {
  }

  /** Queries that lower to the same string get identical answers. */
  lemma CaseInsensitive(q1: string, q2: string, c: Catalog)
    requires Lower(q1) == Lower(q2)
    ensures GlobalSearch(q1, c) == GlobalSearch(q2, c)
  {
    assert |q1| == |Lower(q1)| == |Lower(q2)| == |q2|;
  }

  /** The results of type `k`, in output order. */
  function OfKind(r: seq<SearchResult>, k: ResultType): seq<SearchResult>
  {
    Filter(r, KindIs(k))
  }

  function KindIs(k: ResultType): SearchResult -> bool { (x: SearchResult) => x.kind == k }

  /** Selecting one type from a block of a single type keeps the block or drops it. */
  lemma BlockOfKind(b: seq<SearchResult>, t: ResultType, k: ResultType)
    requires forall i :: 0 <= i < |b| ==> b[i].kind == t
    ensures OfKind(b, k) == if t == k then b else []
  {
    if t == k {
      FilterAll(b, KindIs(k));
    } else {
      FilterNone(b, KindIs(k));
    }
  }

  lemma OfKindAppend(a: seq<SearchResult>, b: seq<SearchResult>, k: ResultType)
    ensures OfKind(a + b, k) == OfKind(a, k) + OfKind(b, k)
  {
    FilterAppend(a, b, KindIs(k));
  }

  /** From five single-type blocks laid end to end, selecting a type recovers that type's block. */
  lemma OfKindOfBlocks(
    b0: seq<SearchResult>, b1: seq<SearchResult>, b2: seq<SearchResult>,
    b3: seq<SearchResult>, b4: seq<SearchResult>, k: ResultType)
    requires forall i :: 0 <= i < |b0| ==> b0[i].kind == NavigationType
    requires forall i :: 0 <= i < |b1| ==> b1[i].kind == ProductType
    requires forall i :: 0 <= i < |b2| ==> b2[i].kind == PostType
    requires forall i :: 0 <= i < |b3| ==> b3[i].kind == CourseType
    requires forall i :: 0 <= i < |b4| ==> b4[i].kind == EbookType
    ensures OfKind(b0 + b1 + b2 + b3 + b4, k) ==
      match k
      case NavigationType => b0
      case ProductType => b1
      case PostType => b2
      case CourseType => b3
      case EbookType => b4
  {
    OfKindAppend(b0 + b1 + b2 + b3, b4, k);
    OfKindAppend(b0 + b1 + b2, b3, k);
    OfKindAppend(b0 + b1, b2, k);
    OfKindAppend(b0, b1, k);
    assert OfKind(b0 + b1 + b2 + b3 + b4, k)
        == OfKind(b0, k) + OfKind(b1, k) + OfKind(b2, k) + OfKind(b3, k) + OfKind(b4, k);
    BlockOfKind(b0, NavigationType, k);
    BlockOfKind(b1, ProductType, k);
    BlockOfKind(b2, PostType, k);
    BlockOfKind(b3, CourseType, k);
    BlockOfKind(b4, EbookType, k);
    match k
    case NavigationType => assert b0 + [] + [] + [] + [] == b0;
    case ProductType => assert [] + b1 + [] + [] + [] == b1;
    case PostType => assert [] + [] + b2 + [] + [] == b2;
    case CourseType => assert [] + [] + [] + b3 + [] == b3;
    case EbookType => assert [] + [] + [] + [] + b4 == b4;
  }

  /** A non-empty query's answer is, type by type, exactly the matching records in collection order. */
  lemma NonEmptyQueryBlocks(query: string, c: Catalog)
    requires query != ""
    ensures OfKind(GlobalSearch(query, c), NavigationType) == NavBlock(Lower(query), c.nav)
    ensures OfKind(GlobalSearch(query, c), ProductType) == ProductBlock(Lower(query), c.products)
    ensures OfKind(GlobalSearch(query, c), PostType) == PostBlock(Lower(query), c.posts)
    ensures OfKind(GlobalSearch(query, c), CourseType) == CourseBlock(Lower(query), c.courses)
    ensures OfKind(GlobalSearch(query, c), EbookType) == EbookBlock(Lower(query), c.ebooks)
  {
    var lq := Lower(query);
    var b0, b1, b2, b3, b4 :=
      NavBlock(lq, c.nav), ProductBlock(lq, c.products), PostBlock(lq, c.posts),
      CourseBlock(lq, c.courses), EbookBlock(lq, c.ebooks);
    assert GlobalSearch(query, c) == b0 + b1 + b2 + b3 + b4;
    OfKindOfBlocks(b0, b1, b2, b3, b4, NavigationType);
    OfKindOfBlocks(b0, b1, b2, b3, b4, ProductType);
    OfKindOfBlocks(b0, b1, b2, b3, b4, PostType);
    OfKindOfBlocks(b0, b1, b2, b3, b4, CourseType);
    OfKindOfBlocks(b0, b1, b2, b3, b4, EbookType);
  }

  /** Membership in a type's selection is membership in the answer with that type. */
  lemma OfKindMembers(r: seq<SearchResult>, k: ResultType)
    ensures forall x :: x in OfKind(r, k) <==> x in r && x.kind == k
  {
  }

  /** A product is reported when its name or category contains the query, ignoring case; every
      Product result comes from such a product. */
  lemma ProductsFound(query: string, c: Catalog)
    requires query != ""
    ensures forall p :: p in c.products && ProductMatches(Lower(query), p) ==>
      ProductResult(p) in GlobalSearch(query, c)
    ensures forall x :: x in GlobalSearch(query, c) && x.kind == ProductType ==>
      exists p :: p in c.products && ProductMatches(Lower(query), p) && x == ProductResult(p)
  {
    NonEmptyQueryBlocks(query, c);
    OfKindMembers(GlobalSearch(query, c), ProductType);
    MapFilterMembers(c.products, ProductFilter(Lower(query)), ProductResult);
  }

  /** Posts are found by title or author. */
  lemma PostsFound(query: string, c: Catalog)
    requires query != ""
    ensures forall p :: p in c.posts && PostMatches(Lower(query), p) ==>
      PostResult(p) in GlobalSearch(query, c)
    ensures forall x :: x in GlobalSearch(query, c) && x.kind == PostType ==>
      exists p :: p in c.posts && PostMatches(Lower(query), p) && x == PostResult(p)
  {
    NonEmptyQueryBlocks(query, c);
    OfKindMembers(GlobalSearch(query, c), PostType);
    MapFilterMembers(c.posts, PostFilter(Lower(query)), PostResult);
  }

  /** Courses are found by title or instructor. */
  lemma CoursesFound(query: string, c: Catalog)
    requires query != ""
    ensures forall x :: x in c.courses && CourseMatches(Lower(query), x) ==>
      CourseResult(x) in GlobalSearch(query, c)
    ensures forall y :: y in GlobalSearch(query, c) && y.kind == CourseType ==>
      exists x :: x in c.courses && CourseMatches(Lower(query), x) && y == CourseResult(x)
  {
    NonEmptyQueryBlocks(query, c);
    OfKindMembers(GlobalSearch(query, c), CourseType);
    MapFilterMembers(c.courses, CourseFilter(Lower(query)), CourseResult);
  }

  /** Ebooks are found by title or author. */
  lemma EbooksFound(query: string, c: Catalog)
    requires query != ""
    ensures forall e :: e in c.ebooks && EbookMatches(Lower(query), e) ==>
      EbookResult(e) in GlobalSearch(query, c)
    ensures forall y :: y in GlobalSearch(query, c) && y.kind == EbookType ==>
      exists e :: e in c.ebooks && EbookMatches(Lower(query), e) && y == EbookResult(e)
  {
    NonEmptyQueryBlocks(query, c);
    OfKindMembers(GlobalSearch(query, c), EbookType);
    MapFilterMembers(c.ebooks, EbookFilter(Lower(query)), EbookResult);
  }

  /** Menu entries are found by label. */
  lemma NavFound(query: string, c: Catalog)
    requires query != ""
    ensures forall n :: n in c.nav && NavMatches(Lower(query), n) ==>
      NavResult(n) in GlobalSearch(query, c)
    ensures forall y :: y in GlobalSearch(query, c) && y.kind == NavigationType ==>
      exists n :: n in c.nav && NavMatches(Lower(query), n) && y == NavResult(n)
  {
    NonEmptyQueryBlocks(query, c);
    OfKindMembers(GlobalSearch(query, c), NavigationType);
    MapFilterMembers(c.nav, NavFilter(Lower(query)), NavResult);
  }

  /** A field without the letter q in either case cannot match the query "quantum". */
  lemma NoQuantumWithoutQ(s: string)
    requires NoQ(s)
    ensures !Contains(Lower(s), "quantum")
  {
    LowerCharIn(s, 'q');
    NotContainsFirstChar(Lower(s), "quantum");
  }

  lemma QuantumLowered()
    ensures Lower("quantum") == "quantum"
  {
  }

  /**
   * The shape of a catalog in which "quantum" should find exactly the first product:
   * its name starts with "Quantum" and no other searchable field holds a q.
   */
  predicate QuantumShape(c: Catalog)
  {
    && |c.products| > 0
    && |c.products[0].name| >= 7
    && c.products[0].name[..7] == "Quantum"
    && (forall i :: 0 <= i < |c.nav| ==> NoQ(c.nav[i].name))
    && (forall i :: 1 <= i < |c.products| ==> NoQ(c.products[i].name) && NoQ(c.products[i].category))
    && (forall i :: 0 <= i < |c.posts| ==> NoQ(c.posts[i].title) && NoQ(c.posts[i].author))
    && (forall i :: 0 <= i < |c.courses| ==> NoQ(c.courses[i].title) && NoQ(c.courses[i].instructor))
    && (forall i :: 0 <= i < |c.ebooks| ==> NoQ(c.ebooks[i].title) && NoQ(c.ebooks[i].author))
  }

  lemma QuantumNavBlock(c: Catalog)
    requires QuantumShape(c)
    ensures NavBlock("quantum", c.nav) == []
  {
    forall i | 0 <= i < |c.nav|
      ensures !NavMatches("quantum", c.nav[i])
    {
      NoQuantumWithoutQ(c.nav[i].name);
    }
    FilterNone(c.nav, NavFilter("quantum"));
  }

  lemma QuantumProductBlock(c: Catalog)
    requires QuantumShape(c)
    ensures ProductBlock("quantum", c.products) == [ProductResult(c.products[0])]
  {
    var p0 := c.products[0];
    QuantumLowered();
    assert Lower(p0.name)[..7] == "quantum";
    ContainsPrefix(Lower(p0.name), 7);
    assert ProductMatches("quantum", p0);
    var rest := c.products[1..];
    forall i | 0 <= i < |rest|
      ensures !ProductMatches("quantum", rest[i])
    {
      assert rest[i] == c.products[i + 1];
      NoQuantumWithoutQ(rest[i].name);
      NoQuantumWithoutQ(rest[i].category);
    }
    FilterNone(rest, ProductFilter("quantum"));
    assert c.products == [p0] + rest;
    FilterAppend([p0], rest, ProductFilter("quantum"));
  }

  lemma QuantumPostBlock(c: Catalog)
    requires QuantumShape(c)
    ensures PostBlock("quantum", c.posts) == []
  {
    forall i | 0 <= i < |c.posts|
      ensures !PostMatches("quantum", c.posts[i])
    {
      NoQuantumWithoutQ(c.posts[i].title);
      NoQuantumWithoutQ(c.posts[i].author);
    }
    FilterNone(c.posts, PostFilter("quantum"));
  }

  lemma QuantumCourseBlock(c: Catalog)
    requires QuantumShape(c)
    ensures CourseBlock("quantum", c.courses) == []
  {
    forall i | 0 <= i < |c.courses|
      ensures !CourseMatches("quantum", c.courses[i])
    {
      NoQuantumWithoutQ(c.courses[i].title);
      NoQuantumWithoutQ(c.courses[i].instructor);
    }
    FilterNone(c.courses, CourseFilter("quantum"));
  }

  lemma QuantumEbookBlock(c: Catalog)
    requires QuantumShape(c)
    ensures EbookBlock("quantum", c.ebooks) == []
  {
    forall i | 0 <= i < |c.ebooks|
      ensures !EbookMatches("quantum", c.ebooks[i])
    {
      NoQuantumWithoutQ(c.ebooks[i].title);
      NoQuantumWithoutQ(c.ebooks[i].author);
    }
    FilterNone(c.ebooks, EbookFilter("quantum"));
  }

  /** In a catalog of that shape, "quantum" finds the first product and nothing else. */
  lemma QuantumFindsOnlyFirst(c: Catalog)
    requires QuantumShape(c)
    ensures GlobalSearch("quantum", c) == [ProductResult(c.products[0])]
  {
    QuantumLowered();
    QuantumNavBlock(c);
    QuantumProductBlock(c);
    QuantumPostBlock(c);
    QuantumCourseBlock(c);
    QuantumEbookBlock(c);
    assert GlobalSearch("quantum", c) == [] + [ProductResult(c.products[0])] + [] + [] + [];
  }

  /** No menu label of the shipped menu holds a q. */
  lemma MockNavHasNoQ()
    ensures forall i :: 0 <= i < |MockCatalog.nav| ==> NoQ(MockCatalog.nav[i].name)
  {
    NoQInDashboard(); NoQInGlobalAnalytics(); NoQInBeok(); NoQInWords();
    NoQInVoidAI(); NoQInEscan(); NoQInEbok();
    var nav := Fixtures.NavItems;
    assert nav[0].name == "Dashboard" && nav[1].name == "Global Analytics" && nav[2].name == "BEOK";
    assert nav[3].name == "WORD'S" && nav[4].name == "V\U{00D3}ID AI" && nav[5].name == "ESCAN";
    assert nav[6].name == "EBOK";
  }

  /** Only the first shipped product mentions "Quantum"; no other product field holds a q. */
  lemma MockProductsShape()
    ensures |MockCatalog.products| > 0 && |MockCatalog.products[0].name| >= 7
    ensures MockCatalog.products[0].name[..7] == "Quantum"
    ensures forall i :: 1 <= i < |MockCatalog.products| ==>
      NoQ(MockCatalog.products[i].name) && NoQ(MockCatalog.products[i].category)
  {
    NoQInNebulaTShirt(); NoQInApparel(); NoQInCyberSneakers(); NoQInFootwear();
    NoQInUrbanExplorerJacket(); NoQInOuterwear();
    var ps := Fixtures.MockProducts;
    assert ps[0].name == "Quantum Hoodie";
    assert ps[1].name == "Nebula T-Shirt" && ps[1].category == "Apparel";
    assert ps[2].name == "Cyber Sneakers" && ps[2].category == "Footwear";
    assert ps[3].name == "Urban Explorer Jacket" && ps[3].category == "Outerwear";
  }

  /** No title or author of the shipped posts holds a q. */
  lemma MockPostsHaveNoQ()
    ensures forall i :: 0 <= i < |MockCatalog.posts| ==> NoQ(MockCatalog.posts[i].title) && NoQ(MockCatalog.posts[i].author)
  {
    NoQInTheFutureOfAIInContentCreation(); NoQInJaneDoe(); NoQInTop10ReactHooksFor2024();
    NoQInJohnSmith(); NoQInUnlockingCreativityWithVoidAI(); NoQInAIAssistant();
    var ps := Fixtures.MockPosts;
    assert ps[0].title == "The Future of AI in Content Creation" && ps[0].author == "Jane Doe";
    assert ps[1].title == "Top 10 React Hooks for 2024" && ps[1].author == "John Smith";
    assert ps[2].title == "Unlocking Creativity with V\U{00D3}ID AI" && ps[2].author == "AI Assistant";
  }

  /** No title or instructor of the shipped courses holds a q. */
  lemma MockCoursesHaveNoQ()
    ensures forall i :: 0 <= i < |MockCatalog.courses| ==>
      NoQ(MockCatalog.courses[i].title) && NoQ(MockCatalog.courses[i].instructor)
  {
    NoQInAdvancedMachineLearning(); NoQInDrEvaRostova(); NoQInReactForBeginners();
    NoQInTomWest(); NoQInUXDesignFundamentals(); NoQInMariaGarcia();
    var cs := Fixtures.MockCourses;
    assert cs[0].title == "Advanced Machine Learning" && cs[0].instructor == "Dr. Eva Rostova";
    assert cs[1].title == "React for Beginners" && cs[1].instructor == "Tom West";
    assert cs[2].title == "UX Design Fundamentals" && cs[2].instructor == "Maria Garcia";
  }

  /** No title or author of the shipped ebooks holds a q. */
  lemma MockEbooksHaveNoQ()
    ensures forall i :: 0 <= i < |MockCatalog.ebooks| ==> NoQ(MockCatalog.ebooks[i].title) && NoQ(MockCatalog.ebooks[i].author)
  {
    NoQInTheSiliconMind(); NoQInKenjiTanaka(); NoQInDigitalNomadsGuide();
    NoQInAishaKhan(); NoQInCookingWithCode(); NoQInChefGpt();
    var es := Fixtures.MockEbooks;
    assert es[0].title == "The Silicon Mind" && es[0].author == "Kenji Tanaka";
    assert es[1].title == "Digital Nomad's Guide" && es[1].author == "Aisha Khan";
    assert es[2].title == "Cooking with Code" && es[2].author == "Chef GPT";
  }

  /** The shipped collections have the shape in which "quantum" finds only the first product. */
  lemma MockCatalogQuantumShape()
    ensures QuantumShape(MockCatalog)
  {
    MockNavHasNoQ();
    MockProductsShape();
    MockPostsHaveNoQ();
    MockCoursesHaveNoQ();
    MockEbooksHaveNoQ();
  }

  /** On the shipped collections, "quantum" finds the first product and nothing else. */
  lemma MockQuantumFindsHoodie()
    ensures GlobalSearch("quantum", MockCatalog) == [ProductResult(MockCatalog.products[0])]
  {
    MockCatalogQuantumShape();
    QuantumFindsOnlyFirst(MockCatalog);
  }

  /** That first product is the Quantum Hoodie, offered as a BEOK product opening the BEOK view. */
  lemma MockHoodieResult()
    ensures |MockCatalog.products| > 0
    ensures var r := ProductResult(MockCatalog.products[0]);
      r.id == "p1" && r.title == "Quantum Hoodie" && r.kind == ProductType
      && r.subsidiary == Some("BEOK") && r.view == BeokView
  {
  }

  /** "HOODIE" and "hoodie" get the same answer over any collections. */
  lemma HoodieEitherCase(c: Catalog)
    ensures GlobalSearch("HOODIE", c) == GlobalSearch("hoodie", c)
  {
    assert Lower("HOODIE") == "hoodie" == Lower("hoodie");
    CaseInsensitive("HOODIE", "hoodie", c);
  }
}
