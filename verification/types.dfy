/** The records and enumerations of the dashboard's data model. */
module Types {
  import opened Wrappers

  /** The seven screens; `ViewName` gives the string each one is identified by. */
  datatype View = DashboardView | GlobalAnalyticsView | BeokView | WordsView | VoidAiView | EscanView | EbokView

  function ViewName(v: View): string
  {
    match v
    case DashboardView => "Dashboard"
    case GlobalAnalyticsView => "Global Analytics"
    case BeokView => "BEOK"
    case WordsView => "WORD'S"
    case VoidAiView => "V\U{00D3}ID AI"
    case EscanView => "ESCAN"
    case EbokView => "EBOK"
  }

  /** Distinct screens have distinct names, so a view is determined by its name. */
  lemma ViewNameInjective(v: View, w: View)
    ensures ViewName(v) == ViewName(w) <==> v == w
  {
  }

  /** The glyphs the menu and the search results display. */
  datatype Icon = HomeIcon | GlobeIcon | ShirtIcon | PenSquareIcon | BotIcon | BookOpenIcon | LibraryIcon

  /** A menu entry; `name` is the label shown in the sidebar. */
  datatype NavItem = NavItem(id: View, name: string, icon: Icon)

  datatype ProductStatus = InStock | LowStock | OutOfStock

  function ProductStatusName(s: ProductStatus): string
  {
    match s
    case InStock => "In Stock"
    case LowStock => "Low Stock"
    case OutOfStock => "Out of Stock"
  }

  datatype Product = Product(
    id: string, name: string, category: string, price: real, currency: string,
    stock: int, status: ProductStatus, imageUrls: seq<string>)

  datatype OrderStatus = Processing | Shipped | Delivered | Cancelled

  datatype OrderItem = OrderItem(productId: string, quantity: int)

  datatype Order = Order(
    id: string, customerName: string, date: string, total: real,
    status: OrderStatus, items: seq<OrderItem>)

  datatype PostStatus = PostPublished | Draft

  function PostStatusName(s: PostStatus): string
  {
    match s
    case PostPublished => "Published"
    case Draft => "Draft"
  }

  datatype BlogPost = BlogPost(
    id: string, title: string, author: string, date: string,
    status: PostStatus, traffic: int, imageUrls: seq<string>)

  /** The `{ name, size }` descriptor kept for an uploaded file (size in bytes). */
  datatype FileInfo = FileInfo(name: string, size: int)

  datatype CourseStatus = Live | Upcoming

  datatype Course = Course(
    id: string, title: string, instructor: string, students: int, price: real,
    status: CourseStatus, coverImageUrl: string, materialsFile: Option<FileInfo>)

  datatype EbookStatus = EbookPublished | Pending

  datatype Ebook = Ebook(
    id: string, title: string, author: string, sales: int, revenue: real,
    status: EbookStatus, coverImageUrl: string, file: Option<FileInfo>)

  datatype AiTier = AiTier(name: string, price: string, users: string, features: seq<string>)

  /** The five tags a search result can carry. */
  datatype ResultType = NavigationType | ProductType | PostType | CourseType | EbookType

  function ResultTypeName(t: ResultType): string
  {
    match t
    case NavigationType => "Navigation"
    case ProductType => "Product"
    case PostType => "Blog Post"
    case CourseType => "Course"
    case EbookType => "Ebook"
  }

  datatype SearchResult = SearchResult(
    id: string, kind: ResultType, title: string, subsidiary: Option<string>, view: View, icon: Icon)

  /** One month of the revenue chart, per subsidiary. */
  datatype ChartRow = ChartRow(
    name: string, beok: real, words: real, voidAi: real, escan: real, ebok: real, amt: real)

  datatype SubscriptionRow = SubscriptionRow(name: string, free: int, pro: int, business: int)

  datatype UserGrowthPoint = UserGrowthPoint(name: string, users: int)
}
