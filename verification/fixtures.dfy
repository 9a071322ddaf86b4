/** The constant menu and mock collections the dashboard starts from. */
module Fixtures {
  import opened Wrappers
  import opened Types

  /** The seven `VIEWS` values, in declaration order. */
  const AllViews: seq<View> :=
    [DashboardView, GlobalAnalyticsView, BeokView, WordsView, VoidAiView, EscanView, EbokView]

  const NavItems: seq<NavItem> := [
    NavItem(DashboardView, "Dashboard", HomeIcon),
    NavItem(GlobalAnalyticsView, "Global Analytics", GlobeIcon),
    NavItem(BeokView, "BEOK", ShirtIcon),
    NavItem(WordsView, "WORD'S", PenSquareIcon),
    NavItem(VoidAiView, "V\U{00D3}ID AI", BotIcon),
    NavItem(EscanView, "ESCAN", BookOpenIcon),
    NavItem(EbokView, "EBOK", LibraryIcon)
  ]

  const MockProducts: seq<Product> := [
    Product("p1", "Quantum Hoodie", "Apparel", 89.99, "USD", 120, InStock, ["https://picsum.photos/seed/p1/400"]),
    Product("p2", "Nebula T-Shirt", "Apparel", 34.99, "USD", 35, LowStock, ["https://picsum.photos/seed/p2/400"]),
    Product("p3", "Cyber Sneakers", "Footwear", 129.99, "USD", 0, OutOfStock, ["https://picsum.photos/seed/p3/400"]),
    Product("p4", "Urban Explorer Jacket", "Outerwear", 199.99, "USD", 75, InStock, ["https://picsum.photos/seed/p4/400"])
  ]

  const MockOrders: seq<Order> := [
    Order("ORD-001", "Alice Johnson", "2024-07-21", 124.98, Shipped, [OrderItem("p1", 1), OrderItem("p2", 1)]),
    Order("ORD-002", "Bob Williams", "2024-07-21", 199.99, Processing, [OrderItem("p4", 1)]),
    Order("ORD-003", "Charlie Brown", "2024-07-20", 259.98, Delivered, [OrderItem("p3", 2)]),
    Order("ORD-004", "Diana Prince", "2024-07-19", 89.99, Cancelled, [OrderItem("p1", 1)])
  ]

  const MockPosts: seq<BlogPost> := [
    BlogPost("b1", "The Future of AI in Content Creation", "Jane Doe", "2024-07-20", PostPublished, 12500, ["https://picsum.photos/seed/b1/400/200"]),
    BlogPost("b2", "Top 10 React Hooks for 2024", "John Smith", "2024-07-18", PostPublished, 8900, ["https://picsum.photos/seed/b2/400/200"]),
    BlogPost("b3", "Unlocking Creativity with V\U{00D3}ID AI", "AI Assistant", "2024-07-15", Draft, 0, [])
  ]

  const MockAiTiers: seq<AiTier> := [
    AiTier("Free", "$0/mo", "1 User", ["Basic Chatbot", "100 requests/day", "Community Support"]),
    AiTier("Pro", "$49/mo", "5 Users", ["Advanced AI", "10,000 requests/day", "API Access", "Email Support"]),
    AiTier("Business", "$199/mo", "20 Users", ["Pro Features", "Custom Models", "Dedicated Support", "SSO"]),
    AiTier("Enterprise", "Custom", "Unlimited", ["Business Features", "On-premise option", "SLA", "24/7 Support"])
  ]

  const MockCourses: seq<Course> := [
    Course("c1", "Advanced Machine Learning", "Dr. Eva Rostova", 1240, 299.0, Live, "https://picsum.photos/seed/c1/400/200", None),
    Course("c2", "React for Beginners", "Tom West", 8560, 99.0, Live, "https://picsum.photos/seed/c2/400/200", None),
    Course("c3", "UX Design Fundamentals", "Maria Garcia", 0, 149.0, Upcoming, "https://picsum.photos/seed/c3/400/200", None)
  ]

  const MockEbooks: seq<Ebook> := [
    Ebook("e1", "The Silicon Mind", "Kenji Tanaka", 5400, 53460.0, EbookPublished, "https://picsum.photos/seed/e1/200/300", None),
    Ebook("e2", "Digital Nomad's Guide", "Aisha Khan", 12000, 119880.0, EbookPublished, "https://picsum.photos/seed/e2/200/300", None),
    Ebook("e3", "Cooking with Code", "Chef GPT", 0, 0.0, Pending, "https://picsum.photos/seed/e3/200/300", None)
  ]

  const ChartData: seq<ChartRow> := [
    ChartRow("Jan", 4000.0, 2400.0, 1800.0, 3200.0, 1500.0, 2400.0),
    ChartRow("Feb", 3000.0, 1398.0, 2210.0, 3500.0, 1800.0, 2210.0),
    ChartRow("Mar", 2000.0, 9800.0, 2290.0, 3900.0, 2100.0, 2290.0),
    ChartRow("Apr", 2780.0, 3908.0, 2000.0, 4100.0, 2500.0, 2000.0),
    ChartRow("May", 1890.0, 4800.0, 2181.0, 4500.0, 2800.0, 2181.0),
    ChartRow("Jun", 2390.0, 3800.0, 2500.0, 4800.0, 3100.0, 2500.0),
    ChartRow("Jul", 3490.0, 4300.0, 2100.0, 5100.0, 3500.0, 2100.0)
  ]

  const SubscriptionGrowthData: seq<SubscriptionRow> := [
    SubscriptionRow("Jan", 12000, 2400, 500),
    SubscriptionRow("Feb", 15000, 3500, 750),
    SubscriptionRow("Mar", 18000, 5200, 1200),
    SubscriptionRow("Apr", 20000, 6800, 1800),
    SubscriptionRow("May", 22000, 8100, 2500),
    SubscriptionRow("Jun", 25000, 9500, 3100),
    SubscriptionRow("Jul", 28000, 11000, 3800)
  ]

  const InitialUserGrowth: seq<UserGrowthPoint> := [
    UserGrowthPoint("Jan", 180000),
    UserGrowthPoint("Feb", 195000),
    UserGrowthPoint("Mar", 205000),
    UserGrowthPoint("Apr", 218000),
    UserGrowthPoint("May", 235000),
    UserGrowthPoint("Jun", 245301)
  ]

  /** The menu has one entry per view, in `VIEWS` order, each labelled with its view's name. */
  lemma NavItemsMatchViews()
    ensures |NavItems| == |AllViews| == 7
    ensures forall i :: 0 <= i < |NavItems| ==> NavItems[i].id == AllViews[i]
    ensures forall i :: 0 <= i < |NavItems| ==> NavItems[i].name == ViewName(NavItems[i].id)
    ensures forall i, j :: 0 <= i < j < |NavItems| ==> NavItems[i].id != NavItems[j].id
    ensures forall v: View :: v in AllViews
  {
    forall v: View
      ensures v in AllViews
    {
      match v
      case DashboardView => assert AllViews[0] == v;
      case GlobalAnalyticsView => assert AllViews[1] == v;
      case BeokView => assert AllViews[2] == v;
      case WordsView => assert AllViews[3] == v;
      case VoidAiView => assert AllViews[4] == v;
      case EscanView => assert AllViews[5] == v;
      case EbokView => assert AllViews[6] == v;
    }
  }

  /** Exactly one mock order, ORD-002, is Processing. */
  lemma OneProcessingOrder(i: int)
    requires 0 <= i < |MockOrders|
    ensures MockOrders[i].status == Processing <==> MockOrders[i].id == "ORD-002"
  {
  }

  /** The two published mock ebooks sell at 9.90 and 9.99 on average. */
  lemma MockEbookAveragePrices()
    ensures MockEbooks[0].revenue / MockEbooks[0].sales as real == 9.9
    ensures MockEbooks[1].revenue / MockEbooks[1].sales as real == 9.99
  {
  }
}
