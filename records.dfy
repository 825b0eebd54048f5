/** The application's entity records (src/types/index.ts), the token reward
    table (src/lib/constants.ts) and the fixture rows the model refers to
    (src/lib/mock-data.ts). A paper's `abstract` is called `summary`
    here, `abstract` being a Dafny keyword. Dates are milliseconds since the epoch; a date
    that a page builds from form text is kept as that text. */
module Records {
  import opened Wrappers

  datatype User = User(
    id: string,
    name: string,
    email: string,
    studentId: string,
    major: string,
    year: int,
    avatar: string,
    tokens: int,
    createdAt: int)

  datatype NotificationType = Info | Warning | Success | Error

  datatype Notification = Notification(
    id: string,
    userId: string,
    kind: NotificationType,
    title: string,
    message: string,
    read: bool,
    createdAt: int,
    actionUrl: Option<string>)

  datatype TransactionType = Earn | Spend

  datatype TokenTransaction = TokenTransaction(
    id: string,
    userId: string,
    amount: int,
    kind: TransactionType,
    reason: string,
    relatedId: Option<string>,
    createdAt: int)

  /** `maxParticipants` is None when the form text did not parse (NaN). */
  datatype SportsEvent = SportsEvent(
    id: string,
    title: string,
    sport: string,
    date: string,
    location: string,
    maxParticipants: Option<int>,
    currentParticipants: seq<User>,
    description: string,
    skillLevel: string,
    status: string)

  datatype MenuItem = MenuItem(id: string, name: string, restaurant: string, price: int, category: string)

  datatype Review = Review(
    id: string,
    authorId: string,
    menuItemId: string,
    rating: int,
    comment: string,
    photos: seq<string>,
    tags: seq<string>,
    createdAt: int,
    helpful: int)

  datatype MealInvitation = MealInvitation(id: string, maxPeople: int, currentPeople: int, status: string)

  datatype MarketItem = MarketItem(
    id: string,
    title: string,
    sellerId: string,
    category: string,
    condition: string,
    price: int,
    description: string,
    photos: seq<string>,
    location: string,
    deliveryMethods: seq<string>,
    status: string,
    createdAt: int,
    views: int,
    favorites: int)

  datatype ResearchPaper = ResearchPaper(
    id: string,
    title: string,
    authors: seq<string>,
    summary: string,
    field: string,
    keywords: seq<string>,
    files: seq<string>,
    accessLevel: string,
    password: Option<string>,
    publishedAt: int,
    downloads: int,
    citations: int)

  datatype Post = Post(id: string, section: string, likes: int, images: seq<string>)

  // TOKEN_REWARDS
  const DailyLogin: int := 10
  const PostCreation: int := 5
  const Comment: int := 2
  const ReviewReward: int := 8
  const EventParticipation: int := 15
  const QuestionAnswer: int := 20
  const BestAnswer: int := 50

  /** The five fixture users, in order; the first is the demo login. */
  const FixtureUsers: seq<User> := [
    User("1", "田中太郎", "tanaka@example.com", "N22001234", "情報工学科", 3, "/avatars/tanaka.jpg", 150, 1711929600000),
    User("2", "佐藤花子", "sato@example.com", "N22001235", "電気電子工学科", 2, "/avatars/sato.jpg", 230, 1712016000000),
    User("3", "鈴木一郎", "suzuki@example.com", "N21001100", "経済学部", 4, "/avatars/suzuki.jpg", 89, 1680307200000),
    User("4", "高橋美咲", "takahashi@example.com", "N23001456", "文学部", 1, "/avatars/takahashi.jpg", 45, 1711929600000),
    User("5", "山田健二", "yamada@example.com", "N22001789", "機械工学科", 3, "/avatars/yamada.jpg", 312, 1711929600000)
  ]

  /** The `mockMenuItems` fixture rows. */
  const FixtureMenuItems: seq<MenuItem> := [
    MenuItem("1", "唐揚げ定食", "学食A", 450, "japanese"),
    MenuItem("2", "カレーライス", "学食B", 380, "japanese"),
    MenuItem("3", "パスタランチ", "カフェテリア", 520, "western")
  ]

  /** `getCurrentUser()`: the first fixture user. */
  function DefaultUser(): (u: User)
    ensures u.id == "1" && u.tokens == 150
  {
    FixtureUsers[0]
  }
}
