/**
 * The records the core shares (`src/types/index.ts`). Timestamps, avatars and
 * other formatted text are kept as opaque strings; prices are reals.
 */
module Types {
  import opened Wrappers

  datatype Role = Admin | Trader | Guest

  datatype User = User(
    id: string,
    email: string,
    username: string,
    firstName: string,
    lastName: string,
    role: Role,
    avatar: Option<string>,
    createdAt: string,
    lastLogin: Option<string>,
    isVerified: bool)

  /** A `Partial<User>`: a present field overwrites the user's, an absent one keeps it. */
  datatype UserPatch = UserPatch(
    id: Option<string>,
    email: Option<string>,
    username: Option<string>,
    firstName: Option<string>,
    lastName: Option<string>,
    role: Option<Role>,
    avatar: Option<Option<string>>,
    createdAt: Option<string>,
    lastLogin: Option<Option<string>>,
    isVerified: Option<bool>)

  datatype NotificationKind = Info | Success | Warning | Error

  datatype Notification = Notification(
    id: string,
    kind: NotificationKind,
    title: string,
    message: string,
    timestamp: string,
    read: bool,
    actionUrl: Option<string>,
    actionText: Option<string>)

  datatype PriceUpdate = PriceUpdate(
    symbol: string,
    price: real,
    change: real,
    changePercent: real,
    volume: int,
    timestamp: string)

  datatype Position = Position(
    symbol: string,
    quantity: real,
    averagePrice: real,
    currentPrice: real,
    value: real,
    change: real,
    changePercent: real)

  datatype WatchlistItem = WatchlistItem(
    symbol: string,
    name: string,
    price: real,
    change: real,
    changePercent: real,
    volume: int,
    addedAt: string)
}
