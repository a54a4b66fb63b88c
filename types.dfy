/** Records and enumerations shared by every component (types.ts). */
module Types {

  datatype Option<+T> = None | Some(value: T)

  datatype TournamentStatus = Upcoming | Ongoing | Completed

  /** The maps, in the declaration order of the enumeration. */
  datatype MapType = Bermuda | Purgatory | Kalahari | Alpine | Nexeterra

  /** The enumeration's string value of each map. */
  function MapName(m: MapType): string
  {
    match m
    case Bermuda => "Bermuda"
    case Purgatory => "Purgatory"
    case Kalahari => "Kalahari"
    case Alpine => "Alpine"
    case Nexeterra => "Nexeterra"
  }

  /** `Object.values(MapType)`: every map, in declaration order. */
  const AllMaps: seq<MapType> := [Bermuda, Purgatory, Kalahari, Alpine, Nexeterra]

  datatype Role = Player | Admin

  /** A signed-in identity. Money is a whole number of rupees. */
  datatype User = User(
    id: string,
    username: string,
    email: string,
    ffUid: string,
    balance: int,
    role: Role,
    avatar: Option<string>)

  datatype Tournament = Tournament(
    id: string,
    title: string,
    description: string,
    status: TournamentStatus,
    prizePool: string,
    entryFee: string,
    maxTeams: int,
    registeredTeams: int,
    gameMap: MapType,
    startDate: string,
    organizer: string,
    banner: string)

  datatype TxType = DepositTx | EntryTx | WinTx

  datatype TxStatus = Pending | Succeeded | Failed

  /** A wallet ledger entry; its timestamp is not modelled. */
  datatype Transaction = Transaction(id: string, amount: int, kind: TxType, status: TxStatus)

  /** The global configuration edited from the admin panel. */
  datatype AdminSettings = AdminSettings(
    upiId: string,
    qrCodeUrl: string,
    announcement: string,
    isMaintenance: bool)
}
