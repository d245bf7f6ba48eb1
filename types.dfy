/** The dashboard's data model (types.ts). */
module Types {
  import opened Wrappers
  import opened Seqs

  /** The five travel sites the dashboard knows. */
  datatype PlatformName = Traveloka | TripCom | Agoda | BookingCom | AirAsia

  /** The string value of each member of the `PlatformName` enum. */
  function NameOf(p: PlatformName): string {
    match p
    case Traveloka => "Traveloka"
    case TripCom => "Trip.com"
    case Agoda => "Agoda"
    case BookingCom => "Booking.com"
    case AirAsia => "AirAsia"
  }

  /** The enum's members in declaration order. */
  const AllPlatforms: seq<PlatformName> := [Traveloka, TripCom, Agoda, BookingCom, AirAsia]

  /** `Object.values(PlatformName)`: the five names, in declaration order. */
  function PlatformValues(): (names: seq<string>)
    ensures |names| == 5
    ensures forall p: PlatformName :: NameOf(p) in names
    ensures forall i, j :: 0 <= i < j < |names| ==> names[i] != names[j]
  {
    Map(NameOf, AllPlatforms)
  }

  /** The kinds of step a promotion may ask of the user; `NoAction` is the
      enum member `NONE`. */
  datatype ActionType = LoginTime | SpecificDate | AppOnly | CouponCode | NoAction

  datatype PromotionAction = PromotionAction(
    kind: ActionType,
    description: string,
    targetTime: Option<string>,
    isCompleted: Option<bool>)

  /** A promotion as the model's JSON delivers it. The platform is a plain
      string: nothing checks that parsed JSON keeps to the enum, and the
      components have a default branch for any other value. */
  datatype Promotion = Promotion(
    id: string,
    platform: string,
    title: string,
    description: string,
    discount: string,
    period: string,
    actions: seq<PromotionAction>,
    link: Option<string>,
    tags: seq<string>)

  datatype GroundingSource = GroundingSource(title: string, uri: string)

  /** An instant, kept opaque: the model only records whether one was set. */
  type Timestamp = nat

  datatype PromoDataState = PromoDataState(
    promotions: seq<Promotion>,
    sources: seq<GroundingSource>,
    lastUpdated: Option<Timestamp>)
}
