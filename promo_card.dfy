/** One promotion card (components/PromoCard.tsx): its header colour, one
    chip per tag and one row per action with the icon for the action's kind. */
module PromoCard {
  import opened Seqs
  import opened Types
  import opened Icons

  const DefaultPlatformColor: string := "bg-gray-600 text-white"
  const TextWhite: string := "text-white"

  /** getPlatformColor */
  function PlatformColor(platform: string): (classes: string)
    ensures classes == DefaultPlatformColor <==> platform !in PlatformValues()
  {
    match platform
    case "Traveloka" => "bg-blue-500 text-white"
    case "Trip.com" => "bg-blue-600 text-white"
    case "Agoda" => "bg-purple-600 text-white"
    case "Booking.com" => "bg-blue-900 text-white"
    case "AirAsia" => "bg-red-600 text-white"
    case _ => DefaultPlatformColor
  }

  predicate EndsWith(s: string, suffix: string) {
    |suffix| <= |s| && s[|s| - |suffix|..] == suffix
  }

  /** Every header colour keeps the header text white. */
  lemma PlatformColorTextIsWhite(platform: string)
    ensures EndsWith(PlatformColor(platform), TextWhite)
  {
    var classes := PlatformColor(platform);
    assert classes[|classes| - |TextWhite|..] == TextWhite;
  }

  /** The five known platforms get five different header colours. */
  lemma KnownPlatformColorsDiffer(p: PlatformName, q: PlatformName)
    ensures PlatformColor(NameOf(p)) == PlatformColor(NameOf(q)) <==> p == q
  {
  }

  /** The icons an action row draws: the card tests the action's kind
      against each of the five kinds in turn and draws an icon for each test
      that holds. */
  function ActionIcons(kind: ActionType): (icons: seq<Icon>)
    ensures |icons| == 1
  {
    (if kind == LoginTime then [Clock] else [])
    + (if kind == SpecificDate then [Calendar] else [])
    + (if kind == AppOnly then [Smartphone] else [])
    + (if kind == CouponCode then [TagIcon] else [])
    + (if kind == NoAction then [ArrowRight] else [])
  }

  /** The five tests are exclusive and cover every kind: each row draws one
      icon, and different kinds draw different icons. */
  lemma ActionIconsDistinguishKinds(k: ActionType, l: ActionType)
    ensures ActionIcons(k) == ActionIcons(l) <==> k == l
  {
    assert ActionIcons(k)[0] == ActionIcons(l)[0] ==> k == l;
  }

  datatype ActionRow = ActionRow(icons: seq<Icon>, description: string)

  function ToRow(a: PromotionAction): ActionRow {
    ActionRow(ActionIcons(a.kind), a.description)
  }

  /** What a card shows. */
  datatype CardView = CardView(
    headerClasses: string,
    platform: string,
    discount: string,
    title: string,
    description: string,
    chips: seq<string>,
    period: string,
    rows: seq<ActionRow>)

  function RenderCard(p: Promotion): (card: CardView)
    ensures card.headerClasses == PlatformColor(p.platform)
    ensures card.chips == p.tags
    ensures |card.rows| == |p.actions|
    ensures forall i :: 0 <= i < |p.actions| ==>
      && card.rows[i].description == p.actions[i].description
      && card.rows[i].icons == ActionIcons(p.actions[i].kind)
      && |card.rows[i].icons| == 1
  {
    CardView(PlatformColor(p.platform), p.platform, p.discount, p.title, p.description,
             p.tags, p.period, Map(ToRow, p.actions))
  }
}
