/** The discount chart (components/ComparisonChart.tsx): the number read out
    of each discount text, the bars kept, their colours and their axis labels. */
module ComparisonChart {
  import opened Wrappers
  import opened Seqs
  import opened Types

  // ---------------------------------------------------------------------
  // Reading a number out of a discount text: /(\d+)/ and parseInt
  // ---------------------------------------------------------------------

  /** `\d`: an ASCII decimal digit. */
  predicate IsDigit(c: char) {
    '0' <= c <= '9'
  }

  ghost predicate AllDigits(s: string) {
    forall k :: 0 <= k < |s| ==> IsDigit(s[k])
  }

  /** `parseInt(ds, 10)` for a string of digits, as an unbounded number. */
  function DecimalValue(ds: string): nat
    requires AllDigits(ds)
    decreases |ds|
  {
    if ds == [] then 0
    else 10 * DecimalValue(ds[..|ds| - 1]) + (ds[|ds| - 1] as int - '0' as int)
  }

  /** The first index at or after `k` that holds a digit, or `|s|`. */
  function FirstDigitFrom(s: string, k: nat): (r: nat)
    requires k <= |s|
    ensures k <= r <= |s|
    ensures forall m :: k <= m < r ==> !IsDigit(s[m])
    ensures r < |s| ==> IsDigit(s[r])
    decreases |s| - k
  {
    if k == |s| || IsDigit(s[k]) then k else FirstDigitFrom(s, k + 1)
  }

  /** The end of the run of digits that starts at `k`. */
  function DigitRunEnd(s: string, k: nat): (r: nat)
    requires k <= |s|
    ensures k <= r <= |s|
    ensures forall m :: k <= m < r ==> IsDigit(s[m])
    ensures r == |s| || !IsDigit(s[r])
    decreases |s| - k
  {
    if k < |s| && IsDigit(s[k]) then DigitRunEnd(s, k + 1) else k
  }

  /** `s.match(/(\d+)/)`: the bounds `(i, j)` of the first maximal run of
      digits, or `None` when `s` has no digit. */
  function FirstDigitRun(s: string): (r: Option<(nat, nat)>)
    ensures r.None? <==> forall m :: 0 <= m < |s| ==> !IsDigit(s[m])
    ensures r.Some? ==>
      var (i, j) := r.value;
      && i < j <= |s|
      && (forall m :: 0 <= m < i ==> !IsDigit(s[m]))
      && (forall m :: i <= m < j ==> IsDigit(s[m]))
      && (j == |s| || !IsDigit(s[j]))
  {
    var i := FirstDigitFrom(s, 0);
    if i == |s| then None else Some((i, DigitRunEnd(s, i)))
  }

  /** The bar height of a promotion: the first number in its discount text,
      or 0 when there is none. */
  function DiscountValue(discount: string): nat {
    match FirstDigitRun(discount)
    case None => 0
    case Some((i, j)) => DecimalValue(discount[i..j])
  }

  function DigitChar(d: nat): (c: char)
    requires d < 10
    ensures IsDigit(c) && c as int - '0' as int == d
  {
    ('0' as int + d) as char
  }

  /** The decimal numeral of `n`, as a discount text would spell it. */
  function Numeral(n: nat): (ds: string)
    ensures |ds| > 0 && AllDigits(ds)
    decreases n
  {
    if n < 10 then [DigitChar(n)] else Numeral(n / 10) + [DigitChar(n % 10)]
  }

  /** parseInt reads back the numeral of any number. */
  lemma {:induction false} NumeralRoundTrip(n: nat)
    ensures DecimalValue(Numeral(n)) == n
    decreases n
  {
    if n >= 10 {
      NumeralRoundTrip(n / 10);
      var ds := Numeral(n);
      assert ds[..|ds| - 1] == Numeral(n / 10);
    }
  }

  /** A number written after text without digits, and not followed by a
      digit, is the value read: "Up to " + "70" + "% OFF" gives 70. */
  lemma {:induction false} DiscountValueReadsNumber(prefix: string, n: nat, suffix: string)
    requires forall k :: 0 <= k < |prefix| ==> !IsDigit(prefix[k])
    requires suffix == [] || !IsDigit(suffix[0])
    ensures DiscountValue(prefix + Numeral(n) + suffix) == n
  {
    var ds := Numeral(n);
    var s := prefix + ds + suffix;
    var i, j := |prefix|, |prefix| + |ds|;
    assert forall m :: 0 <= m < i ==> s[m] == prefix[m];
    assert forall m :: i <= m < j ==> s[m] == ds[m - i];
    assert j < |s| ==> s[j] == suffix[0];
    assert IsDigit(s[i]);
    var r := FirstDigitRun(s);
    assert r.Some?;
    var (i', j') := r.value;
    assert i' == i;
    assert j' == j;
    assert s[i..j] == ds;
    NumeralRoundTrip(n);
  }

  /** The example in the chart's comment, and a text without digits. */
  lemma DiscountValueExamples()
    ensures DiscountValue("50% OFF") == 50
    ensures DiscountValue("OFF") == 0
  {
    assert Numeral(50) == "50";
    DiscountValueReadsNumber("", 50, "% OFF");
    assert "" + "50" + "% OFF" == "50% OFF";
  }

  /** A zero discount reads as 0, so it gets no bar. */
  lemma ZeroDiscountValue()
    ensures DiscountValue("0% OFF") == 0
  {
    assert Numeral(0) == "0";
    DiscountValueReadsNumber("", 0, "% OFF");
    assert "" + "0" + "% OFF" == "0% OFF";
  }

  // ---------------------------------------------------------------------
  // The chart's data
  // ---------------------------------------------------------------------

  /** One bar: `{ name, discount, fullDiscount, title }`. */
  datatype ChartEntry = ChartEntry(name: string, discount: nat, fullDiscount: string, title: string)

  function ToEntry(p: Promotion): ChartEntry {
    ChartEntry(p.platform, DiscountValue(p.discount), p.discount, p.title)
  }

  /** `d => d.discount > 0` */
  predicate HasPositiveDiscount(d: ChartEntry) {
    d.discount > 0
  }

  /** A promotion that gets a bar. */
  predicate Qualifies(p: Promotion) {
    DiscountValue(p.discount) > 0
  }

  const MaxBars: nat := 10

  /** `promotions.map(...).filter(d => d.discount > 0).slice(0, 10)` */
  function ChartData(promotions: seq<Promotion>): (data: seq<ChartEntry>)
    ensures |data| <= MaxBars
    ensures forall d :: d in data ==> d.discount > 0
  {
    var entries := Filter(HasPositiveDiscount, Map(ToEntry, promotions));
    var data := Take(entries, MaxBars);
    assert forall d :: d in data ==> d in entries;
    data
  }

  /** The bars are the first (at most ten) promotions with a positive
      discount value, in input order, each copying the promotion's platform,
      discount text and title. */
  lemma {:induction false} ChartDataIsFirstQualifying(promotions: seq<Promotion>)
    ensures var qualifying := Filter(Qualifies, promotions);
      && IsSubsequence(qualifying, promotions)
      && |ChartData(promotions)| == (if |qualifying| < MaxBars then |qualifying| else MaxBars)
      && forall k :: 0 <= k < |ChartData(promotions)| ==>
           var d, p := ChartData(promotions)[k], qualifying[k];
           && d.name == p.platform && d.fullDiscount == p.discount && d.title == p.title
           && d.discount == DiscountValue(p.discount) > 0
  {
    FilterMap(HasPositiveDiscount, ToEntry, Qualifies, promotions);
    FilterIsSubsequence(Qualifies, promotions);
  }

  /** When at most ten promotions qualify, every one of them has a bar. */
  lemma {:induction false} ChartDataKeepsAllWhenFew(promotions: seq<Promotion>, p: Promotion)
    requires |Filter(Qualifies, promotions)| <= MaxBars
    requires p in promotions && Qualifies(p)
    ensures ToEntry(p) in ChartData(promotions)
  {
    var qualifying := Filter(Qualifies, promotions);
    FilterMap(HasPositiveDiscount, ToEntry, Qualifies, promotions);
    FilterKeepsExactly(Qualifies, promotions, p);
    var k :| 0 <= k < |qualifying| && qualifying[k] == p;
    assert ChartData(promotions)[k] == ToEntry(p);
  }

  /** `if (data.length === 0) return null`: the chart draws nothing exactly
      when no promotion has a positive discount value. */
  lemma {:induction false} ChartEmptyIff(promotions: seq<Promotion>)
    ensures ChartData(promotions) == [] <==> forall i :: 0 <= i < |promotions| ==> !Qualifies(promotions[i])
  {
    FilterMap(HasPositiveDiscount, ToEntry, Qualifies, promotions);
    FilterEmptyIff(Qualifies, promotions);
  }

  // ---------------------------------------------------------------------
  // Bar colours and axis labels
  // ---------------------------------------------------------------------

  const DefaultBarColor: string := "#64748b"

  /** getBarColor */
  function BarColor(platform: string): (colour: string)
    ensures colour == DefaultBarColor <==> platform !in PlatformValues()
  {
    match platform
    case "Traveloka" => "#3b82f6"
    case "Trip.com" => "#2563eb"
    case "Agoda" => "#9333ea"
    case "Booking.com" => "#1e3a8a"
    case "AirAsia" => "#dc2626"
    case _ => DefaultBarColor
  }

  /** The five known platforms get five different colours. */
  lemma KnownBarColorsDiffer(p: PlatformName, q: PlatformName)
    ensures BarColor(NameOf(p)) == BarColor(NameOf(q)) <==> p == q
  {
  }

  /** The tick formatter `val => val.split('.')[0]`: the part of the name
      before its first '.'. */
  function TickLabel(name: string): (tick: string)
    ensures |tick| <= |name| && tick == name[..|tick|]
    ensures '.' !in tick
    ensures |tick| == |name| || name[|tick|] == '.'
  {
    if name == [] || name[0] == '.' then [] else [name[0]] + TickLabel(name[1..])
  }

  /** The three ensures of TickLabel pin it down: any prefix without a dot
      that ends at a dot or at the end of the name is the tick. */
  lemma TickLabelIsPrefixBeforeFirstDot(name: string, k: nat)
    requires k <= |name| && '.' !in name[..k]
    requires k == |name| || name[k] == '.'
    ensures TickLabel(name) == name[..k]
  {
    var tick := TickLabel(name);
    assert forall m :: 0 <= m < k ==> name[m] == name[..k][m];
    assert forall m :: 0 <= m < |tick| ==> name[m] == tick[m];
  }

  /** The case the formatter exists for: "Trip.com" is drawn as "Trip". */
  lemma TickLabelExample()
    ensures TickLabel("Trip.com") == "Trip"
  {
    var name := "Trip.com";
    assert name[..4] == "Trip";
    TickLabelIsPrefixBeforeFirstDot(name, 4);
  }

  /** A name without a dot is drawn as it is. */
  lemma TickLabelWithoutDot(name: string)
    requires '.' !in name
    ensures TickLabel(name) == name
  {
    TickLabelIsPrefixBeforeFirstDot(name, |name|);
  }

  /** Shortening a shortened tick changes nothing. */
  lemma TickLabelIdempotent(name: string)
    ensures TickLabel(TickLabel(name)) == TickLabel(name)
  {
    var tick := TickLabel(name);
    TickLabelIsPrefixBeforeFirstDot(tick, |tick|);
  }
}
