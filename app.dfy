/** The dashboard (App.tsx): its state slots, the load step that fills
    them, and the views derived from them — the platform tabs, the filtered
    card list, the chart switch and the five listed sources. */
module App {
  import opened Wrappers
  import opened Seqs
  import opened Types
  import opened GeminiService
  import opened ComparisonChart

  const AllTab: string := "All"

  /** The state before the first load completes: no promotions, no sources,
      never updated. */
  const InitialData: PromoDataState := PromoDataState([], [], None)

  /** The one message shown for any failed load. */
  const FetchFailedMessage: string :=
    "Failed to fetch latest promotions. Please try again or check your connection."

  const MaxListedSources: nat := 5

  /** The tab buttons: "All", then `Object.values(PlatformName)`. */
  function Platforms(): (tabs: seq<string>)
    ensures |tabs| == 6 && tabs[0] == AllTab
    ensures tabs[1..] == ["Traveloka", "Trip.com", "Agoda", "Booking.com", "AirAsia"]
  {
    [AllTab] + PlatformValues()
  }

  /** filteredPromotions */
  function FilteredPromotions(promotions: seq<Promotion>, activeTab: string): seq<Promotion> {
    if activeTab == AllTab then promotions
    else Filter((p: Promotion) => p.platform == activeTab, promotions)
  }

  /** "All" shows every promotion as it is. Any other tab shows exactly the
      promotions whose platform is that tab, in their order and each as often
      as it occurs; a tab no promotion carries shows nothing, and a tab every
      promotion carries shows them all. */
  lemma {:induction false} FilteredPromotionsExactly(promotions: seq<Promotion>, activeTab: string)
    ensures activeTab == AllTab ==> FilteredPromotions(promotions, activeTab) == promotions
    ensures activeTab != AllTab ==>
      && IsSubsequence(FilteredPromotions(promotions, activeTab), promotions)
      && (forall p :: p in FilteredPromotions(promotions, activeTab) <==>
            p in promotions && p.platform == activeTab)
      && (forall p :: multiset(FilteredPromotions(promotions, activeTab))[p] ==
            if p.platform == activeTab then multiset(promotions)[p] else 0)
      && ((forall i :: 0 <= i < |promotions| ==> promotions[i].platform != activeTab) ==>
            FilteredPromotions(promotions, activeTab) == [])
      && ((forall i :: 0 <= i < |promotions| ==> promotions[i].platform == activeTab) ==>
            FilteredPromotions(promotions, activeTab) == promotions)
  {
    if activeTab != AllTab {
      var onTab := (p: Promotion) => p.platform == activeTab;
      FilterIsSubsequence(onTab, promotions);
      forall p ensures p in Filter(onTab, promotions) <==> p in promotions && p.platform == activeTab {
        FilterKeepsExactly(onTab, promotions, p);
      }
      forall p ensures multiset(Filter(onTab, promotions))[p] ==
        if p.platform == activeTab then multiset(promotions)[p] else 0
      {
        FilterCount(onTab, promotions, p);
      }
      FilterEmptyIff(onTab, promotions);
      if forall i :: 0 <= i < |promotions| ==> promotions[i].platform == activeTab {
        FilterKeepsAll(onTab, promotions);
      }
    }
  }

  /** `data.sources.slice(0, 5)`: the sources listed in the sidebar. */
  function ListedSources(sources: seq<GroundingSource>): (listed: seq<GroundingSource>)
    ensures |listed| <= MaxListedSources
    ensures |listed| <= |sources| && listed == sources[..|listed|]
    ensures |sources| >= MaxListedSources ==> |listed| == MaxListedSources
    ensures |sources| < MaxListedSources ==> listed == sources
  {
    Take(sources, MaxListedSources)
  }

  /** `!loading && data.promotions.length > 0`: the chart panel is mounted. */
  predicate ChartMounted(loading: bool, data: PromoDataState) {
    !loading && |data.promotions| > 0
  }

  /** Bars appear exactly when the dashboard is idle and some promotion has
      a positive discount value. */
  lemma {:induction false} ChartShowsBarsExactly(loading: bool, data: PromoDataState)
    ensures ChartMounted(loading, data) && ChartData(data.promotions) != [] <==>
      !loading && exists i :: 0 <= i < |data.promotions| && Qualifies(data.promotions[i])
  {
    ChartEmptyIff(data.promotions);
  }

  /** The dashboard component's state slots. */
  class Dashboard {
    var data: PromoDataState
    var loading: bool
    var error: Option<string>
    var activeTab: string

    constructor ()
      ensures data == InitialData && !loading && error == None && activeTab == AllTab
    {
      data := InitialData;
      loading := false;
      error := None;
      activeTab := AllTab;
    }

    /** The cards under the active tab. */
    function Visible(): seq<Promotion>
      reads this
    {
      FilteredPromotions(data.promotions, activeTab)
    }

    /** A tab button's click handler. */
    method SelectTab(tab: string)
      modifies this
      ensures activeTab == tab
      ensures data == old(data) && loading == old(loading) && error == old(error)
      ensures Visible() == FilteredPromotions(old(data).promotions, tab)
    {
      activeTab := tab;
    }

    /** The start of loadData: the spinner on, the error banner cleared. */
    method StartLoad()
      modifies this
      ensures loading && error == None
      ensures data == old(data) && activeTab == old(activeTab)
    {
      loading := true;
      error := None;
    }

    /** The end of loadData once the fetch has settled: a result replaces
      the data wholesale, any error leaves it alone and sets the fixed
      message; either way loading ends (the `finally`). */
    method FinishLoad(outcome: Result<PromoDataState, FetchError>)
      modifies this
      ensures !loading && activeTab == old(activeTab)
      ensures outcome.Success? ==> data == outcome.value && error == old(error)
      ensures outcome.Failure? ==> data == old(data) && error == Some(FetchFailedMessage)
    {
      match outcome {
        case Success(result) =>
          data := result;
        case Failure(_) =>
          error := Some(FetchFailedMessage);
      }
      loading := false;
    }

    /** loadData, as one sequential step around fetchPromotions (whose
      inputs it passes through). */
    method LoadData(
      apiKey: Option<string>,
      request: Result<GenerateContentResponse, string>,
      parse: string -> Option<seq<Promotion>>,
      now: Timestamp)
      modifies this
      ensures !loading && activeTab == old(activeTab)
      ensures !Truthy(apiKey) || request.Failure? ==>
        data == old(data) && error == Some(FetchFailedMessage)
      ensures Truthy(apiKey) && request.Success? ==>
        && error == None
        && var parsed := parse(ExtractJson(ResponseText(request.value)));
        && data.promotions == (if parsed.Some? then parsed.value else [])
        && data.sources == Sources(GroundingChunks(request.value))
        && data.lastUpdated == Some(now)
      // The cards shown afterwards are the new promotions under the same tab.
      ensures Visible() == FilteredPromotions(data.promotions, old(activeTab))
    {
      StartLoad();
      var outcome := FetchPromotions(apiKey, request, parse, now);
      FinishLoad(outcome);
    }
  }
}
