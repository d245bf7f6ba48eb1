# Travel Promo Scout, modelled in Dafny

Travel Promo Scout is a single-page dashboard. It asks a search-backed generative
model for the current promotions of five travel sites (Traveloka, Trip.com, Agoda,
Booking.com, AirAsia), cuts the JSON array out of the model's markdown reply, and
shows the promotions as cards, a discount bar chart, a "Critical Actions" sidebar
and a list of the web sources the model cited.

The model covers the program's own decision logic:

- the response adapter (`services/geminiService.ts`): `extractJson`, the
  empty-list fallback for a reply that does not parse, the citation list built
  from the grounding metadata, and `fetchPromotions` as one sequential step;
- the chart (`components/ComparisonChart.tsx`): the number read from a
  discount text, the bars kept, their colours, the shortened axis labels;
- the sidebar (`components/ActionTimeline.tsx`): the promotions with a
  login-time or date action, and those actions under each;
- the cards (`components/PromoCard.tsx`): the header colour and the icon of
  each action row;
- the dashboard (`App.tsx`): the tab filter, the tab list, the five listed
  sources, the chart switch, and `loadData` over the `data`, `loading` and
  `error` slots.

Files, one module each: `types.dfy` (types.ts), `gemini_service.dfy`,
`comparison_chart.dfy`, `action_timeline.dfy`, `promo_card.dfy`, `app.dfy`, and
the helpers `wrappers.dfy` (Option, Result), `seqs.dfy` (JavaScript's
`map`, `filter` and `slice(0, n)` with their lemmas) and `icons.dfy`.

Inputs the program gets from outside are parameters: the API key, the settled
SDK request (a response record or the error it failed with), `JSON.parse` (a
function that gives `None` where the real one throws) and the clock reading.

`extractJson`'s regular expression ```` /```json\s*([\s\S]*?)\s*```/ ```` is
written out as a predicate (`FenceMatch`). `PreferredMatch` picks the match a
backtracking engine reports: the leftmost start, then the longest first `\s*`,
then the shortest lazy group. The function itself works by searching: it finds
the first "```json", skips the white space after it, finds the first "```" after
that, and trims the trailing white space. The two are proved to agree. `\s` is
JavaScript's set of white-space characters.

A promotion's `platform` is a string, not the enum. Parsed JSON is never checked
against the enum, and both colour functions have a default branch for other
values.

The code has no special case for an HTTP 403: every error from the request
is re-thrown unchanged, and `loadData` shows one fixed message for any failure.

## Model

| member | source | states |
|---|---|---|
| `Types.PlatformValues` | types.ts:1-7 | `Object.values(PlatformName)`: five names, every platform's name among them, no two equal |
| `GeminiService.ExtractJsonFollowsPattern` | services/geminiService.ts:5-8 | `ExtractJson`, the model of `extractJson`: with no match of the fence pattern the text comes back unchanged; otherwise the result is the capture group of the match the regular-expression engine prefers (leftmost, longest leading `\s*`, shortest lazy group) |
| `GeminiService.ExtractedBodyShape` | services/geminiService.ts:6-7 | when the fence pattern matches, the extracted body contains no "```" and neither starts nor ends with white space |
| `GeminiService.ExtractJsonIdempotent` | services/geminiService.ts:5-8 | applying extractJson twice gives the same as applying it once |
| `GeminiService.GroundingChunks` | services/geminiService.ts:73 | no candidates, an empty candidate list, or a first candidate without grounding metadata or chunks gives no chunks; otherwise the first candidate's chunks |
| `GeminiService.Sources` | services/geminiService.ts:74-77 | at most one source per chunk, and every source has a non-empty title and URI |
| `GeminiService.SourcesInOrder` | services/geminiService.ts:74-77 | `Sources`: in the chunks' order, exactly one source per chunk that has a web entry with a URI and a title (the source it cites), and nothing for any other chunk, so a source cited twice is listed twice |
| `GeminiService.CitedInOrderDetermines` | services/geminiService.ts:74-77 | there is only one list of sources that the chunks cite in order, so `SourcesInOrder` fixes the sources completely |
| `GeminiService.SourcesAreTheCitations` | services/geminiService.ts:74-77 | a source is listed if and only if some chunk has a web entry with exactly that non-empty URI and title |
| `GeminiService.FetchPromotions` | services/geminiService.ts:10-89 | a missing or empty key fails with the key error whatever the request did; a failed request is re-thrown unchanged; a response always succeeds, with the parsed promotions or `[]` when parsing fails (missing text read as ""), the sources from the grounding chunks, and the current time |
| `ComparisonChart.FirstDigitRun` | components/ComparisonChart.tsx:12 | `None` exactly when the text has no ASCII digit; otherwise the bounds of the first maximal digit run |
| `ComparisonChart.NumeralRoundTrip` | components/ComparisonChart.tsx:13 | reading the decimal numeral of any number gives that number back |
| `ComparisonChart.DiscountValueReadsNumber` | components/ComparisonChart.tsx:12-13 | `DiscountValue`, the model of the match and `parseInt`: a number written after digit-free text and not followed by a digit is the value read from the discount |
| `ComparisonChart.DiscountValueExamples` | components/ComparisonChart.tsx:10-13 | "50% OFF" reads as 50 and "OFF" as 0 |
| `ComparisonChart.ZeroDiscountValue` | components/ComparisonChart.tsx:12-20 | "0% OFF" reads as 0, so it gets no bar |
| `ComparisonChart.ChartData` | components/ComparisonChart.tsx:11-20 | at most 10 bars, every one with a positive value |
| `ComparisonChart.ChartDataIsFirstQualifying` | components/ComparisonChart.tsx:11-20 | the bars are the first min(10, n) of the n promotions with a positive value, in input order, each copying platform, discount text and title and carrying the value read |
| `ComparisonChart.ChartDataKeepsAllWhenFew` | components/ComparisonChart.tsx:20 | when at most 10 promotions have a positive value, each of them has a bar |
| `ComparisonChart.ChartEmptyIff` | components/ComparisonChart.tsx:11-33 | the chart has no bars, and draws nothing, exactly when no promotion has a positive value |
| `ComparisonChart.BarColor` | components/ComparisonChart.tsx:22-31 | the default colour `#64748b` exactly for names that are not one of the five platform names |
| `ComparisonChart.KnownBarColorsDiffer` | components/ComparisonChart.tsx:22-31 | the five platforms get five different colours |
| `ComparisonChart.TickLabel` | components/ComparisonChart.tsx:44 | the label is a prefix of the name, holds no '.', and is followed in the name by '.' or by nothing |
| `ComparisonChart.TickLabelIsPrefixBeforeFirstDot` | components/ComparisonChart.tsx:44 | any dot-free prefix that ends at a '.' or at the end of the name is the label |
| `ComparisonChart.TickLabelExample` | components/ComparisonChart.tsx:44 | "Trip.com" is drawn as "Trip" |
| `ComparisonChart.TickLabelWithoutDot` | components/ComparisonChart.tsx:44 | a name without '.' is drawn unchanged |
| `ComparisonChart.TickLabelIdempotent` | components/ComparisonChart.tsx:44 | shortening a label twice gives the same as once |
| `ActionTimeline.ActionablePromos` | components/ActionTimeline.tsx:11-13 | no more promotions than given, each one of the input with a login-time or date action |
| `ActionTimeline.ShownActions` | components/ActionTimeline.tsx:46-47 | every listed action is one of the promotion's actions and is a login-time or date action |
| `ActionTimeline.ActionableExactly` | components/ActionTimeline.tsx:11-13 | a promotion is kept if and only if it is in the input and has an action of kind LOGIN_TIME or SPECIFIC_DATE |
| `ActionTimeline.ActionableInOrder` | components/ActionTimeline.tsx:11-13 | the kept promotions keep the input order, and each actionable promotion is kept as many times as it occurs (a non-actionable one never) |
| `ActionTimeline.ShownActionsExactly` | components/ActionTimeline.tsx:46-48 | an action is listed if and only if it is one of the promotion's actions and is of kind LOGIN_TIME or SPECIFIC_DATE |
| `ActionTimeline.ShownActionsInOrder` | components/ActionTimeline.tsx:46-48 | the listed actions keep their order, each login-time or date action is listed as many times as the promotion has it (others never), and a promotion lists at least one exactly when it is kept |
| `ActionTimeline.RenderTimelineShape` | components/ActionTimeline.tsx:15-60 | `RenderTimeline`, the model of the component's output: the placeholder appears exactly when no promotion is kept; otherwise the "Upcoming" count equals the number of kept promotions and of entries, each entry has at least one row, and each row shows the clock for LOGIN_TIME and the calendar for SPECIFIC_DATE |
| `ActionTimeline.TimelineIconsDistinguishKinds` | components/ActionTimeline.tsx:50-53 | between the two listed kinds, the icons are equal exactly when the kinds are |
| `PromoCard.PlatformColor` | components/PromoCard.tsx:9-18 | `bg-gray-600 text-white` exactly for names that are not one of the five platform names |
| `PromoCard.PlatformColorTextIsWhite` | components/PromoCard.tsx:11-16 | every header colour ends with `text-white` |
| `PromoCard.KnownPlatformColorsDiffer` | components/PromoCard.tsx:9-15 | the five platforms get five different header colours |
| `PromoCard.ActionIcons` | components/PromoCard.tsx:48-52 | the five icon tests draw exactly one icon for every action kind |
| `PromoCard.ActionIconsDistinguishKinds` | components/PromoCard.tsx:48-52 | different action kinds draw different icons |
| `PromoCard.RenderCard` | components/PromoCard.tsx:20-60 | the header uses the platform colour, one chip per tag in order, one row per action in order with that action's description and the one icon `ActionIcons` draws for that action's type |
| `App.Platforms` | App.tsx:46 | six tabs: "All", then the five platform names in enum order |
| `App.FilteredPromotionsExactly` | App.tsx:42-44 | `FilteredPromotions`, the model of `filteredPromotions`: "All" gives the list unchanged; any other tab gives, in order, exactly the promotions whose platform equals the tab, each as many times as it occurs, nothing when none does, and the whole list when all do |
| `App.ListedSources` | App.tsx:166 | at most five sources, a prefix of the list, all of them when there are fewer than five |
| `App.ChartShowsBarsExactly` | App.tsx:95-97 | bars are drawn exactly when not loading and some promotion has a positive discount value |
| `App.Dashboard.constructor` | App.tsx:17-20 | empty data never updated, not loading, no error, tab "All" |
| `App.Dashboard.SelectTab` | App.tsx:104 | only the active tab changes, and the cards shown are the current promotions filtered by the new tab |
| `App.Dashboard.StartLoad` | App.tsx:23-24 | loading on, error cleared, data and tab unchanged |
| `App.Dashboard.FinishLoad` | App.tsx:25-33 | a result replaces the data wholesale; a failure keeps the data and sets the one fixed message; loading is off either way |
| `App.Dashboard.LoadData` | App.tsx:22-34 | after a load, loading is off; without a key or with a failed request the data is kept and the fixed message shown; otherwise the error is cleared and the data is the parsed promotions (or `[]`), the cited sources and the current time; the cards shown are the new promotions under the unchanged tab |

## Left out

- The SDK call, the model name, the prompt text and the comma-joined platform list that only feeds the prompt (services/geminiService.ts:16-59): a foreign network call, modelled as its settled outcome.
- `JSON.parse` and the missing check on the shape of what it returns (services/geminiService.ts:66): parsing is a parameter that yields a promotion list or nothing. Well-formed JSON that is not a promotion array, and fields of the wrong type (a missing `discount` makes the chart's `match` throw), are not modelled.
- Errors thrown while processing a response (for example a `groundingChunks` that is not an array) are not modelled; only the request's own failure is.
- GeminiService.FetchPromotions: the request is an input, so "no request is made without a key" is stated as "without a key the result does not depend on the request".
- async/await, the startup load in `useEffect` and the `disabled={loading}` guard (App.tsx:37-40, 65): event-loop concurrency. `loadData` is one sequential step, and the loading state in between is seen only after `StartLoad`.
- `new Date()` and `toLocaleTimeString` (services/geminiService.ts:82, App.tsx:147): the clock is a parameter and a timestamp is an opaque number.
- ComparisonChart.DiscountValue: parseInt's floating-point rounding of digit runs longer than 15 digits is not modelled; the value is an unbounded natural number.
- Strings are sequences of Unicode scalar values, not UTF-16 code units; the difference never reaches the ASCII and BMP characters the patterns test.
- An action whose type string is outside the enum (possible in parsed JSON) would draw no icon on a card; `ActionType` is closed here.
- JSX layout, Tailwind classes other than the two colour maps, recharts and lucide rendering, the tooltip formatter and console logging: presentation and I/O.
- vite.config.ts is not part of this model: build configuration with no logic.
