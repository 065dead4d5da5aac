# equifax-bot: the input-driven logic of three site components

The equifax-bot site is mostly static React, but three components compute
something from what the visitor does. This project models those three in
Dafny and proves what each of them promises.

- **Score estimator** (`ScoreCalculator.jsx`), module `ScoreEstimator`. Four
  range sliders hold payment history (50..100), credit utilisation (0..100),
  account age (0..20) and credit mix (1..5). The component computes:
  - a rounded weighted score;
  - a band label and colour with the thresholds 750, 670 and 580;
  - a list of advice messages, one per factor that needs work, or a single
    all-clear message.

  The `Calculator` class holds the four slider values as fields and changes
  them through setters. Its `Score` and `GetScoreAdvice` methods compute in
  integers and are proved equal to the specification functions
  `CalculateScore` and `Advice`.
- **Error checklist** (`ErrorChecklist.jsx`), module `ErrorChecklist`. It is
  the fixed list of ten common report errors, shown through a search box and
  a row of category chips:
  - the search is case-insensitive and looks for a substring of the title,
    description or category;
  - the chip is an exact category match, and "All" admits everything;
  - the chips are "All" followed by the distinct categories;
  - each severity gets a colour scheme.

  The `Checklist` class holds the view state: the expanded card, the chosen
  chip and the search text. Its methods are the handlers `handleSearch`,
  `clearSearch` and `clearAll`, the chip click and the card toggle.
- **Comparison table** (`Comparison.jsx`), module `Comparison`. Twelve
  features are rated for three providers. Four buttons choose a keyword
  filter, which is case-sensitive; "all" and any unknown value keep every
  row. Each cell value is drawn in one of four ways: a check for `true`, a
  cross for `false`, a minus for `"partial"`, and the text itself otherwise.

Two supporting modules model the JavaScript built-ins the components use:
- `Lists` models `Array.prototype.filter` and `Array.from(new Set(xs))`, plus
  order-preserving sub-lists and distinct elements or keys;
- `Text` models `toLowerCase`, on ASCII only, and `String.prototype.includes`.

## The score

`calculateScore` divides by 100, 15 and 5 and rounds with `Math.round`. The
model computes the sum in exact rationals and rounds half up
(`RawScore`, `RoundHalfUp`). All four weights are exact for integer inputs:
- 3.5·p
- 3·(100−u)
- 10·min(a,15)
- 20·m

So the score is the integer `300 + 3(100−u) + 10·min(a,15) + 20m + (7p+1)/2`
(`ScoreClosedForm`).

The code does not clamp the score. Over the slider bounds it lies in
[495, 1200], and both ends are reached (`ScoreBounds`). The default sliders
(95, 30, 7, 3) give 973 (`DefaultScore`). The gauge below the score is
labelled 300 to 850, and its fill, `((score − 300) / 550) · 100%`, stays
within the track only for scores up to 850 (`GaugeWithinTrack`). The default
score therefore overfills it; the track's `overflow-hidden` cuts the bar
off. The model follows the code: it proves the real range and does not
assume the gauge's range.

## Model

| member | source | states |
|---|---|---|
| ScoreEstimator.ScoreClosedForm | src/components/ScoreCalculator.jsx:46-54 | the rounded weighted sum equals 300 + 3(100−u) + 10·min(a,15) + 20m + (7p+1)/2 for all integer inputs |
| ScoreEstimator.ScoreMonotoneInPaymentHistory | src/components/ScoreCalculator.jsx:47 | raising payment history, the rest fixed, never lowers the score |
| ScoreEstimator.ScoreAntitoneInUtilization | src/components/ScoreCalculator.jsx:48 | raising utilisation, the rest fixed, never raises the score |
| ScoreEstimator.ScoreMonotoneInAccountAge | src/components/ScoreCalculator.jsx:49 | raising account age, the rest fixed, never lowers the score |
| ScoreEstimator.AccountAgeSaturates | src/components/ScoreCalculator.jsx:49 | any two ages of at least 15 give the same score; an age of 15 or more adds exactly 150 over age 0 |
| ScoreEstimator.ScoreMonotoneInCreditMix | src/components/ScoreCalculator.jsx:50 | raising credit mix, the rest fixed, never lowers the score |
| ScoreEstimator.ScoreBounds | src/components/ScoreCalculator.jsx:103-140 | within the slider bounds the score lies in [495, 1200]; (50,100,0,1) gives 495 and (100,0,20,5) gives 1200 |
| ScoreEstimator.DefaultScore | src/components/ScoreCalculator.jsx:14-17 | the initial sliders are within bounds and give 973, which overfills the gauge |
| ScoreEstimator.GaugeWithinTrack | src/components/ScoreCalculator.jsx:245-252 | the gauge fill is at most 100% exactly when the score is at most 850, and at least 0% exactly when it is at least 300 |
| ScoreEstimator.LabelBands | src/components/ScoreCalculator.jsx:65-70 | every score gets exactly one of four labels: Excellent from 750, Good on [670,750), Fair on [580,670), Poor below 580 |
| ScoreEstimator.LabelMonotone | src/components/ScoreCalculator.jsx:65-70 | a higher score never gets a lower label |
| ScoreEstimator.ColorMatchesLabel | src/components/ScoreCalculator.jsx:58-63 | two scores share a colour class exactly when they share a label |
| ScoreEstimator.CheckIconForGoodScores | src/components/ScoreCalculator.jsx:235-239 | the check icon (score ≥ 670) is shown exactly for the labels Good and Excellent |
| ScoreEstimator.FiredSpec | src/components/ScoreCalculator.jsx:73-78 | the factors that draw advice are exactly those needing work, in the order payment, utilisation, age, mix, at most four |
| ScoreEstimator.FiredStepwise | src/components/ScoreCalculator.jsx:73-78 | filtering the factors in order gives the same list as the four `if` tests appending one factor each |
| ScoreEstimator.AdviceShape | src/components/ScoreCalculator.jsx:72-80 | the advice list is never empty, has at most four messages and repeats none |
| ScoreEstimator.AdviceAllClearIff | src/components/ScoreCalculator.jsx:79 | the advice is the single all-clear message exactly when p ≥ 95, u ≤ 30, a ≥ 5 and m ≥ 3 |
| ScoreEstimator.AdviceMentions | src/components/ScoreCalculator.jsx:74-78 | a factor's message is in the advice exactly when that factor's threshold is crossed |
| ScoreEstimator.AdviceInFactorOrder | src/components/ScoreCalculator.jsx:73-78 | the advice is the all-clear message or an order-preserving sub-list of the four messages in factor order |
| ScoreEstimator.WorstCase | src/components/ScoreCalculator.jsx:72-80 | the lowest slider settings draw all four messages and the label Poor |
| ScoreEstimator.Calculator.constructor | src/components/ScoreCalculator.jsx:14-17 | the sliders start at (95, 30, 7, 3), within their bounds |
| ScoreEstimator.Calculator.SetPaymentHistory | src/components/ScoreCalculator.jsx:97 | a slider change stores the new payment history, changes no other slider and keeps all within bounds |
| ScoreEstimator.Calculator.SetCreditUtilization | src/components/ScoreCalculator.jsx:97 | a slider change stores the new utilisation, changes no other slider and keeps all within bounds |
| ScoreEstimator.Calculator.SetAccountAge | src/components/ScoreCalculator.jsx:97 | a slider change stores the new account age, changes no other slider and keeps all within bounds |
| ScoreEstimator.Calculator.SetCreditMix | src/components/ScoreCalculator.jsx:97 | a slider change stores the new credit mix, changes no other slider and keeps all within bounds |
| ScoreEstimator.Calculator.Score | src/components/ScoreCalculator.jsx:46-54 | the integer computation equals the rounded rational formula and lies in [495, 1200] |
| ScoreEstimator.Calculator.GetScoreAdvice | src/components/ScoreCalculator.jsx:72-80 | the step-by-step pushes produce exactly the advice of the rule table `Advice` |
| Lists.DistinctSpec | src/components/ErrorChecklist.jsx:156 | de-duplication keeps every element and only those, with no repeats, ordered by first appearance |
| Lists.FilterSpec | src/components/ErrorChecklist.jsx:159 | `filter` gives an order-preserving sub-list holding exactly the elements that pass, each as many times as in the input (multiset counts) |
| Text.ToLower | src/components/ErrorChecklist.jsx:162-164 | lower-casing keeps the length and maps each character on its own |
| Text.IncludesIffOccurs | src/components/ErrorChecklist.jsx:162-164 | `includes` holds exactly when the needle occurs at some position, so the empty needle is in every string |
| ErrorChecklist.CategoriesSpec | src/components/ErrorChecklist.jsx:154-157 | the chips are "All" followed by each category present exactly once, ordered by first appearance, and no other value |
| ErrorChecklist.AllChipOffered | src/components/ErrorChecklist.jsx:155 | "All" is always the first chip |
| ErrorChecklist.CommonCategoryNamesListed | src/components/ErrorChecklist.jsx:14-147 | the categories of the ten shipped entries, in order |
| ErrorChecklist.FilteredErrorsSpec | src/components/ErrorChecklist.jsx:159-168 | the shown list is an order-preserving sub-list of the entries holding exactly those that match both the search and the chip, each as often as in the entries |
| ErrorChecklist.NoFilterShowsAll | src/components/ErrorChecklist.jsx:159-168 | an empty search with the "All" chip shows every entry unchanged |
| ErrorChecklist.SearchMatchIff | src/components/ErrorChecklist.jsx:160-164 | an entry matches the search exactly when the lower-cased term occurs in its lower-cased title, description or category |
| ErrorChecklist.SearchIgnoresCase | src/components/ErrorChecklist.jsx:160-164 | two search terms with the same lower-case form match the same entries |
| ErrorChecklist.FilterIsSearchThenChip | src/components/ErrorChecklist.jsx:165-167 | filtering by search and chip together equals filtering by the search, then by the chip |
| ErrorChecklist.ChipKeepsItsCategory | src/components/ErrorChecklist.jsx:165-166 | with no search, a chip other than "All" shows exactly the entries of that exact category |
| ErrorChecklist.EveryChipShowsSomething | src/components/ErrorChecklist.jsx:154-168 | every offered chip, with no search, shows at least one entry |
| ErrorChecklist.SchemeInjective | src/components/ErrorChecklist.jsx:170-205 | the four colour schemes are pairwise different |
| ErrorChecklist.SeverityColorSpec | src/components/ErrorChecklist.jsx:170-205 | "high", "medium" and "low" get the red, yellow and emerald schemes, and exactly the other values get gray |
| ErrorChecklist.ToggleSpec | src/components/ErrorChecklist.jsx:350 | a click expands the card exactly when it was not expanded, never expands another card, and two clicks restore an expanded card |
| ErrorChecklist.AtMostOneExpanded | src/components/ErrorChecklist.jsx:339-345 | with distinct ids, whatever the filters, at most one shown card is the expanded one |
| ErrorChecklist.CommonErrorIdsDistinct | src/components/ErrorChecklist.jsx:14-146 | the ten shipped entries have pairwise different ids (the card keys) |
| ErrorChecklist.Checklist.FiltersActive | src/components/ErrorChecklist.jsx:326 | when the "Clear all filters" button is hidden, every entry is shown |
| ErrorChecklist.Checklist.constructor | src/components/ErrorChecklist.jsx:150-152 | the view starts with no card expanded, the "All" chip and an empty search, over the shipped entries, whose ids are distinct |
| ErrorChecklist.Checklist.HandleSearch | src/components/ErrorChecklist.jsx:207-209 | typing sets only the search term |
| ErrorChecklist.Checklist.SelectCategory | src/components/ErrorChecklist.jsx:307 | clicking a chip sets only the chosen category, which stays one of the offered chips |
| ErrorChecklist.Checklist.ClearSearch | src/components/ErrorChecklist.jsx:211-213 | clearing the search changes only the search term, so the chip alone decides what is shown, and a non-empty list never shows an empty page |
| ErrorChecklist.Checklist.ClearAll | src/components/ErrorChecklist.jsx:215-218 | clearing all resets the search and the chip, leaves the expanded card alone, hides the clear button and shows every entry |
| ErrorChecklist.Checklist.ToggleCard | src/components/ErrorChecklist.jsx:341-350 | a card click applies the toggle to the expanded card and changes nothing else; at most one shown card is expanded afterwards |
| Comparison.Keywords | src/components/Comparison.jsx:95-108 | "speed", "features" and "support" each look for two keywords; every other filter value looks for none |
| Comparison.KeepFeatureIff | src/components/Comparison.jsx:96-107 | a row is kept exactly when the filter has no keywords or the name contains one of them |
| Comparison.FilterFeaturesSpec | src/components/Comparison.jsx:95-108 | every filtered view is an order-preserving sub-list of the features holding exactly the rows whose name contains a keyword, each as often as in the table |
| Comparison.NoKeywordsShowsAll | src/components/Comparison.jsx:96-107 | "all" and any unrecognised filter value show every row in table order |
| Comparison.SpeedNeedsCapitals | src/components/Comparison.jsx:97-98 | "speed" matches case-sensitively: a name without a capital T and a capital I is dropped |
| Comparison.SpeedDropsRealTime | src/components/Comparison.jsx:97-98 | "speed" drops "Real-time Credit Monitoring" |
| Comparison.SpeedKeepsResponseTime | src/components/Comparison.jsx:97-98 | "speed" keeps "API Response Time" |
| Comparison.FilteredRowKeysDistinct | src/components/Comparison.jsx:308-310 | filtering a table whose names are distinct leaves them distinct, so the row keys never clash |
| Comparison.FeatureNamesDistinct | src/components/Comparison.jsx:5-78 | the twelve shipped rows have pairwise different names (the row keys) |
| Comparison.CheckBackground | src/components/Comparison.jsx:137 | the check circle is solid emerald exactly in the product's own column |
| Comparison.RenderValueClassifies | src/components/Comparison.jsx:123-187 | true gives a check, false a cross, "partial" a minus, and any other text is shown as it is; exactly one of these applies |
| Comparison.RenderValueRoundTrip | src/components/Comparison.jsx:123-187 | the drawn mark gives back the cell value it was drawn from |
| Comparison.RenderValueInjective | src/components/Comparison.jsx:123-187 | two different values are never drawn the same in one column |
| Comparison.ComparisonTable.Rows | src/components/Comparison.jsx:95-108 | the rows on screen are an order-preserving sub-list of the features holding exactly those the current filter keeps, each as often as in the table, with distinct names |
| Comparison.ComparisonTable.constructor | src/components/Comparison.jsx:88 | the table opens on "all", showing every feature in order |
| Comparison.ComparisonTable.SetFilter | src/components/Comparison.jsx:240 | a button click sets the filter, and the rows become exactly the features that filter keeps |

## Left out

- Viewport reveal effects (`IntersectionObserver`, `useInView`) are browser animation only.
- The comparison table's staggered row-reveal timers and `visibleRows` array are left out: they drive animation only.
- The contact form, the header menu and the static sections are left out: they compute nothing.
- Markup is left out: JSX layout, Tailwind classes other than the returned colour strings, icons and transition delays.
- Floating point is not modelled. `calculateScore` and the gauge width are computed in exact rationals. An IEEE result falling just below a .5 boundary is not represented.
- Text.ToLower: lower-cases ASCII letters only, not the full Unicode mapping of `toLowerCase`.
- Slider values are assumed to be in range. The setters require an in-range value because only an `<input type="range">` with the same bounds calls them; the browser's clamping and the `Number` conversion are not modelled.
- The error card's displayed details are left out as plain presentation:
  - the "How to Fix" steps and their count;
  - the capitalised severity badge text;
  - the "N Error(s) Found" caption.
- Comparison.SpeedDropsRealTime, Comparison.SpeedKeepsResponseTime: the concrete results of the three keyword filters on the shipped table are stated only for these two rows. The general membership law is FilterFeaturesSpec.
