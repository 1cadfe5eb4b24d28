# Overflow pager indicator — a Dafny model

The overflow pager indicator is an Android widget. It draws one dot per page
of a paged list and grows the dot of the selected page. When there are more
pages than a configured dot budget (`dots_max_count`, default 9), it shows
only a sliding window of dots. The window's edge dots shrink ("taper") so
that the row seems to continue beyond the window.

This project models the widget's state logic and proves properties of it:

- `tiers.dfy`: the five dot tiers (Gone, Smallest, Small, Normal, Selected)
  and the scale factor each stands for.
- `overflow.dfy`: the overflow-mode tier computation. Given the selected
  position `p`, the page count `n` and the budget `m`, it yields an array of
  `n + 1` tiers. The model has two parts. `OverflowStates` follows the
  source's stores one by one, and a store outside the array yields `None`,
  as the JVM's index-out-of-bounds exception would. `WindowTier` is an
  independent per-index description in terms of the window
  `[RealStart, RealStart + m)`. The two are proved equal for `n > m >= 2`
  and `0 <= p <= n`.
- `overflow_compute.dfy`: the same computation written imperatively over an
  array, proved equal to `OverflowStates`.
- `indicator.dfy`: the widget as a state machine. Its state is the page
  count, the budget, the last selected position and one dot per page. Each
  dot records whether it is shown and the scale it was last animated to. The
  events are page selection (simple or overflow mode), initialisation and
  re-synchronisation on an item-count change. A runtime exception is a
  `Raised` value: the fault plus the state the widget is left in.
- `indicator_properties.dfy`: what these events guarantee.
- `counting.dfy` and `wrappers.dfy`: helpers (counting elements that pass a
  test, and `Option`/`Result`).

Behaviour of the code worth knowing:

- In simple mode, a selection changes only two dots. The previous dot goes
  back to Normal and the new one becomes Selected. The model does not
  recompute the whole row.
- A hidden (Gone) dot keeps the scale it last had. The source hides the view
  but does not animate it.
- The fill loop at line 183 stops at `realStart + m - 3`, so for 20 pages,
  a budget of 9 and page 0 the trailing taper falls on 7 and 8: Selected at 0,
  Normal at 1–6, Small at 7, Smallest at 8 and Gone at 9–19 (`FirstOfTwenty`).
- The tier array has `n + 1` slots, and position `n` passes the range guard.
  Its Selected stamp lands in the extra slot, which is never applied to a
  dot, so no shown dot is selected (`PastEndShowsNoSelection`).
- No store leaves the array for budgets of 1 or more
  (`NoFaultWithBudgetOne`). With one page and a budget below 1, initialisation
  raises index-out-of-bounds (`InitSinglePageFaults`). The window properties
  (containment, at most `m` dots shown, tail pin) need a budget of at least 4.
  `BudgetTwoShowsThree` shows three dots shown under a budget of two.
- An initialisation that raises has already stored the new count and rebuilt
  the dots. A later re-synchronisation with the same item count therefore
  does nothing (`FaultedInitIsNotRetried`).

## Model

| member | source | states |
|---|---|---|
| `Tiers.Scale` | library/src/main/java/cz/intik/overflowindicator/OverflowPagerIndicator.java:41-45 | every scale lies in [0, 1]; only Gone has scale 0 and only Selected has scale 1, so the float test against the Gone constant is a test for the Gone tier |
| `Tiers.ScaleOrdersTiers` | library/src/main/java/cz/intik/overflowindicator/OverflowPagerIndicator.java:41-45 | scale factors strictly increase along Gone < Smallest < Small < Normal < Selected, and distinct tiers have distinct scales |
| `Overflow.Fill` | library/src/main/java/cz/intik/overflowindicator/OverflowPagerIndicator.java:183-185 | the store loop succeeds exactly when the range is empty or inside the array; it then sets every slot in the range and leaves every other slot unchanged |
| `Overflow.Put` | library/src/main/java/cz/intik/overflowindicator/OverflowPagerIndicator.java:164-194 | a store succeeds exactly when the index lies inside the array; it then writes that slot and leaves every other slot unchanged |
| `Overflow.StartOf` | library/src/main/java/cz/intik/overflowindicator/OverflowPagerIndicator.java:167-168 | the window start clamped by `Math.max` is never negative |
| `Overflow.RealStart` | library/src/main/java/cz/intik/overflowindicator/OverflowPagerIndicator.java:167-171 | a pinned window starts at `n - m`; an unpinned one keeps the clamped start and ends inside the dots; whenever `m < n` the window lies inside `[0, n)` |
| `Overflow.TrailingEdge` | library/src/main/java/cz/intik/overflowindicator/OverflowPagerIndicator.java:170-181 | when no store faults, the array keeps its length and only the last two slots of the window can change |
| `Overflow.LeadingEdge` | library/src/main/java/cz/intik/overflowindicator/OverflowPagerIndicator.java:187-192 | below position 5 nothing is written; otherwise, when no store faults, only the first two slots of the window can change |
| `Overflow.OverflowStates` | library/src/main/java/cz/intik/overflowindicator/OverflowPagerIndicator.java:164-194 | when no store faults, the array has `n + 1` slots, the position lies in `[0, n]`, and that slot is Selected |
| `Overflow.TrailingEdgeInBounds` | library/src/main/java/cz/intik/overflowindicator/OverflowPagerIndicator.java:170-181 | for `n > m >= 2` the trailing stores stay in bounds and only touch the last two window slots: both Normal when pinned, Small then Smallest otherwise |
| `Overflow.LeadingEdgeInBounds` | library/src/main/java/cz/intik/overflowindicator/OverflowPagerIndicator.java:187-192 | for `n > m >= 2` the leading stores stay in bounds and only touch the first two window slots, keyed on the absolute position |
| `Overflow.OverflowStatesMatchWindow` | library/src/main/java/cz/intik/overflowindicator/OverflowPagerIndicator.java:164-194 | for `n > m >= 2` and `0 <= p <= n`, no store faults and every slot holds its window reference tier |
| `Overflow.OverflowFaultsOnlyOutsideGuards` | library/src/main/java/cz/intik/overflowindicator/OverflowPagerIndicator.java:153-194 | for `n > m >= 2` the computation succeeds exactly for positions the range guard admits |
| `Overflow.ExactlyOneSelected` | library/src/main/java/cz/intik/overflowindicator/OverflowPagerIndicator.java:164-194 | slot `p` is Selected and no other slot is |
| `Overflow.WindowContainment` | library/src/main/java/cz/intik/overflowindicator/OverflowPagerIndicator.java:167-194 | the window lies inside `[0, n)`; for `m >= 4` every non-Gone dot below `n` lies in the window, and so does any selected position below `n` |
| `Overflow.AtMostBudgetShown` | library/src/main/java/cz/intik/overflowindicator/OverflowPagerIndicator.java:164-194 | for `m >= 4` at most `m` of the first `n` slots are not Gone |
| `Overflow.TailPin` | library/src/main/java/cz/intik/overflowindicator/OverflowPagerIndicator.java:170-173 | when the window would pass the end it starts at `n - m`, and for `m >= 4` dots `n - 1` and `n - 2` end Normal unless selected |
| `Overflow.TrailingTaper` | library/src/main/java/cz/intik/overflowindicator/OverflowPagerIndicator.java:174-181 | an unpinned window keeps the clamped start, and for `m >= 4` its last two slots end Small and Smallest unless selected |
| `Overflow.LeadingTaper` | library/src/main/java/cz/intik/overflowindicator/OverflowPagerIndicator.java:187-192 | past position 5 the window opens Smallest then Small, at position 5 it opens Small, and below 5 it opens Normal (for `m >= 3`); the Selected stamp overrides each |
| `Overflow.NormalBlock` | library/src/main/java/cz/intik/overflowindicator/OverflowPagerIndicator.java:183-185 | past the leading taper (two slots past position 5, one at position 5, none below) and before the trailing slots, every unselected dot is Normal |
| `Overflow.SingleDotFaults` | library/src/main/java/cz/intik/overflowindicator/OverflowPagerIndicator.java:170-173 | with one page and a budget below 1, the tail-pin store at `n - 2` falls outside the array |
| `Overflow.BudgetOneInBounds` | library/src/main/java/cz/intik/overflowindicator/OverflowPagerIndicator.java:164-194 | with a budget of one and at least two pages, no store leaves the array for any admitted position |
| `Overflow.BudgetTwoShowsThree` | library/src/main/java/cz/intik/overflowindicator/OverflowPagerIndicator.java:167-181 | with budget 2, five pages and page 0, the window starts past the selected dot and three dots are shown |
| `Overflow.FirstOfTwenty` | library/src/main/java/cz/intik/overflowindicator/OverflowPagerIndicator.java:164-194 | 20 pages, budget 9, page 0: Selected, six Normal, Small, Smallest, then Gone |
| `Overflow.LastOfTwenty` | library/src/main/java/cz/intik/overflowindicator/OverflowPagerIndicator.java:164-194 | 20 pages, budget 9, page 19: window pinned at 11, which opens Smallest then Small, then Normal up to 18, with 19 Selected |
| `OverflowCompute.StoreTrailingEdge` | library/src/main/java/cz/intik/overflowindicator/OverflowPagerIndicator.java:170-181 | the imperative trailing stores leave the array equal to the functional trailing edge, or fault exactly when it does |
| `OverflowCompute.StoreLeadingEdge` | library/src/main/java/cz/intik/overflowindicator/OverflowPagerIndicator.java:187-192 | the imperative leading stores leave the array equal to the functional leading edge, or fault exactly when it does |
| `OverflowCompute.ComputeOverflowStates` | library/src/main/java/cz/intik/overflowindicator/OverflowPagerIndicator.java:164-194 | the array algorithm, with its fill loop, returns the statement-by-statement result (fault included), and that result is the window reference for `n > m >= 2` |
| `Indicator.Animate` | library/src/main/java/cz/intik/overflowindicator/OverflowPagerIndicator.java:255-263 | animating a missing child changes nothing; animating a present child changes only its scale, and never any visibility |
| `Indicator.Show` | library/src/main/java/cz/intik/overflowindicator/OverflowPagerIndicator.java:206-212 | a dot is shown exactly when its tier is not Gone; a shown dot takes the tier, and a hidden dot keeps its previous scale |
| `Indicator.ApplyTiers` | library/src/main/java/cz/intik/overflowindicator/OverflowPagerIndicator.java:201-215 | only dots below `n` are touched; each is shown exactly when its tier is not Gone and then takes that tier; it faults with a null view exactly when a dot below `n` is missing |
| `Indicator.UpdateSimple` | library/src/main/java/cz/intik/overflowindicator/OverflowPagerIndicator.java:138-146 | count, budget and number of dots are kept and the position is recorded, even one without a dot |
| `Indicator.UpdateOverflow` | library/src/main/java/cz/intik/overflowindicator/OverflowPagerIndicator.java:148-199 | an empty widget or a position outside `[0, count]` changes nothing; any change records a position inside `[0, count]` and keeps count, budget and dots; a fault leaves the state as it was |
| `Indicator.OnPageSelected` | library/src/main/java/cz/intik/overflowindicator/OverflowPagerIndicator.java:107-113 | a selection never changes count, budget or number of dots, a selection that raises leaves the state as it was, and within the budget it always succeeds and records the position |
| `Indicator.CreateIndicators` | library/src/main/java/cz/intik/overflowindicator/OverflowPagerIndicator.java:217-246 | there are no dots for at most one page and one dot per page otherwise; every dot is shown, at Smallest in overflow mode and at Normal otherwise |
| `Indicator.Init` | library/src/main/java/cz/intik/overflowindicator/OverflowPagerIndicator.java:131-136 | a successful initialisation records the adapter's count and the budget and leaves the dots well formed; one that raises leaves the new count, well-formed rebuilt dots and no recorded position |
| `Indicator.UpdateIndicatorsCount` | library/src/main/java/cz/intik/overflowindicator/OverflowPagerIndicator.java:125-129 | with an unchanged count nothing happens; a changed count is exactly a fresh initialisation with the new count and the same budget |
| `Indicator.SelectionPreservesWf` | library/src/main/java/cz/intik/overflowindicator/OverflowPagerIndicator.java:201-215 | a selection keeps one dot per page (none for at most one page), and hiding a dot never gives it scale 0 |
| `IndicatorProperties.NeverNullView` | library/src/main/java/cz/intik/overflowindicator/OverflowPagerIndicator.java:201-227 | from a well-formed state a selection can raise only index-out-of-bounds, never a null-child dereference |
| `IndicatorProperties.NoFaultWithBudgetOne` | library/src/main/java/cz/intik/overflowindicator/OverflowPagerIndicator.java:107-199 | with a budget of at least 1 no selection raises, whatever the position |
| `IndicatorProperties.OverflowIgnoresBadPosition` | library/src/main/java/cz/intik/overflowindicator/OverflowPagerIndicator.java:149-155 | in overflow mode, zero pages or a position outside `[0, count]` leaves the whole state unchanged, the last selection included |
| `IndicatorProperties.OverflowSelection` | library/src/main/java/cz/intik/overflowindicator/OverflowPagerIndicator.java:148-215 | an overflow selection shows exactly the dots whose window tier is not Gone, at that tier; hidden dots keep their scale; the position is recorded |
| `IndicatorProperties.OverflowIgnoresHistory` | library/src/main/java/cz/intik/overflowindicator/OverflowPagerIndicator.java:164-198 | the overflow result depends only on position, count and budget: any two histories give the same shown dots at the same scales |
| `IndicatorProperties.OverflowShowsOneSelected` | library/src/main/java/cz/intik/overflowindicator/OverflowPagerIndicator.java:194-213 | after an overflow selection a dot is shown at Selected scale exactly when it is the selected one |
| `IndicatorProperties.PastEndShowsNoSelection` | library/src/main/java/cz/intik/overflowindicator/OverflowPagerIndicator.java:153-213 | selecting position `count` is admitted and recorded, but no shown dot is selected |
| `IndicatorProperties.OverflowShowsAtMostBudget` | library/src/main/java/cz/intik/overflowindicator/OverflowPagerIndicator.java:164-215 | for a budget of at least 4, an overflow selection leaves at most `maxDots` dots shown |
| `IndicatorProperties.SimpleSelection` | library/src/main/java/cz/intik/overflowindicator/OverflowPagerIndicator.java:138-146 | in simple mode the previous dot returns to Normal, dot `p` becomes Selected, every other dot and all visibility are unchanged, and `p` is recorded |
| `IndicatorProperties.SimpleSelectionKeepsShape` | library/src/main/java/cz/intik/overflowindicator/OverflowPagerIndicator.java:138-146 | simple-mode selections keep every dot shown; afterwards dot `p` is the only Selected one (none when `p` has no dot) and every other dot is Normal |
| `IndicatorProperties.InitSimple` | library/src/main/java/cz/intik/overflowindicator/OverflowPagerIndicator.java:131-146 | initialising within the budget succeeds, selects page 0 and builds the simple-mode shape |
| `IndicatorProperties.InitOverflow` | library/src/main/java/cz/intik/overflowindicator/OverflowPagerIndicator.java:131-136 | initialising past a budget of at least 2 selects page 0; window dots show their tier and the rest are hidden, still at the initial Smallest |
| `IndicatorProperties.InitNoPages` | library/src/main/java/cz/intik/overflowindicator/OverflowPagerIndicator.java:131-155 | zero pages give no dots; page 0 is recorded unless the overflow guard for zero pages applies |
| `IndicatorProperties.InitSinglePageFaults` | library/src/main/java/cz/intik/overflowindicator/OverflowPagerIndicator.java:131-173 | one page with a budget below 1 makes initialisation raise index-out-of-bounds, leaving count 1, no dots and no recorded position |
| `IndicatorProperties.FaultedInitIsNotRetried` | library/src/main/java/cz/intik/overflowindicator/OverflowPagerIndicator.java:125-136 | after an initialisation raises, the widget already holds the new count, so a re-sync with the same item count does nothing |
| `IndicatorProperties.ResyncIdempotent` | library/src/main/java/cz/intik/overflowindicator/OverflowPagerIndicator.java:125-129 | re-synchronising twice with the same item count is the same as once |
| `IndicatorProperties.ResyncForgetsHistory` | library/src/main/java/cz/intik/overflowindicator/OverflowPagerIndicator.java:125-136 | a re-sync that changes the count depends only on the new count and the budget |
| `IndicatorProperties.ThreePagesSelectSecond` | library/src/main/java/cz/intik/overflowindicator/OverflowPagerIndicator.java:107-146 | three pages, default budget, page 1: Normal, Selected, Normal |

## Left out

- Android view plumbing: the `LinearLayout` base class, view creation, layout parameters and `removeAllViews`. A dot is reduced to its visibility and its scale.
- Attribute and theme parsing, colour parsing, drawable styling and dp-to-px conversion. None of these feed the tier logic; the budget is a plain parameter.
- `TransitionManager`/`TransitionSet` and the `animate()` scale animation are asynchronous UI calls. "Animate dot i to t" is modelled as "dot i now has scale t", which is the last-write-wins target.
- `attachToRecyclerView`, adapter observer registration and the swallowed `IllegalStateException` in `onDetachedFromWindow` are lifecycle glue. Attaching amounts to `Init` with the adapter's item count, passed in as a parameter.
- Java's 32-bit `int` arithmetic: `mIndicatorCount + 1` (line 164), `position - mDotsMaxCount + 4` (line 167), `realStart + mDotsMaxCount` (line 170) and the window-end sums `realStart + mDotsMaxCount - 2` and `- 1` (lines 175-183) are unbounded integers here. They wrap only for budgets or page counts near the `int` limits, for example a page count within a few of `Integer.MAX_VALUE` with the default budget.
- `Indicator.ApplyTiers`: on a null child the source has already updated the dots before it. The model reports the fault with the dots untouched. This is exact from well-formed states, where a missing child means there are no dots at all (`NeverNullView`).
- A transition begun before a fault is not modelled. A fault escapes to the caller as a `Failure` carrying the state left behind: unchanged for a page selection, and the rebuilt, unselected widget for an initialisation.
