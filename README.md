# NEST ULASLI booking, planner and gallery — a Dafny model

This project models the three pieces of logic in the NEST ULASLI website's pages:

- **Booking and enquiry** (`booking.dfy`, module `Booking`). It covers the villa table (ALYA: 700 € a night, sleeps 8; ZEHRA: 550 €, sleeps 6) and the fee constants. It covers the night count of a picked date range and the price breakdown: base, extra-guest fee, cleaning, 5 % service, total, and a 500 € deposit kept out of the total. It covers the capacity and minimum-stay rules behind the submit button and the swap of a reversed date range. The enquiry message is a list of abstract lines. The form's handlers are pure transitions over a `Form` value.
- **Profit planner** (`planner.dfy`, module `Planner`). It covers the villa rows with EBITDA and net profit, the column totals, the marketing ramp (`EffectiveYears`), the scenario presets, the scenario annual net profit and the 5/10/15-year return rows. The page state is the class `PlannerState`. It holds a `seq<Villa>` that `Update`, `AddVilla`, `RemoveVilla` and `ApplyScenario` replace. `ScenarioAnnualNet` is the page's accumulator loop, written as a `while` loop and proved against the functional sum `AnnualNet`.
- **Gallery** (`gallery.dfy`, module `Gallery`). It covers the media list, the type filter and the `findIndex` lookup of the active item. The class `GalleryPage` holds the filter and the active id, with `Open`, `Close`, `SetFilter` and `Go`, where `Go` steps through the items with wrap-around.

`common.dfy` holds `Option`, `Max0` (`Math.max(0, x)`) and the decimal notation used for the name `Villa {n}`.

Modelling choices:

- A calendar date is an integer day number. `differenceInCalendarDays` is subtraction, and `isBefore` is strict `<`.
- Money and ratios are exact `real` values, so 5 % of 5650 is exactly 282.5.
- Villa ids are abstract natural numbers that stand for `crypto.randomUUID()` results. The id `AddVilla` receives is a parameter. Its `requires` says the id is unused, which is what a fresh UUID gives.
- The number inputs are modelled as integers (guest counts) or reals (planner fields). A blank guest field is `None`, and its handler substitutes the default (`|| 1` for adults, `|| 0` for children and infants). A blank planner field reads as 0: the fee input has `|| 0`, and `Number("")` is 0 for the percentage inputs, so `OccupancyPatch` and `CostPatch` take a plain number.
- In JavaScript the empty string is falsy. So `activeId ? … : -1` gives -1 for an empty id as well as for no id, and `ActiveIndex` models both cases.
- In `go`, the value `activeIndex + dir + items.length` is never negative. So JavaScript's truncating `%` and Dafny's Euclidean `%` agree there.

An incomplete date range gives 0 nights, so `canSubmit` is false until both dates are picked. The optimistic scenario's cost ratio is 0.30. The per-row and footer ROI cells both apply the marketing ramp.

## Model

| member | source | states |
|---|---|---|
| Common.DecimalString | src/PlannerPage.tsx:58-59 | the template literal's notation of n: a non-empty string of digits that reads back as n, with no leading zero unless n is 0 |
| Booking.Villas | src/BookingPage.tsx:10-13 | ALYA is named "ALYA", costs 700 € a night and sleeps 8; ZEHRA is named "ZEHRA", costs 550 € and sleeps 6; both are positive |
| Booking.NightsOf | src/BookingPage.tsx:36-39 | 0 when either endpoint is missing; otherwise at least `to − from`, and positive only as exactly `to − from`; never negative |
| Booking.OnSelect | src/BookingPage.tsx:158-164 | a stored complete range has `from ≤ to`; it has the picked endpoints in the same or swapped order; completeness is unchanged; an incomplete pick is stored as is |
| Booking.SelectedNightsAreDistance | src/BookingPage.tsx:158-164 | picking two days in either order gives nights equal to their distance |
| Booking.ExtraGuests | src/BookingPage.tsx:69 | `max(0, adults + childrenOver2 − 2)`: 0 up to two guests, otherwise the guests beyond two |
| Booking.OverCapacity | src/BookingPage.tsx:65 | for a villa with beds for the two included guests, over capacity exactly when the chargeable extra guests outnumber the remaining beds |
| Booking.UnderMinNights | src/BookingPage.tsx:66 | a stay is under the minimum exactly when it has one or two nights |
| Booking.CanSubmit | src/BookingPage.tsx:103 | true iff nights ≥ 3 and adults + childrenOver2 ≤ sleeps; when true the stay is not under the minimum, not over capacity, and has nights |
| Booking.Price | src/BookingPage.tsx:70-83 | base is nights × nightly rate; with nights, the extra-guest fee is nights × 200 × extra guests and cleaning is 150; with 0 nights every amount is 0; service is 5 % of base + extra + cleaning; total is 1.05 × that sum, with the nightly closed form; the deposit is 500 and not in the total |
| Booking.PriceExample | src/BookingPage.tsx:70-83 | 5 nights in ALYA for 3 adults and 1 child: 3500 + 2000 + 150 + 282.5 = 5932.5, deposit 500, and the enquiry may be sent |
| Booking.TotalMonotoneInNights | src/BookingPage.tsx:70-80 | a longer stay never has a smaller total |
| Booking.InitialFormValid | src/BookingPage.tsx:44-49 | the opening form (ALYA, no dates, two adults, no note) is valid, has 0 nights and cannot be submitted |
| Booking.ClampCount | src/BookingPage.tsx:188 | a guest field gives its entry when that is at least the minimum, otherwise the minimum (1 for adults, 0 for children and infants) |
| Booking.Step | src/BookingPage.tsx:140-206 | each handler gives the whole new form: selecting stores `OnSelect` of the pick, switching villa sets the villa and clears the range, reset clears the range, each guest field becomes its clamped entry (minimum 1 for adults, 0 otherwise), the note becomes the text, and every other field is kept; every handler keeps the form valid |
| Booking.RunPreservesValid | src/BookingPage.tsx:140-206 | any sequence of handler calls from a valid form ends in a valid form |
| Booking.ValidNights | src/BookingPage.tsx:36-39 | in a valid form with both dates, nights is exactly `to − from` |
| Booking.InfantsNeverCount | src/BookingPage.tsx:63-69 | changing the infant count changes neither the quote nor `canSubmit` |
| Booking.EnquiryLines | src/BookingPage.tsx:89-101 | nine lines in order: the greeting; the villa's name; check-in and check-out (each absent when that date is not picked); adults, children over two and infants; `Nights: n` with the priced night count; the two included guests, the extra chargeable guests and the 200 € fee; the estimate with the total and the excluded 500 € deposit; and a last line that is the note, blank iff the note is empty |
| Booking.ParseNights | src/BookingPage.tsx:96 | finds a night count iff some line is a `Nights:` line, and the count it finds is the one on the first such line |
| Booking.EnquiryNightsRoundTrip | src/BookingPage.tsx:89-101 | reading the night count back from the message gives the nights the quote was computed from |
| Planner.RowOf | src/PlannerPage.tsx:43-47 | a row keeps its villa; EBITDA is a year (365 days) of the fee at the occupancy; EBITDA minus net is the cost share of EBITDA |
| Planner.RowBounds | src/PlannerPage.tsx:43-47 | with ratios in [0, 1] and a non-negative fee, 0 ≤ net ≤ EBITDA, and zero occupancy gives zero net |
| Planner.Rows | src/PlannerPage.tsx:43-47 | one row per villa, same length and order, each holding its villa and that villa's figures |
| Planner.FoldIsSum | src/PlannerPage.tsx:50-51 | the `reduce` accumulator from any start value equals the start plus the sum of the column |
| Planner.TotalsOf | src/PlannerPage.tsx:49-52 | the footer EBITDA and net, computed by the two `reduce` folds, are exactly the sums of the row values |
| Planner.TotalsAppend | src/PlannerPage.tsx:49-52 | appending a villa adds exactly its row's EBITDA and net to the totals |
| Planner.EffectiveYears | src/PlannerPage.tsx:84 | 0 for a horizon of at most 2 years; otherwise the horizon minus 2 |
| Planner.Roi | src/PlannerPage.tsx:193-195 | a 5Y/10Y/15Y cell, used by every row and by the footer (lines 205-207): 0 up to the two ramp years, otherwise the net times the years beyond the ramp |
| Planner.TotalsRoiIsSumOfRows | src/PlannerPage.tsx:193-207 | the footer's 5Y/10Y/15Y cells are the sums of the rows' cells |
| Planner.Patched | src/PlannerPage.tsx:55 | `{...v, ...patch}`: the id is kept; each field is the patch's value when given, else the villa's; an empty patch changes nothing |
| Planner.Updated | src/PlannerPage.tsx:54-56 | length and ids kept; villas with another id unchanged; villas with the id patched; distinct ids stay distinct |
| Planner.UpdatedKeepsRatios | src/PlannerPage.tsx:54-56 | a patch with in-range ratios keeps every villa's ratios in range |
| Planner.ClampPercent | src/PlannerPage.tsx:183 | the stored ratio is in [0, 1]; an entry in 0..100 is stored as entry / 100; below 0 gives 0, above 100 gives 1 |
| Planner.TableEditsInRange | src/PlannerPage.tsx:172-189 | every edit the table's inputs make is a patch with in-range ratios |
| Planner.NewVilla | src/PlannerPage.tsx:57-60 | the new villa has the given id, the name `Villa ` followed by the canonical decimal notation of its 1-based position (digits that read back as count + 1, no leading zero), fee 600, occupancy 0.6, cost 0.35, and ratios in range |
| Planner.Appended | src/PlannerPage.tsx:57-60 | one more villa; the earlier ones untouched; the new one has the fresh id, the name `Villa {len+1}`, fee 600, occupancy 0.6 and cost 0.35; fresh id keeps ids distinct |
| Planner.Removed | src/PlannerPage.tsx:61 | `filter(v => v.id !== id)`: never longer than the list, and no remaining villa has the removed id |
| Planner.RemovedMembers | src/PlannerPage.tsx:61 | the result holds exactly the villas whose id differs |
| Planner.RemovedAbsent | src/PlannerPage.tsx:61 | removing an id no villa has changes nothing |
| Planner.RemovedKeepsDistinct | src/PlannerPage.tsx:61 | removal keeps ids distinct |
| Planner.RemovedKeepsRatios | src/PlannerPage.tsx:61 | removal keeps every ratio in range |
| Planner.RemovedAt | src/PlannerPage.tsx:61 | with distinct ids, removing the id at index k drops that entry and keeps the rest in order |
| Planner.ScenarioFees | src/PlannerPage.tsx:64-68 | each preset has two positive fees: pessimistic 400 and 350, base 700 and 550, optimistic 1000 and 800 |
| Planner.ScenarioCost | src/PlannerPage.tsx:69-73 | the cost ratio is 0.40 for pessimistic, 0.35 for base and 0.30 for optimistic, so always in [0, 1] |
| Planner.FeeAt | src/PlannerPage.tsx:77 | `fees[scn][i]` is defined exactly for indices 0 and 1 |
| Planner.ScenarioVilla | src/PlannerPage.tsx:74-80 | villa i keeps its id and gets occupancy 0.60 and the preset's cost; villas 0 and 1 become ALYA and ZEHRA at the preset's fee; later villas keep name and fee |
| Planner.WithScenario | src/PlannerPage.tsx:74-80 | length and ids kept; index 0 becomes ALYA and index 1 ZEHRA, both with the preset's fee; later villas keep name and fee; every villa gets occupancy 0.60 and the preset's cost |
| Planner.WithScenarioIdempotent | src/PlannerPage.tsx:63-81 | applying a preset twice equals applying it once |
| Planner.ScenarioSlotNet | src/PlannerPage.tsx:91-95 | slot i's net is the preset fee of slot 1 for i = 1 and of slot 0 otherwise, times 365 × 0.60 × (1 − cost); it is never negative |
| Planner.AnnualNet | src/PlannerPage.tsx:86-98 | the sum of the slot nets over the villas: never negative, and with any villa at least slot 0's net |
| Planner.AnnualNetClosedForm | src/PlannerPage.tsx:86-98 | the scenario sum is slot 0's net, plus slot 1's net and (count − 2) more of slot 0's net when there are at least two villas |
| Planner.BaseScenarioExample | src/PlannerPage.tsx:86-98 | base scenario: 99,645 + 78,292.5 = 177,937.5 a year and 1,423,500 over 10 years |
| Planner.PresetRowNet | src/PlannerPage.tsx:74-97 | after a preset, the table row of villa 0 or 1 has the net the projection uses for that slot |
| Planner.PresetTableMatchesProjection | src/PlannerPage.tsx:43-98 | with at most two villas, the table's net total right after a preset equals the scenario annual net |
| Planner.RoiRows | src/PlannerPage.tsx:100-110 | year 5, 10 and 15 rows hold each scenario's annual net × 3, × 8 and × 13 |
| Planner.PlannerState.constructor | src/PlannerPage.tsx:23-26 | starts with ALYA (700, 0.60, 0.35) and ZEHRA (550, 0.60, 0.35) and a valid state |
| Planner.PlannerState.Update | src/PlannerPage.tsx:54-56 | the list becomes `Updated` of the old one; ids stay distinct; an in-range patch keeps the state valid |
| Planner.PlannerState.AddVilla | src/PlannerPage.tsx:57-60 | the list becomes `Appended` of the old one and stays valid |
| Planner.PlannerState.RemoveVilla | src/PlannerPage.tsx:61 | the list becomes `Removed` of the old one and stays valid |
| Planner.PlannerState.ApplyScenario | src/PlannerPage.tsx:63-81 | the list becomes `WithScenario` of the old one and stays valid |
| Planner.PlannerState.ScenarioAnnualNet | src/PlannerPage.tsx:86-98 | the loop's accumulator equals the sum over villa slots, which depends only on the number of villas |
| Planner.PlannerState.RoiTable | src/PlannerPage.tsx:100-110 | the chart data equals `RoiRows` for the current number of villas |
| Gallery.MediaWellFormed | src/GalleryPage.tsx:9-21 | the media ids are distinct and non-empty |
| Gallery.OfKind | src/GalleryPage.tsx:31-32 | `filter(m => m.type === kind)`: never longer than the list, and every kept item has the kind |
| Gallery.OfKindMembers | src/GalleryPage.tsx:31-32 | the type filter keeps exactly the items of that type |
| Gallery.OfKindAppend | src/GalleryPage.tsx:31-32 | filtering a concatenation is the concatenation of the filtered parts, so order is kept |
| Gallery.OfKindPartition | src/GalleryPage.tsx:31-32 | the photos and the videos together are the whole list, counted with multiplicity |
| Gallery.OfKindKeepsDistinct | src/GalleryPage.tsx:31-32 | filtering keeps ids distinct |
| Gallery.Items | src/GalleryPage.tsx:30-34 | "all" is the whole list; otherwise an item is shown iff it is in the list and has the filter's type |
| Gallery.ItemsWellFormed | src/GalleryPage.tsx:30-34 | the shown items have distinct, non-empty ids |
| Gallery.ItemsOfMedia | src/GalleryPage.tsx:9-34 | on the page's list, "photos" is the seven images and "videos" is the one video, in order |
| Gallery.FindIndex | src/GalleryPage.tsx:37 | -1 iff no item has the id; otherwise the index of the first item with it |
| Gallery.FindIndexOfDistinct | src/GalleryPage.tsx:37 | with distinct ids, looking up item k's id gives k |
| Gallery.ActiveIndex | src/GalleryPage.tsx:36-39 | non-negative iff there is a non-empty active id that some item has, and then it is the first such item's index |
| Gallery.Wrap | src/GalleryPage.tsx:47 | the next index is in [0, len); +1 from the last gives the first, −1 from the first gives the last, otherwise a step of one |
| Gallery.StepLandsOn | src/GalleryPage.tsx:44-51 | after a step, the active index is exactly the wrapped index |
| Gallery.GalleryPage.constructor | src/GalleryPage.tsx:27-28 | starts on "all" with no active item and the lightbox hidden |
| Gallery.GalleryPage.LightboxShown | src/GalleryPage.tsx:143 | the lightbox is shown iff there is a non-empty active id that a shown item has, and then it shows that item |
| Gallery.GalleryPage.SetFilter | src/GalleryPage.tsx:27-34 | the active id is kept; the lightbox stays shown iff the active item is among the new filter's items |
| Gallery.GalleryPage.Open | src/GalleryPage.tsx:41 | sets the active id; for a shown item the lightbox opens on it |
| Gallery.GalleryPage.Close | src/GalleryPage.tsx:42 | clears the active id and hides the lightbox |
| Gallery.GalleryPage.Go | src/GalleryPage.tsx:44-51 | does nothing when no item is shown; otherwise the lightbox stays shown on the wrapped index |

## Left out

- Rendering, routing, styling and the static pages (`App.tsx`, `Home.tsx`, `components/TopNav.tsx`): they hold no logic.
- The charts (`ScenarioChart.tsx` and the chart in `PlannerPage.tsx`): they only render; the chart's data is `RoiTable`.
- The calendar widget's disabled dates (past days and the `BOOKED` ranges): the date-picker library enforces them.
- The window resize effect and the gallery's keyboard listener: browser events. The keyboard handler only calls `Close` and `Go`.
- The exchange-rate fetch and the `fx` display conversion: network I/O and a display multiplication. All amounts are in euros.
- Number and date formatting (`Intl.NumberFormat`, `toFixed`, `format`) and `encodeURIComponent`: the enquiry is a list of abstract lines.
- IEEE-754 rounding, `NaN` from non-numeric entries, and fractional guest counts: the model uses exact reals and integer counts.
- Planner.Patched: the model's patch has no `id` field. `Partial<Villa>` would allow one, but every caller patches only name, fee, occupancy or cost.
- Planner.PlannerState.AddVilla: requires the new id to be unused. This models the uniqueness of `crypto.randomUUID()`, which the model does not generate.
- Planner.PlannerState.Update: keeps the full state invariant only for patches whose ratios lie in [0, 1]. Every table input produces such a patch (`TableEditsInRange`).
- Planner.PresetTableMatchesProjection: holds only for at most two villas. From index 2 on, the table keeps each villa's own fee, while the projection uses the first scenario fee.
