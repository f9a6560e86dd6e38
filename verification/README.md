# TeaWise flavor forge: the interactive core, in Dafny

TeaWise is a tea-tasting notebook web app. Most of it is layout over fixed
sample data. Its logic sits in four components, and this project models
those four and proves properties about them:

- **Flavor wheel** (`FlavorWheel.dfy`, `FlavorToggle.dfy`). A canvas wheel has
  an inert hub, an inner ring of sub-flavors and an outer ring of eight flavor
  categories. The hit test maps a pointer (its distance from the centre, and
  its angle as a fraction of a turn) to the label under it. A click toggles
  that label in the caller's flat list of selected flavors: a present label is
  removed everywhere, an absent one is appended. Mouse moves and leaving the
  canvas overwrite the hovered label (`class Wheel`). The only part of the
  drawing kept is the predicate that decides whether sub-flavor text fits.
- **Tasting-record form** (`TeaRecordForm.dfy`, `TeaTypes.dfy`). A `TeaRecord`
  is held as state (`class Form`). Each input replaces exactly one field. The
  tag badges toggle a flavor in `flavorTags` with the same toggle as the wheel.
  Submit checks that the name and the tea type are non-empty before it saves
  and closes. The `onSave`/`onClose` callbacks and the toasts are recorded, in
  order, as a log of effects.
- **Collection view** (`TeaCollection.dfy`). This is a pure pipeline. It keeps
  the teas whose name or origin contains the search term, ignoring case. It
  then keeps one tea type, or every type when the filter is "all". Finally it
  sorts by one of five keys.
- **Onboarding tour** (`OnboardingTour.dfy`). A step counter moves within four
  steps under guarded Next/Previous (`class Tour`). The progress dots, the
  "k / n" counter, the disabled Previous button and the finish button are all
  derived from it.

`Options.dfy` holds the option type that stands for JavaScript's
`string | null`.

Four traits of the code are easy to miss, and the model keeps them:

- **Ring boundaries.** The code compares distances strictly (`>`/`<`), not as
  half-open intervals. So a pointer exactly on the hub circle, or exactly on
  the circle between the two rings, hits nothing. `HitIffInsideRing` states
  this.
- **Angle clamp.** The code does not clamp the sector index. The model
  therefore requires the angle fraction to lie in [0, 1).
- **Empty configuration.** The code has no guard for a configuration with no
  categories or an empty category. The hit test therefore requires a
  well-formed configuration (`WellFormed`).
- **Toggling twice.** Toggling twice restores the original list only when the
  label was absent (`ToggleTwiceAbsent`). For a present label, the first toggle
  removes every copy and the second appends one copy at the end
  (`ToggleTwicePresent`).

## Model

| member | source | states |
|---|---|---|
| FlavorToggle.RemoveAll | src/components/FlavorWheel.tsx:198 | the filtered list contains no copy of the label, and every other label keeps its number of occurrences |
| FlavorToggle.Toggle | src/components/FlavorWheel.tsx:197-199 | the label is in the new list exactly when it was not in the old one; other labels keep their counts; an absent label is appended once, at the end, behind the old list in its old order; a present label is removed by the order-keeping `RemoveAll` |
| FlavorToggle.RemoveAllAppend | src/components/FlavorWheel.tsx:198 | filtering distributes over concatenation, so the kept labels stay in their original order |
| FlavorToggle.RemoveAllAbsent | src/components/FlavorWheel.tsx:198 | filtering out a label that does not occur leaves the list unchanged |
| FlavorToggle.RemoveAllNoDuplicates | src/components/FlavorWheel.tsx:198 | filtering keeps a duplicate-free list duplicate-free |
| FlavorToggle.ToggleNoDuplicates | src/components/TeaRecordForm.tsx:57-59 | toggling keeps a duplicate-free selection duplicate-free |
| FlavorToggle.ToggleTwiceAbsent | src/components/FlavorWheel.tsx:197-199 | toggling an absent label twice restores the original list exactly |
| FlavorToggle.ToggleTwicePresent | src/components/FlavorWheel.tsx:197-199 | toggling a present label twice restores the same set of labels, with that label moved to the end once |
| FlavorWheel.RingsOf | src/components/FlavorWheel.tsx:161-164 | the outer radius is 20 inside the nearer canvas edge, the ring boundary is 0.4 of it, and the hub is half the boundary |
| FlavorWheel.WheelCanvasRings | src/components/FlavorWheel.tsx:226-227 | on the mounted 300×300 canvas the radii are 130, 52 and 26 |
| FlavorWheel.RingsNested | src/components/FlavorWheel.tsx:163-164 | on any canvas wider and taller than 40, 0 < hub < ring boundary < outer radius |
| FlavorWheel.SegmentIndex | src/components/FlavorWheel.tsx:174 | for an angle fraction in [0, 1) the sector index lies in [0, N−1] |
| FlavorWheel.SectorSpan | src/components/FlavorWheel.tsx:174 | sector i is exactly the half-open span [i/N, (i+1)/N) of the turn, so an angle on a boundary belongs to the sector starting there |
| FlavorWheel.SubIndex | src/components/FlavorWheel.tsx:182-187 | the sub-flavor index inside the sector lies in [0, M−1] |
| FlavorWheel.SubSectorSpan | src/components/FlavorWheel.tsx:182-187 | sub-flavor k of sector i is exactly the span [(i + k/M)/N, (i + (k+1)/M)/N): the sector is split into M equal half-open parts in order |
| FlavorWheel.SegmentFromPoint | src/components/FlavorWheel.tsx:153-192 | without a canvas there is no hit; any hit is the name of the angle's category or one of that category's sub-flavors |
| FlavorWheel.OuterRingHit | src/components/FlavorWheel.tsx:177-179 | a distance strictly between the ring boundary and the outer radius hits the category name of the angle's sector |
| FlavorWheel.InnerRingHit | src/components/FlavorWheel.tsx:180-188 | a distance strictly between the hub and the ring boundary hits the angle's sub-flavor of that same category |
| FlavorWheel.HitIffInsideRing | src/components/FlavorWheel.tsx:172-191 | there is a hit exactly when the distance is strictly inside one ring; the hub, both ring circles and everything from the outer radius on hit nothing |
| FlavorWheel.ClickChange | src/components/FlavorWheel.tsx:194-202 | no hit, or an empty label, means no callback; otherwise the callback gets the toggled list, so by `Toggle`'s contract the label's membership flips, an absent label is appended once at the end, and every other label keeps its count |
| FlavorWheel.Wheel.constructor | src/components/FlavorWheel.tsx:12 | the wheel starts with no hovered label |
| FlavorWheel.Wheel.MouseMove | src/components/FlavorWheel.tsx:204-207 | the hovered label becomes exactly the hit-test result, including no label |
| FlavorWheel.Wheel.MouseLeave | src/components/FlavorWheel.tsx:209-211 | leaving the canvas clears the hovered label |
| FlavorWheel.Wheel.Click | src/components/FlavorWheel.tsx:194-202 | a click reports a change exactly when the hit test finds a non-empty label, and the change is the selection with that label toggled |
| FlavorWheel.SubLabelDrawnIff | src/components/FlavorWheel.tsx:123 | sub-flavor text is drawn exactly when the wheel has at most 20 inner-ring parts |
| FlavorWheel.NoSubLabelText | src/components/FlavorWheel.tsx:123 | with 8 sectors of 5 parts, (2π/8)/5 ≤ 0.3, so no sub-flavor text is drawn |
| FlavorWheel.FlavorCategoriesShape | src/components/FlavorWheel.tsx:14-55 | the configuration has 8 categories of 5 sub-flavors each and is usable by the hit test |
| FlavorWheel.LabelIdentifiesSegment | src/components/FlavorWheel.tsx:14-55 | the 8 category names and 40 sub-flavors are pairwise distinct: equal labels are at the same position |
| FlavorWheel.HitPosition | src/components/FlavorWheel.tsx:174-188 | every hit on the fixed wheel is the label at some position of the angle's category, position 0 (the name) exactly for the outer ring |
| FlavorWheel.SameHitSameSegment | src/components/FlavorWheel.tsx:174-188 | two pointers that hit the same label on the fixed wheel are in the same sector and the same ring |
| FlavorWheel.WheelExamples | src/components/FlavorWheel.tsx:172-191 | on the mounted wheel at angle 0, distance 60 hits "花香" and distance 40 hits "茉莉"; distance 10 hits nothing at any angle |
| TeaRecordForm.InitialRecordDefaults | src/components/TeaRecordForm.tsx:24-38 | the form starts with no flavor tags and weight 7, water temperature 95, steep time 30, rounds 1 and rating 4, each in its slider's range and on its step grid |
| TeaRecordForm.Apply | src/components/TeaRecordForm.tsx:111-385 | an input handler sets its own field to the new value, and every other field keeps its value |
| TeaRecordForm.LastEditWins | src/components/TeaRecordForm.tsx:111-385 | of two edits to the same field only the later one shows |
| TeaRecordForm.EditsCommute | src/components/TeaRecordForm.tsx:111-385 | edits to different fields can be applied in either order |
| TeaRecordForm.WidgetEditKeepsSliders | src/components/TeaRecordForm.tsx:213-340 | values from the sliders keep every numeric field in its slider's range and on its step grid |
| TeaRecordForm.Stars | src/components/TeaRecordForm.tsx:330 | the star string before the "(rating/5)" text holds floor(rating) characters, all ★ |
| TeaRecordForm.SubmitEffects | src/components/TeaRecordForm.tsx:64-82 | the record is saved exactly when name and type are non-empty, and the form is closed exactly then; the saved record is the form's record; a complete record gives exactly three effects: the save, the non-destructive success toast, then the close, the toast naming the tea; otherwise there is only the destructive "required fields" toast |
| TeaRecordForm.Form.constructor | src/components/TeaRecordForm.tsx:24-38 | the form starts from the initial record with no effects |
| TeaRecordForm.Form.Edit | src/components/TeaRecordForm.tsx:111-385 | the record becomes the edited record and no effect is caused |
| TeaRecordForm.Form.ToggleFlavor | src/components/TeaRecordForm.tsx:55-62 | only `flavorTags` changes, and it becomes the toggled list |
| TeaRecordForm.Form.Submit | src/components/TeaRecordForm.tsx:64-82 | the record is unchanged and the submit's effects are appended to the log |
| TeaRecordForm.Form.Cancel | src/components/TeaRecordForm.tsx:393 | the form closes without saving |
| TeaCollection.Lower | src/components/TeaCollection.tsx:30-31 | lower-casing keeps the length and maps each character on its own |
| TeaCollection.LowerIdempotent | src/components/TeaCollection.tsx:30-31 | lower-casing twice is lower-casing once |
| TeaCollection.ContainsAt | src/components/TeaCollection.tsx:30-31 | the substring test holds exactly when the term occurs at some position |
| TeaCollection.MatchesSearchIgnoresCase | src/components/TeaCollection.tsx:29-32 | a term and its lower-case form match the same teas |
| TeaCollection.EmptySearchMatchesAll | src/components/TeaCollection.tsx:29-32 | the empty search term matches every tea |
| TeaCollection.Filter | src/components/TeaCollection.tsx:29-33 | every kept tea passes the test, and a tea occurs as often as in the input if it passes and not at all otherwise |
| TeaCollection.FilterAppend | src/components/TeaCollection.tsx:29-33 | filtering distributes over concatenation, so the kept teas stay in their input order |
| TeaCollection.LexLeqTotal | src/components/TeaCollection.tsx:45 | any two names are comparable |
| TeaCollection.LexLeqTransitive | src/components/TeaCollection.tsx:45 | the name order is transitive |
| TeaCollection.LexLeqAntisymmetric | src/components/TeaCollection.tsx:45 | two names ordered both ways are equal |
| TeaCollection.BeforeTotal | src/components/TeaCollection.tsx:34-47 | for every sort key, any two teas are comparable |
| TeaCollection.BeforeTransitive | src/components/TeaCollection.tsx:34-47 | for every sort key, the order is transitive |
| TeaCollection.Insert | src/components/TeaCollection.tsx:34-47 | inserting into a sorted list gives a sorted list holding one more copy of the tea |
| TeaCollection.Sort | src/components/TeaCollection.tsx:34-47 | the sorted list is ordered by the key and is a permutation of its input |
| TeaCollection.FilteredTeas | src/components/TeaCollection.tsx:28-47 | the result is sorted by the key and is a permutation of exactly the teas that pass both filters |
| TeaCollection.ShownTeasMatch | src/components/TeaCollection.tsx:28-33 | every shown tea matches the search and the type filter |
| TeaCollection.NoFilterShowsAll | src/components/TeaCollection.tsx:28-33 | with the empty search and "all", the result is a permutation of the whole collection |
| TeaCollection.EmptyResultIff | src/components/TeaCollection.tsx:157 | the "no teas found" message shows exactly when no tea passes both filters |
| TeaCollection.SortOrder | src/components/TeaCollection.tsx:34-47 | rating, brew count, date added and price come out from highest to lowest; any other choice orders names ascending |
| OnboardingTour.PrevDisabledIffNoMove | src/components/OnboardingTour.tsx:162-170 | Previous is disabled exactly where it would not move the tour, and moves one step back elsewhere |
| OnboardingTour.FinishIffNextNoMove | src/components/OnboardingTour.tsx:176-191 | the finish button replaces Next exactly where Next would not move the tour; elsewhere Next moves one step on |
| OnboardingTour.NextThenPrev | src/components/OnboardingTour.tsx:110-120 | Next then Previous returns to the starting step from any step but the last |
| OnboardingTour.PrevThenNext | src/components/OnboardingTour.tsx:110-120 | Previous then Next returns to the starting step from any step but the first |
| OnboardingTour.RunStaysInRange | src/components/OnboardingTour.tsx:110-120 | no sequence of presses leaves [0, len−1] |
| OnboardingTour.TourStepBound | src/components/OnboardingTour.tsx:15-108 | the tour has four steps, and from step 0 no sequence of presses gets past step 3 |
| OnboardingTour.ForwardPresses | src/components/OnboardingTour.tsx:110-114 | n presses of Next advance n steps, stopping at the last |
| OnboardingTour.BackPresses | src/components/OnboardingTour.tsx:116-120 | n presses of Previous go back n steps, stopping at the first |
| OnboardingTour.OneDotPerStep | src/components/OnboardingTour.tsx:150-157 | exactly one progress dot is highlighted, the current step's |
| OnboardingTour.Counter | src/components/OnboardingTour.tsx:172-174 | the counter shows a step between 1 and the total, and the two numbers are equal exactly on the last step |
| OnboardingTour.CounterFollowsSteps | src/components/OnboardingTour.tsx:110-120 | the counter reads 1 on the first step, and Next and Previous move its first number up or down by one |
| OnboardingTour.Tour.constructor | src/components/OnboardingTour.tsx:13 | the tour starts at step 0 |
| OnboardingTour.Tour.Current | src/components/OnboardingTour.tsx:122 | the step on show is one of the tour's steps |
| OnboardingTour.Tour.Next | src/components/OnboardingTour.tsx:110-114 | the step advances by the guarded increment and stays within the tour |
| OnboardingTour.Tour.Prev | src/components/OnboardingTour.tsx:116-120 | the step goes back by the guarded decrement and stays within the tour |
| OnboardingTour.Tour.Close | src/components/OnboardingTour.tsx:128-133 | the X button calls `onClose` once and leaves the step as it is |

## Left out

- Canvas drawing (`drawFlavorWheel`): arcs, fills, colours, strokes and text are pixel output. Only the sub-flavor text predicate is modelled (`SubLabelDrawn`).
- Redrawing on state change (`useEffect`), React state hooks, dialogs, selects, sliders and toasts as widgets. Toasts appear only as entries of the form's effect log.
- Pointer geometry: `getBoundingClientRect`, `Math.sqrt` and `Math.atan2` are not modelled. The hit test takes the distance and the angle fraction as exact real inputs. IEEE rounding is not modelled either, so neither is the rounding at the 0/2π seam that could produce a fraction of exactly 1.
- FlavorWheel.SegmentFromPoint: requires an angle fraction in [0, 1) and a well-formed configuration. The code has no clamp and no guard, and for other inputs it would index outside the category list or a category's sub-flavor list.
- Math.PI is the decimal literal 3.141592653589793, a real number, not the IEEE double.
- TeaCollection.Lower: `toLowerCase` is modelled for the ASCII letters A–Z only. Other scripts' case mappings are not modelled; the sample data is Chinese and has no case.
- TeaCollection.LexLeq: `localeCompare` is modelled as code-point lexicographic order, not as a locale collation.
- TeaCollection.FilteredTeas: date parsing (`new Date(..).getTime()`) is the parameter `timeOf`. Invalid dates (NaN) and NaN ratings or prices are not modelled; NaN would make the comparator inconsistent.
- TeaCollection.Sort: stands for the engine's sort as a stable insertion sort. Only sortedness and permutation are proved; the order among equal keys is not stated.
- The collection is not modified by the view. This holds by construction, since the model is pure: the input sequence is a value.
- TeaRecordForm.Stars: requires a non-negative rating, as `repeat` does. The slider keeps ratings at 1 or above.
- The form's `selectedFlavors` state is declared but never used, so it is not modelled.
- The tea-type, brewing-method and common-flavor option lists of the form only feed the widgets and are not modelled.
- OnboardingTour.Tour.Close: also stands for the finish button, which calls the same `onClose` and is shown only on the last step.
- The tour's icons and body content are not modelled; only titles and descriptions are kept.
- `src/pages/Index.tsx`, `src/components/BrewingHistory.tsx`, `src/pages/NotFound.tsx` and `src/components/BottomNav.tsx` hold sample data, layout and a tab test, and are not part of this model.
