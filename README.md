# CleanRush laundry orders: a Dafny model

This project models the order logic of the CleanRush laundry mini app. Staff fill in an order form. The form prices the order from its weight, service tier and add-ons. Submitting the form puts a new record with a generated code in front of the stored list. The admin page moves a record back and forth along a fixed six-stage pipeline ("Diterima" to "Selesai"), deletes records and resets the whole list. The tracking page looks a record up by its code.

The modules follow the parts of `src/App.js`:

- `Pricing` holds the price constants, the order form and `Total`, the price rule. It uses exact `real` arithmetic.
- `Orders` holds the record, the stage list, the record `createOrder` builds, and `Advance`. `Advance` is what `updateStatus` does to the record it finds. The module also has lemmas about series of moves.
- `Store` holds the class `OrderStore`. Its field `orders` is the newest-first list. Its methods are `Create`, `UpdateStatus`, `Remove` and `ResetAll`, and `Find` is a read-only function. Each method is proved against a pure function of the old list.
- `JsArray` models `findIndex`, `find` and `filter`.
- `Text` models `trim` and `toLowerCase`.

The generated order code and every timestamp are parameters of the operations.

A few details of the code are worth stating plainly:

- Weights are read with `Number(form.kg) || 0`. Non-numbers and zero become 0, but a negative weight is used as it is and is not clamped. The input's `min={1}` is not enforced either.
- The history notes are the literal strings "Order dibuat", "Maju" and "Mundur".
- The lookup trims the typed code as well as ignoring letter case.
- The total is not rounded to whole currency units. A fractional weight gives a fractional price.

## Model

| member | source | states |
|---|---|---|
| Pricing.Kg | src/App.js:137 | the weight is 0 exactly when the field is not a number or is zero; any other number, negative ones included, is kept |
| Pricing.FlatFees | src/App.js:142-143 | the selected flat fees lie between 0 and 15000 |
| Pricing.Total | src/App.js:136-145 | the total is 7000 per kg (10500 per kg for express) plus 3000 per kg for ironing, 5000 for stain removal and 10000 for delivery |
| Pricing.ExpressScalesOnlyBase | src/App.js:138-139 | express adds exactly 3500 per kg over regular; add-ons are not scaled |
| Pricing.IroningAddsPerKg | src/App.js:141 | ironing adds 3000 per kg whatever the other options are |
| Pricing.StainAddsFlat | src/App.js:142 | stain removal adds 5000 whatever the other options are |
| Pricing.DeliveryAddsFlat | src/App.js:143 | delivery adds 10000 whatever the other options are |
| Pricing.NoWeightPricesFlatFeesOnly | src/App.js:137-144 | a weight that is not a number, or is zero, prices only the selected flat fees |
| Pricing.TotalAtLeastFlatFees | src/App.js:136-145 | a non-negative weight gives a total at least the flat fees, which are non-negative |
| Pricing.NegativeWeightIsNotClamped | src/App.js:137-138 | a weight of -1 kg, regular, no add-ons, costs -7000 |
| Pricing.ThreeKgRegular | src/App.js:136-145 | 3 kg regular with no add-ons costs 21000 |
| Pricing.ThreeKgExpressIroningDelivery | src/App.js:136-145 | 3 kg express with ironing and delivery costs 50500 |
| Orders.NewOrder | src/App.js:158-167 | a created record is at stage 0, carries the priced total and has the single history entry ("Diterima", "Order dibuat"); it is well formed |
| Orders.Clamp | src/App.js:347 | the result lies in the range; a value already inside is unchanged; values below or above go to the nearer bound |
| Orders.NextIndex | src/App.js:347 | the target stage is within the pipeline; it is the current stage plus the direction when that is within it, otherwise 0 below and 5 above |
| Orders.MoveNote | src/App.js:350 | the history note is "Maju" exactly for a positive direction and "Mundur" otherwise |
| Orders.Advance | src/App.js:346-351 | the new stage is the current stage plus the direction clamped into 0..5, so it is always in the pipeline; when the stage is unchanged the record is unchanged; otherwise only the stage changes and exactly one entry naming the new stage, with "Maju" for a positive direction and "Mundur" otherwise, is put in front of the history; code, creation time, form and total never change |
| Orders.AdvancePreservesWellFormed | src/App.js:347-350 | a move keeps the stage in bounds, the history non-empty and its newest entry naming the current stage |
| Orders.AdvanceStaysInPipeline | src/App.js:347 | a stage within the pipeline stays within it for any direction |
| Orders.BoundaryMovesAreNoOps | src/App.js:347-348 | moving forward from the last stage, or back from stage 0, changes nothing and adds no history |
| Orders.BackwardStep | src/App.js:347-350 | a backward move from an inner stage goes down by one and puts a "Mundur" entry in front of the history |
| Orders.ForwardStep | src/App.js:347-350 | a forward move from an inner stage goes up by one and puts a "Maju" entry in front of the history |
| Orders.ReplayHistory | src/App.js:348-350 | over any series of moves, the history grows by exactly one entry per stage change, the old history stays as its suffix, and the record stays well formed |
| Orders.ForwardRun | src/App.js:347-350 | k forward moves reach stage min(start + k, 5), and the history grows by the number of stages actually entered |
| Orders.FiveForwardMovesFinish | src/App.js:342-355 | from creation, five forward moves reach the last stage with six history entries, and a sixth move changes nothing |
| Text.Trim | src/App.js:293 | the trimmed code neither starts nor ends with whitespace or a line terminator; a string whose ends are not whitespace is unchanged; an all-blank string becomes empty |
| Text.TrimRemovesBlankEnds | src/App.js:293 | trimming a text surrounded by whitespace, whose own ends are not whitespace, gives back exactly that text |
| Text.TrimIdempotent | src/App.js:293 | trimming twice is trimming once |
| Text.Lower | src/App.js:293 | lowering keeps the length and lowers each character on its own |
| Text.LowerHasNoCapitals | src/App.js:293 | no ASCII capital letter remains after lowering |
| Text.LowerIdempotent | src/App.js:293 | lowering twice is lowering once |
| Text.LowerIgnoresCase | src/App.js:293 | two codes that differ only in letter case lower to the same string |
| JsArray.FindIndex | src/App.js:344 | the index of the first element satisfying the test, or none exactly when no element satisfies it |
| JsArray.Find | src/App.js:293 | the first element satisfying the test, or none exactly when no element satisfies it |
| JsArray.Filter | src/App.js:358 | every kept element satisfies the test and came from the input; every input element that satisfies it is kept; nothing is dropped when all satisfy it |
| JsArray.FilterAppend | src/App.js:358 | filtering keeps relative order: filtering a concatenation concatenates the filtered parts |
| JsArray.FilterCons | src/App.js:358 | an element in front stays in front exactly when it satisfies the test |
| JsArray.FilterIdempotent | src/App.js:358 | filtering twice with one test is filtering once |
| Store.FindByCode | src/App.js:292-295 | the result is the first record whose lowered code equals the lowered and trimmed query; it is none exactly when no record matches |
| Store.IndexOfId | src/App.js:344-345 | the position of the first record with exactly the given code, or none exactly when no record has it |
| Store.UpdatedOrders | src/App.js:342-355 | the list keeps its length; an unknown code leaves it unchanged; otherwise only the first record with the code is replaced by its advanced version |
| Store.WithoutId | src/App.js:357-358 | no remaining record has the code; every record with another code remains; a list without the code is unchanged |
| Store.OrderStore.constructor | src/App.js:32-38 | a store with nothing saved holds the empty list |
| Store.OrderStore.Create | src/App.js:151-172 | the new record is the one creation builds, it is put in front, and all earlier records follow unchanged and in order; well-formedness is kept |
| Store.OrderStore.UpdateStatus | src/App.js:342-355 | the new list is the updated list for the code, direction and time; well-formedness is kept |
| Store.OrderStore.Remove | src/App.js:357-361 | the new list is the old one without the code; well-formedness is kept |
| Store.OrderStore.ResetAll | src/App.js:376 | the list becomes empty |
| Store.OrderStore.Find | src/App.js:292-295 | the lookup on the store's list is the first record matching the query, or none; it cannot change the store |
| Store.UpdatePreservesWellFormed | src/App.js:342-355 | a status update keeps every record well formed |
| Store.UpdateTouchesOnlyFirstMatch | src/App.js:344-351 | a record before the first match, after it or with another code is left unchanged, even when it shares the code |
| Store.UpdateAtBoundaryIsNoOp | src/App.js:347-348 | moving the matched record forward from the last stage, or back from stage 0, leaves the whole list unchanged |
| Store.RemoveKeepsOrder | src/App.js:358 | removing from a concatenation is removing from each part, so the survivors keep their relative order |
| Store.RemoveFront | src/App.js:358 | a record in front survives removal exactly when its code differs |
| Store.RemoveIdempotent | src/App.js:358 | removing the same code twice is removing it once |
| Store.RemovedCodeIsUnknown | src/App.js:342-361 | after removal the code is not found by an update, and the update is a no-op |
| Store.TypedCodeMatches | src/App.js:293 | a stored code without blanks at its ends matches the same code typed in any letter case with blanks around it |
| Store.CreatedOrderIsFound | src/App.js:151-172 | a newly created record is found, in front of any earlier records, by its own code typed in any letter case with blanks around it |
| Store.LookupIgnoresCase | src/App.js:293 | the stored code "CR250101-AB12" is found from the query "cr250101-ab12" |

## Left out

- Browser storage is not modelled: `saveOrders`, `loadOrders`, `JSON.stringify` and `JSON.parse` (src/App.js:31-38). The store is the in-memory list that every operation loads, changes and saves back whole. The fallback to an empty list on a parse failure is not modelled.
- Code generation from the date and `Math.random` (src/App.js:153-156) is not modelled. The code is a parameter of `Create`. Codes are not checked for uniqueness, and the model does not check them either: updates act on the first match and removal drops every match.
- Timestamps from `new Date()` are parameters. The model does not state that history timestamps are non-decreasing, because that depends on the clock.
- `currency` (`Intl.NumberFormat`), the WhatsApp message and link, and `toLocaleString` are left out. They are locale formatting and library calls (src/App.js:5-8, 174-191, 274).
- The admin PIN gate, the one-second refresh timer, the form's "Reset" button and all React rendering, animation and styling are left out. They are UI state, timers and presentation.
- The interleaving of writes from another tab or a timer tick is not modelled. Each operation is one atomic step on the list.
- Pricing.Total: amounts are exact reals, not IEEE doubles. The rounding of `1.5 *` on fractional weights is not modelled. Neither are infinite weights such as `Number("1e999")`.
- Pricing.Kg: the field is taken after `Number` has read it, as a number or NaN. The grammar by which `Number` reads text is not modelled.
- Text.Lower: only the ASCII letters A to Z are lowered. JavaScript's `toLowerCase` also lowers other Unicode letters. Codes are made of ASCII letters, digits and "-".
- Orders.Advance: the stage and the direction are integers. A stored stage that is not a number, which only a hand-edited storage could produce, is not modelled.
- Store.OrderStore.UpdateStatus: `updateStatus` mutates the record object inside a freshly loaded array before copying it back. Records are values here. Since no one else holds that array, nothing observable is lost.
- Store.OrderStore.Create: the spread `...form` copies the form's fields into the record. Here the record holds the form as one field named `form`.
