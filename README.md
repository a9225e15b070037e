# Inventory items: client reducer and request validation

This project models the two pieces of an inventory CRUD application that carry
checkable logic, and proves properties of each.

- **The client items slice** (`frontend/src/store/itemsSlice.ts`). Its state is
  `ItemsState`: the cached items in arrival order, a `loading` flag and the last
  fetch `error`. The async thunks (`fetchItems`, `createItem`, `updateItem`,
  `deleteItem`, `deleteMany`) dispatch `pending`, then `fulfilled` or `rejected`.
  The slice handles seven of these actions. `ItemsSlice.Reduce` is the slice's reducer
  as a pure function of state and action. The class `ItemsSlice.ItemsDraft` holds the
  case reducers as methods. They update a draft's fields in place, as the source's
  case reducers do, and each method is proved to produce `Reduce` of the old value.
  Update finds its position with a linear search (`ItemLists.FindIndex`) proved equal
  to `ItemLists.FirstIndex`. Delete and deleteMany assign the result of an
  order-preserving filter (`ItemLists.RemoveById`, `ItemLists.RemoveByIds`).
- **The request validation rules** (`backend/lib/schemas.ts`). The four zod schemas
  (`createItemSchema`, `updateItemSchema`, `getItemByIdSchema`, `deleteManySchema`)
  are predicates over a request. A request is a JSON body plus the route's string path
  parameters. `Schemas.ParseCreateBody` and `Schemas.ParseUpdateBody` give the value a
  body schema produces: the typed fields, with unknown keys stripped. The `id` transform
  `parseInt(val, 10)` is `EcmaParseInt.ParseInt`. It follows section 19.2.5 of
  ECMA-262: skip leading white space and line terminators, read an optional sign,
  then read the longest run of decimal digits. With no digits the result is NaN,
  modelled as `None`.

Modules: `Wrappers` (Option), `Types` (the `Item` record of
`frontend/src/types/index.ts`), `ItemLists`, `ItemsSlice`, `EcmaParseInt`, `Schemas`.

The model follows the code:

- The code keeps items in an array in arrival order. It does not use an id-keyed map
  sorted by name.
- A successful fetch does not clear an earlier error, and no action ever clears it
  (`ItemsSlice.ErrorNeverCleared`).
- The `id` rule never rejects a string: "abc" passes validation and becomes NaN, so
  validation answers no id with 400.

Several definitions have no contracts of their own; the lemmas below state their
properties:

- `ItemsSlice.InitialState` (frontend/src/store/itemsSlice.ts:11-15).
- `ItemsSlice.Reduce` (frontend/src/store/itemsSlice.ts:51-86) and `ItemsSlice.ReduceAll`,
  a sequence of dispatches of that reducer.
- The thunks as the actions they dispatch: `ItemsSlice.FetchItemsActions`
  (frontend/src/store/itemsSlice.ts:17-19), `ItemsSlice.CreateItemActions` (21-26),
  `ItemsSlice.UpdateItemActions` (28-33), `ItemsSlice.DeleteItemActions` (35-41) and
  `ItemsSlice.DeleteManyActions` (43-49).
- `EcmaParseInt.ParseInt` with its second half `EcmaParseInt.ParseTrimmed`, the sign
  step `EcmaParseInt.Unsigned` (its two ensures only spell out its two cases), the white
  space test `EcmaParseInt.IsWhiteSpace` and the digit value `EcmaParseInt.DecimalValue`
  (backend/lib/schemas.ts:13).
- The zod schemas `Schemas.CreateItemSchema` (backend/lib/schemas.ts:3-9),
  `Schemas.UpdateItemSchema` (11-20), `Schemas.GetItemByIdSchema` (22-26) and
  `Schemas.DeleteManySchema` (28-32).
- Their parts: `Schemas.CreateBodyValid` (4-8), `Schemas.UpdateBodyValid` (15-19),
  `Schemas.IdParamsValid` and `Schemas.IdParam` (12-13, 23-24), and the field rules
  `Schemas.NameRule`, `Schemas.DescriptionRule` and `Schemas.PriceRule` (5-7).
- The zod checks these rules are built from (5-7, 16-18): `Schemas.StringWithin`
  (`.min`/`.max` on a string), `Schemas.AtLeast` (`.min(0)` on a number),
  `Schemas.NonNegative` (`.nonnegative()`), `Schemas.Required` (a required key) and
  `Schemas.Optional` (`.optional()`).

## Model

| member | source | states |
|---|---|---|
| `ItemLists.FirstIndex` | frontend/src/store/itemsSlice.ts:72 | `findIndex` by id: -1 exactly when no item has the id; otherwise an index holding the id with no earlier index holding it |
| `ItemLists.FindIndex` | frontend/src/store/itemsSlice.ts:72 | the linear search returns exactly `FirstIndex` |
| `ItemLists.ReplaceFirst` | frontend/src/store/itemsSlice.ts:72-75 | same length; the first position holding the payload's id gets the payload; every other position is unchanged |
| `ItemLists.ReplaceFirstKeepsIds` | frontend/src/store/itemsSlice.ts:72-75 | replacing by id never changes the id at any position |
| `ItemLists.ReplaceFirstAbsent` | frontend/src/store/itemsSlice.ts:73 | with no item holding the id, the update is a no-op |
| `ItemLists.ReplaceFirstIdempotent` | frontend/src/store/itemsSlice.ts:71-76 | applying the same update twice equals applying it once |
| `ItemLists.FirstIndexByIds` | frontend/src/store/itemsSlice.ts:72 | the index found depends only on the ids in the list |
| `ItemLists.RemoveById` | frontend/src/store/itemsSlice.ts:78 | afterwards no item has the removed id; the list never grows; with the id absent the list is unchanged |
| `ItemLists.RemoveByIdMembers` | frontend/src/store/itemsSlice.ts:78 | an item survives iff it was present and its id differs |
| `ItemLists.RemoveByIdIdempotent` | frontend/src/store/itemsSlice.ts:78 | deleting twice equals deleting once |
| `ItemLists.RemoveByIdConcat` | frontend/src/store/itemsSlice.ts:78 | the filter distributes over concatenation, so survivors keep their original order |
| `ItemLists.RemoveByIdCounts` | frontend/src/store/itemsSlice.ts:78 | each item with another id survives as many times as it occurred; items with the id occur zero times |
| `ItemLists.RemoveByIds` | frontend/src/store/itemsSlice.ts:81 | the list never grows; with no listed id present the list is unchanged |
| `ItemLists.RemoveByIdsMembers` | frontend/src/store/itemsSlice.ts:81 | an item survives iff it was present and its id is not listed |
| `ItemLists.RemoveByIdsSingleton` | frontend/src/store/itemsSlice.ts:78-81 | removing the id list `[x]` equals removing `x` |
| `ItemLists.RemoveByIdsRemovesAll` | frontend/src/store/itemsSlice.ts:81 | afterwards no item has any listed id |
| `ItemLists.RemoveByIdsIdempotent` | frontend/src/store/itemsSlice.ts:81 | removing the same ids twice equals removing them once |
| `ItemLists.RemoveByIdsSameIdSet` | frontend/src/store/itemsSlice.ts:81 | only the set of listed ids matters: order and duplicates do not |
| `ItemLists.RemoveByIdsIgnoresAbsent` | frontend/src/store/itemsSlice.ts:81 | listed ids that no item has are ignored |
| `ItemLists.RemoveByIdsStepwise` | frontend/src/store/itemsSlice.ts:78-81 | removing `ids + [x]` equals removing `ids` and then deleting `x` |
| `ItemLists.RemoveByIdsConcat` | frontend/src/store/itemsSlice.ts:81 | the batch filter distributes over concatenation, so survivors keep their original order |
| `ItemsSlice.RejectionError` | frontend/src/store/itemsSlice.ts:66 | the recorded error is the message when present and non-empty, otherwise 'Failed to fetch items'; never empty |
| `ItemsSlice.FetchPendingEffect` | frontend/src/store/itemsSlice.ts:57-59 | fetch pending sets `loading` and leaves items and error unchanged |
| `ItemsSlice.FetchFulfilledEffect` | frontend/src/store/itemsSlice.ts:60-63 | fetch fulfilled clears `loading`, sets the items to exactly the payload and keeps the earlier error |
| `ItemsSlice.FetchRejectedEffect` | frontend/src/store/itemsSlice.ts:64-67 | fetch rejected clears `loading`, keeps the items and records the message or the default |
| `ItemsSlice.CreateEffect` | frontend/src/store/itemsSlice.ts:68-70 | create appends: length grows by one, the old items are a prefix, the payload is last, flags unchanged |
| `ItemsSlice.UpdateEffect` | frontend/src/store/itemsSlice.ts:71-76 | update overwrites only the first position with the payload's id; a no-op with no such id |
| `ItemsSlice.DeleteEffect` | frontend/src/store/itemsSlice.ts:77-79 | delete keeps exactly the items with another id; no item keeps it; a second delete changes nothing |
| `ItemsSlice.DeleteManyEffect` | frontend/src/store/itemsSlice.ts:80-82 | deleteMany keeps exactly the items whose id is not listed; a second application changes nothing |
| `ItemsSlice.DeleteManySingleton` | frontend/src/store/itemsSlice.ts:77-82 | `deleteMany([x])` has the effect of `deleteItem(x)` |
| `ItemsSlice.UnhandledEffect` | frontend/src/store/itemsSlice.ts:55-83 | an action type with no case (pending or rejected of create, update and the deletes) leaves the state unchanged |
| `ItemsSlice.ReduceAllPair` | frontend/src/store/itemsSlice.ts:51-86 | dispatching two actions applies the reducer twice, in order |
| `ItemsSlice.FetchItemsLifecycle` | frontend/src/store/itemsSlice.ts:17-19 | a settled fetch leaves `loading` false; on success the items are the response and the error is kept; on failure the items are kept and the error recorded |
| `ItemsSlice.CreateItemLifecycle` | frontend/src/store/itemsSlice.ts:21-26 | a successful create appends the server's item; a failed one changes nothing |
| `ItemsSlice.UpdateItemLifecycle` | frontend/src/store/itemsSlice.ts:28-33 | a successful update replaces by the server item's id; a failed one changes nothing |
| `ItemsSlice.DeleteItemLifecycle` | frontend/src/store/itemsSlice.ts:35-41 | the delete payload is the id it was given, whatever the response; a failed delete changes nothing |
| `ItemsSlice.DeleteManyLifecycle` | frontend/src/store/itemsSlice.ts:43-49 | the deleteMany payload is the ids it was given; a failed batch changes nothing |
| `ItemsSlice.ErrorNeverCleared` | frontend/src/store/itemsSlice.ts:57-82 | once an error is recorded, no sequence of actions clears it |
| `ItemsSlice.ErrorIffFetchRejected` | frontend/src/store/itemsSlice.ts:11-15 | from the initial state (no items, not loading, no error), an error is recorded iff some fetch was rejected |
| `ItemsSlice.LoadingIffFetchOutstanding` | frontend/src/store/itemsSlice.ts:57-67 | from the initial state, `loading` holds iff the last fetch action was a pending one |
| `ItemsSlice.ItemsDraft.constructor` | frontend/src/store/itemsSlice.ts:11-15 | a new draft holds the initial state: no items, `loading` false, no error |
| `ItemsSlice.ItemsDraft.OnFetchPending` | frontend/src/store/itemsSlice.ts:57-59 | the in-place update yields `Reduce` on fetch pending |
| `ItemsSlice.ItemsDraft.OnFetchFulfilled` | frontend/src/store/itemsSlice.ts:60-63 | the in-place update yields `Reduce` on fetch fulfilled |
| `ItemsSlice.ItemsDraft.OnFetchRejected` | frontend/src/store/itemsSlice.ts:64-67 | the in-place update yields `Reduce` on fetch rejected |
| `ItemsSlice.ItemsDraft.OnCreateFulfilled` | frontend/src/store/itemsSlice.ts:68-70 | the push yields `Reduce` on create fulfilled |
| `ItemsSlice.ItemsDraft.OnUpdateFulfilled` | frontend/src/store/itemsSlice.ts:71-76 | the search and indexed assignment yield `Reduce` on update fulfilled |
| `ItemsSlice.ItemsDraft.OnDeleteFulfilled` | frontend/src/store/itemsSlice.ts:77-79 | assigning the filtered list yields `Reduce` on delete fulfilled |
| `ItemsSlice.ItemsDraft.OnDeleteManyFulfilled` | frontend/src/store/itemsSlice.ts:80-82 | assigning the filtered list yields `Reduce` on deleteMany fulfilled |
| `ItemsSlice.ItemsDraft.Dispatch` | frontend/src/store/itemsSlice.ts:51-84 | running the case for any action yields `Reduce` of the old state |
| `EcmaParseInt.DigitValue` | backend/lib/schemas.ts:13 | a decimal digit's value is below 10 |
| `EcmaParseInt.DigitChar` | backend/lib/schemas.ts:13 | the digit character for a value below 10 has that value |
| `EcmaParseInt.LeadingWhiteSpace` | backend/lib/schemas.ts:13 | the count of leading white space: every counted character is white space and the next one is not |
| `EcmaParseInt.LeadingDigits` | backend/lib/schemas.ts:13 | the length of the longest all-digit prefix: every counted character is a digit and the next one is not |
| `EcmaParseInt.ParseIntNaN` | backend/lib/schemas.ts:13 | `parseInt` gives NaN exactly when no digit follows the white space and the optional sign |
| `EcmaParseInt.ParseIntUnsigned` | backend/lib/schemas.ts:13 | a text starting with neither white space nor a sign reads as the value of its leading digits, or NaN without them |
| `EcmaParseInt.ParseIntAfterSign` | backend/lib/schemas.ts:13 | after a '-' the value of the leading digits is negated, after a '+' it is not; NaN without digits |
| `EcmaParseInt.Decimal` | backend/lib/schemas.ts:13 | the decimal numeral of a number: non-empty, digits only, no leading zero |
| `EcmaParseInt.DecimalValueOfDecimal` | backend/lib/schemas.ts:13 | the digits of a numeral have the number's value |
| `EcmaParseInt.LeadingDigitsOf` | backend/lib/schemas.ts:13 | reading digits stops exactly where a non-digit starts |
| `EcmaParseInt.ParseIntDecimal` | backend/lib/schemas.ts:13 | `parseInt` of the numeral of `n` is `n` |
| `EcmaParseInt.ParseIntPrefix` | backend/lib/schemas.ts:13 | a numeral followed by a non-digit tail reads as the numeral's value |
| `EcmaParseInt.ParseIntSigned` | backend/lib/schemas.ts:13 | a signed numeral followed by a non-digit tail reads as the negated value after '-' and the value after '+' |
| `EcmaParseInt.ParseIntSkipsWhiteSpace` | backend/lib/schemas.ts:13 | leading white space does not change the result |
| `EcmaParseInt.TrimmedAfterWhiteSpace` | backend/lib/schemas.ts:13 | trimming white space in front of a string leaves what trimming the string leaves |
| `EcmaParseInt.LeadingWhiteSpaceSkips` | backend/lib/schemas.ts:13 | white space in front adds exactly its length to the leading white space count |
| `EcmaParseInt.ParseIntNoDigits` | backend/lib/schemas.ts:13 | a string starting with anything but white space, a sign or a digit reads as NaN |
| `EcmaParseInt.ParseIntDigitExamples` | backend/lib/schemas.ts:13 | "42" reads as 42 and "12abc" as 12 |
| `EcmaParseInt.ParseIntOtherExamples` | backend/lib/schemas.ts:13 | "abc", "" and " -" read as NaN; " -7" reads as -7 |
| `Schemas.ParseCreateBody` | backend/lib/schemas.ts:3-9 | the create schema produces a value iff it accepts; the value is in bounds and is the body without its unknown keys |
| `Schemas.ParseUpdateBody` | backend/lib/schemas.ts:15-19 | the update body schema produces a value iff it accepts; the value is in bounds and is the body without its unknown keys |
| `Schemas.CreateBodyRoundTrip` | backend/lib/schemas.ts:3-9 | a create body is accepted iff the name is 1 to 100 characters long, the description is absent or at most 500 long, and price ≥ 0; an accepted body parses back to its fields |
| `Schemas.UpdateBodyRoundTrip` | backend/lib/schemas.ts:15-19 | an update body is accepted iff each present field obeys the create bound; an accepted body parses back to its fields |
| `Schemas.NameLengthRejected` | backend/lib/schemas.ts:5 | an empty name or one over 100 characters is rejected |
| `Schemas.PriceBoundary` | backend/lib/schemas.ts:7 | a price passes iff it is ≥ 0; 0 passes |
| `Schemas.PriceChecksCoincide` | backend/lib/schemas.ts:7 | `min(0)` and `nonnegative()` are the same bound, so the combined rule equals either alone |
| `Schemas.NullDescriptionRejected` | backend/lib/schemas.ts:6 | `description: null` is rejected by both body schemas, because `optional` admits only an absent key |
| `Schemas.EmptyUpdateAccepted` | backend/lib/schemas.ts:15-19 | an update body with no fields is accepted |
| `Schemas.CreateBodyIsUpdateBody` | backend/lib/schemas.ts:3-19 | every valid create body is a valid update body |
| `Schemas.IdRuleNeverRejects` | backend/lib/schemas.ts:22-26 | the `id` rule accepts every string and yields its `parseInt` |
| `Schemas.SameIdRule` | backend/lib/schemas.ts:11-26 | update accepts a request exactly when get/delete-by-id accepts it and its update body is valid; both apply the same `id` rule |
| `Schemas.IdExamples` | backend/lib/schemas.ts:13 | the `id` "42" gives 42, "12abc" gives 12 and "abc" gives NaN |
| `Schemas.DeleteManyAcceptsNumberArrays` | backend/lib/schemas.ts:28-32 | any array of numbers is accepted as `ids`, including the empty array and arrays with duplicates |
| `Schemas.DeleteManyRejectsNonNumbers` | backend/lib/schemas.ts:30 | an `ids` array with a non-number element is rejected |
| `Schemas.DeleteManyRejectsMissingIds` | backend/lib/schemas.ts:30 | a body without `ids` is rejected |
| `Schemas.DeleteManyIff` | backend/lib/schemas.ts:28-32 | a request passes exactly when its body is an object whose `ids` is an array of numbers; every other body is rejected |

## Left out

- The HTTP calls inside the thunks (frontend/src/services/api.ts) are network I/O. The
  server's answer is a parameter (`ItemsSlice.Outcome`), and a thunk is modelled as
  the actions it dispatches.
- Thunk scheduling and the interleaving of concurrent requests are not modelled. An
  action history is any sequence of actions.
- Redux Toolkit's `rejected` action also carries the thrown error's name, stack and
  the thunk arguments. Only `error.message` is modelled, because the slice reads nothing else.
- `EcmaParseInt.ParseInt`: results are unbounded integers. JavaScript's Number gives
  `-0` for "-0", loses precision above 2^53 and gives Infinity for a numeral above
  Number.MAX_VALUE (about 1.8e308); the model returns the exact integer in each case.
- String lengths are counted in Unicode scalar values. zod counts UTF-16 code units,
  so the two differ for characters outside the Basic Multilingual Plane.
- `price` is a real number. IEEE-754 rounding, NaN and Infinity are not modelled.
- Error reporting is not modelled. A rejection is only a `false` (or `None`): zod's
  issue list and the 400 response (backend/middleware/validateRequest.ts) are left
  out. The middleware throws away the parsed value, so the controllers never see the
  transformed id or the stripped body.
- A request body that is absent (`undefined`) is modelled as any non-object JSON
  value. Body schemas reject both alike.
- The item service (backend/services/item.service.ts) is not modelled. It forwards to
  the ORM, whose id generation, merging and not-found behaviour are not visible.
- The controllers, routes, seeding script and the React UI
  (backend/controllers/item.controller.ts, backend/routes/item.route.ts,
  backend/seed.ts, frontend/src/App.tsx) are HTTP or display glue and are not modelled.
  The batch-delete controller that the routes import is not defined in the
  controller file.
