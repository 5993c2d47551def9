# Notification store of the budgeting client, in Dafny

This project models the notifications slice of the client
(`packages/loot-core/src/client/notifications/notificationsSlice.ts`): a
Redux-style store holding an ordered list of notification records (display
order, most recent last) and a display inset. The store answers to four case
reducers and one extra reducer:

- `addNotification` replaces a missing or empty id by a generated one, drops
  the request if a record with that id is already listed (first write wins),
  and otherwise appends it at the tail;
- `removeNotification` filters out every record carrying the given id;
- `setNotificationInset` replaces the inset wholesale, with `{}` when the
  payload is `null` or carries no inset;
- `addGenericErrorNotification` builds a fixed error notification, but only
  through the action creator, whose action it drops: the state is unchanged
  (see "## Findings");
- a fulfilled `closeBudget` or `closeBudgetUI` resets the store to the initial
  state (no records, inset `{}`).

All of it is in `notifications_slice.dfy`, module `NotificationsSlice`:

- the records (`Notification`, `NotificationWithId`), the inset (`Inset`,
  `EmptyInset`), the payload of `setNotificationInset` (`InsetPayload`) and
  the state (`State`, `InitialState`) as datatypes;
- the values the reducers compute, as pure functions: `ResolveId` (the
  `id || uuidv4()` spread), `Find` (`Array.prototype.find`), `Filter`
  (`Array.prototype.filter`), `Added`, `InsetFor`;
- the whole reducer as a function `Reduce` over an `Action` datatype, with
  `ReduceAll` for a run of actions;
- class `NotificationStore` with the two fields `notifications` and `inset`,
  whose methods are the case reducers assigning those fields in place; each is
  proved against the functions above, and `Dispatch` is proved to step the
  store exactly as `Reduce` does. `Valid()` (no two records share an id) is
  established by the constructor and kept by every method.

The id generator `uuidv4()` becomes a `generatedId` parameter: the caller (or,
in `ReduceAll`, each step) supplies the id the generator would have returned.
The dedup check applies to that id as it does in the code.

## Model

| member | source | states |
|---|---|---|
| NotificationsSlice.ResolveId | packages/loot-core/src/client/notifications/notificationsSlice.ts:58-61 | the stored id is the supplied one when it is present and non-empty, the generated one when it is missing or empty; every other field is copied from the request |
| NotificationsSlice.Find | packages/loot-core/src/client/notifications/notificationsSlice.ts:63 | finds a record exactly when some record carries the id; what it finds carries the id and is the first such record |
| NotificationsSlice.Filter | packages/loot-core/src/client/notifications/notificationsSlice.ts:83-85 | a record survives exactly when it was listed and does not carry the id; every copy of a surviving record is kept (the multiset of survivors is the list's, minus the records carrying the id); the survivors keep their relative order (a subsequence of the list) |
| NotificationsSlice.Added | packages/loot-core/src/client/notifications/notificationsSlice.ts:58-66 | the list `addNotification` produces: unchanged when a record already carries the resolved id, otherwise the old list with the resolved record appended |
| NotificationsSlice.InsetFor | packages/loot-core/src/client/notifications/notificationsSlice.ts:87-92 | the new inset is the payload's inset when present, and `{}` when the payload is `null` or has no inset |
| NotificationsSlice.GenericError | packages/loot-core/src/client/notifications/notificationsSlice.ts:69-77 | the generic error request has no id, type `error`, the given translated message (the untranslated text is `GenericErrorText`), and no `pre`, title, sticky flag, timeout, button, message actions, close callback or internal text |
| NotificationsSlice.AddNotificationCreator | packages/loot-core/src/client/notifications/notificationsSlice.ts:110-115 | the action creator only builds an action; dispatching that action on any state is an `addNotification` step for the request (the list becomes `Added(list, request, id)`, the inset stays) |
| NotificationsSlice.Reduce | packages/loot-core/src/client/notifications/notificationsSlice.ts:53-102 | add yields `Added(list, request, id)` and remove yields `Filter(list, id)`, neither changing the inset; set-inset leaves the list alone and installs `InsetFor(payload)`; either close signal yields the initial state; the generic error and unrelated actions change nothing; distinct ids stay distinct |
| NotificationsSlice.AddDuplicateIsNoOp | packages/loot-core/src/client/notifications/notificationsSlice.ts:58-65 | a request whose resolved id is already listed leaves the list exactly as it was |
| NotificationsSlice.AddNewAppendsAtTail | packages/loot-core/src/client/notifications/notificationsSlice.ts:63-66 | a request with a new id grows the list by one, keeps every earlier record in place, and puts the resolved record last |
| NotificationsSlice.AddLeavesOneRecordWithId | packages/loot-core/src/client/notifications/notificationsSlice.ts:57-66 | after an add, exactly one record carries the resolved id |
| NotificationsSlice.AddKeepsUniqueIds | packages/loot-core/src/client/notifications/notificationsSlice.ts:63-66 | an add keeps the ids pairwise distinct |
| NotificationsSlice.TwoAnonymousAddsGiveTwoRecords | packages/loot-core/src/client/notifications/notificationsSlice.ts:58-66 | two requests without id and with distinct fresh generated ids add two records, in order |
| NotificationsSlice.AddsWithDistinctIdsAppendInOrder | packages/loot-core/src/client/notifications/notificationsSlice.ts:57-66 | from any state, a run of adds whose resolved ids are new and pairwise distinct appends exactly the resolved records, in the order added, and leaves the inset alone |
| NotificationsSlice.DistinctAddsFromInitialState | packages/loot-core/src/client/notifications/notificationsSlice.ts:38-66 | from the initial state, adds with pairwise distinct resolved ids leave exactly one record per request, in insertion order |
| NotificationsSlice.AddAddRemoveScenario | packages/loot-core/src/client/notifications/notificationsSlice.ts:57-85 | adding `a`, adding `b`, then removing `a` from the initial state leaves the list `[b]` |
| NotificationsSlice.FirstWriteWinsScenario | packages/loot-core/src/client/notifications/notificationsSlice.ts:57-66 | adding `x`/"one" then `x`/"two" from the initial state leaves the single record `x`/"one" |
| NotificationsSlice.RemoveAbsentIsNoOp | packages/loot-core/src/client/notifications/notificationsSlice.ts:83-85 | removing an id no record carries leaves the list unchanged |
| NotificationsSlice.RemoveIsIdempotent | packages/loot-core/src/client/notifications/notificationsSlice.ts:83-85 | after a removal no record carries the id, and removing twice equals removing once |
| NotificationsSlice.RemoveKeepsUniqueIds | packages/loot-core/src/client/notifications/notificationsSlice.ts:83-85 | a removal keeps the ids pairwise distinct |
| NotificationsSlice.RemovePresentDropsOne | packages/loot-core/src/client/notifications/notificationsSlice.ts:83-85 | in a list of distinct ids, removing a present id shortens the list by exactly one |
| NotificationsSlice.ReduceAllKeepsUniqueIds | packages/loot-core/src/client/notifications/notificationsSlice.ts:53-102 | from a state with distinct ids, every run of actions ends in a state with distinct ids |
| NotificationsSlice.ReachableStatesHaveUniqueIds | packages/loot-core/src/client/notifications/notificationsSlice.ts:38-102 | every state reached from the initial state by any run of actions has distinct ids |
| NotificationsSlice.RunEndingInCloseIsInitial | packages/loot-core/src/client/notifications/notificationsSlice.ts:94-100 | whatever ran before, a run ending with a fulfilled `closeBudget` or `closeBudgetUI` ends exactly in the initial state |
| NotificationsSlice.GenericErrorIsDiscarded | packages/loot-core/src/client/notifications/notificationsSlice.ts:68-78 | as written, the generic error action leaves the list unchanged, so from the initial state nothing is shown |
| NotificationsSlice.DispatchedGenericErrorIsShown | packages/loot-core/src/client/notifications/notificationsSlice.ts:68-78 | had the generic error been added, a fresh id would put one error record with the message at the tail, all else in place |
| NotificationsSlice.NotificationStore.constructor | packages/loot-core/src/client/notifications/notificationsSlice.ts:38-41 | a new store is `InitialState`: no records, inset `{}` |
| NotificationsSlice.NotificationStore.AddNotification | packages/loot-core/src/client/notifications/notificationsSlice.ts:57-67 | the list becomes `Added(old list, request, generatedId)`, the inset is untouched, the invariant is kept |
| NotificationsSlice.NotificationStore.AddGenericErrorNotification | packages/loot-core/src/client/notifications/notificationsSlice.ts:68-78 | builds the action and drops it: list and inset unchanged |
| NotificationsSlice.NotificationStore.AddGenericErrorNotificationDispatched | packages/loot-core/src/client/notifications/notificationsSlice.ts:68-78 | the corrected reducer: the generic error goes through `addNotification`, inset untouched, invariant kept |
| NotificationsSlice.NotificationStore.RemoveNotification | packages/loot-core/src/client/notifications/notificationsSlice.ts:79-86 | the list becomes `Filter(old list, id)`, the inset is untouched, the invariant is kept |
| NotificationsSlice.NotificationStore.SetNotificationInset | packages/loot-core/src/client/notifications/notificationsSlice.ts:87-92 | the inset becomes `InsetFor(payload)`, the list is untouched |
| NotificationsSlice.NotificationStore.Reset | packages/loot-core/src/client/notifications/notificationsSlice.ts:94-100 | the store becomes the initial state, from any prior state |
| NotificationsSlice.NotificationStore.Dispatch | packages/loot-core/src/client/notifications/notificationsSlice.ts:53-102 | dispatching an action steps the store exactly as `Reduce` steps its state, and keeps the invariant |

## Left out

- `uuidv4()` (a random generator) is not modelled: the id it would return is a parameter, and nothing is assumed about it; uniqueness of generated ids is a hypothesis of the lemmas that need it.
- The translation call `t(...)` is not modelled: the generic error's message is a parameter; `Dispatch` passes the untranslated text.
- The callbacks `button.action`, `messageActions` and `onClose` are opaque `Callback` handles; the store never calls them.
- `timeout` and the inset offsets are JavaScript numbers; they are modelled as `int`, with no floating point.
- Redux Toolkit itself (`createSlice`, immer drafts, action matchers, action types) is not modelled; only the state transitions it produces are, with every action that is neither a case action nor a fulfilled close as `Unrelated`.
- The pending and rejected phases of `closeBudget`/`closeBudgetUI`, and the thunks themselves, live in the budgets slice, which is not part of this model; they fall under `Unrelated`.
- The `inset` field of the state is optional in the TypeScript state type, but every reducer and the initial state install an object; the model's inset is always present.
- The `warning` type is kept as a tag only; nothing in the store handles it.
- The schedules view and the `useMetadataPref` and `useAccounts` hooks are UI and data-fetching glue and are not part of this model.
- NotificationsSlice.Reduce follows the code as written for `addGenericErrorNotification` (no change); the behaviour the reducer's name intends (the action dispatched through `addNotification`) is modelled separately by `NotificationStore.AddGenericErrorNotificationDispatched`.

## Findings

| source | as written | input that shows it | evidently intended | confidence | as-written member | corrected member |
|---|---|---|---|---|---|---|
| packages/loot-core/src/client/notifications/notificationsSlice.ts:68-78 | the case reducer calls the action creator `addNotification`, which only builds an action object; the reducer neither dispatches it nor touches the state, so the state stays as it was | dispatching `addGenericErrorNotification()` on the initial state leaves the list empty | the generic error is added like any other notification, appended with a fresh generated id and shown to the user | high; not executed | NotificationsSlice.NotificationStore.AddGenericErrorNotification, NotificationsSlice.GenericErrorIsDiscarded | NotificationsSlice.NotificationStore.AddGenericErrorNotificationDispatched, NotificationsSlice.DispatchedGenericErrorIsShown |
