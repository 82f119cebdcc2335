# Parabol placement, layout, settings, integration and user-update logic in Dafny

This project models five small pieces of logic from the Parabol web
application and proves their behaviour:

- **Menu placement** (`UseCoords`, `use_coords.dfy`). `getNextCoords` places a
  floating menu or tooltip (the target) at a preferred corner of the element
  that opened it (the origin). Horizontally it only clamps to the page.
  Vertically, an upper position that does not fit below the origin flips to
  the matching lower position and is anchored from the bottom. The hook's
  window-resize handler then rewrites `right`/`bottom` coordinates as
  `left`/`top`.
- **Spotlight columns** (`SpotlightColumns`, `spotlight_columns.dfy`).
  `getColumns` chooses how many columns of reflection groups fit the
  measured width and stores the column indices.
- **Organization-settings reducer** (`OrgSettings`, `org_settings.dfy`). This
  Redux reducer toggles one of three modals and records the user the modal
  is about.
- **Suggested integrations** (`SuggestedIntegrations`,
  `suggested_integrations.dfy`). The `suggestedIntegrations` GraphQL
  resolver has an authorization guard and three branches: fetch everything,
  the user's own list, or the team's integrations with the user's own items
  used in the last 30 days put first (in team-list order), deduplicated by
  id so the first item for each id is kept.
- **User update** (`UpdateUser`, `update_user.dfy`). This is the generated
  `UPDATE "User" SET col = COALESCE(:col, col) ... WHERE id IN :ids`
  statement, as an in-place update of a table keyed by id.

`wrappers.dfy` holds the `Option` and `Result` types the modules share.
`None` stands for JavaScript's `undefined`/`null` and for SQL's NULL.

Inputs the source reads from the environment are arguments:

- `window.scrollX`, `window.scrollY`, `window.innerHeight` and
  `document.documentElement.clientWidth` form the `Viewport`.
- The element's `clientWidth` and its `getBoundingClientRect()` are arguments.
- The resolver's auth token, data-loader results, helper results and
  `Date.now()` are arguments.

The helper `getOffset` (from `withCoordsV2`) is not part of this model. It is
passed in as an arbitrary function `getOffset: (Side, real) -> real`, so every
placement property holds whatever it computes. Only `UpperLeftUnderOrigin`
and `UpperRightAlignsRightEdges` assume the usual edge offsets
(`EdgeOffsets`: left/top give 0, right/bottom give the size). The two
worked-example lemmas pass such a function themselves.

With edge offsets, an upper-left menu's `top` is
`scrollY + originTop + originHeight`, the origin's bottom edge. So with an
origin 500 px down a 600 px viewport and a 300 px menu, the menu does not fit
and flips (`ExampleFlipAboveOrigin`).

## Model

| member | source | states |
|---|---|---|
| UseCoords.AnchorLookup | src/universal/hooks/useCoords.ts:40-81 | target and origin share the horizontal edge and attach by opposite vertical edges; upper positions anchor the target by its top, right positions by its right edge |
| UseCoords.LowerLookup | src/universal/hooks/useCoords.ts:83-86 | only the two upper positions have a flip target, and it is the lower position on the same horizontal side |
| UseCoords.HorizontalCoord | src/universal/hooks/useCoords.ts:94-107 | `left` is set iff the target's horizontal anchor is not `right`; `left` is at most the unclamped value and at most `pageWidth - width + scrollX`; `right` is at most `pageWidth - (originLeft + offset) - scrollX` and at most `pageWidth - width - scrollX`; each is the smaller of its two bounds |
| UseCoords.GetNextCoords | src/universal/hooks/useCoords.ts:88-127 | horizontal part as above; `top` is kept iff the target is not bottom-anchored and `top + height < innerHeight + scrollY`, and then the preferred position is reported; otherwise `bottom` is the smaller of `innerHeight - originTop - scrollY` and `innerHeight - height + scrollY`, and the position is `lowerLookup`'s entry |
| UseCoords.FlipLaw | src/universal/hooks/useCoords.ts:109-125 | an upper position that does not fit below is anchored from the bottom and reported as the lower position on its side |
| UseCoords.FlipMatchesLowerPosition | src/universal/hooks/useCoords.ts:118-125 | a flipped placement has the same coordinates, horizontal key and value included, as asking for the lower position directly |
| UseCoords.LowerPositionsAnchorFromBottom | src/universal/hooks/useCoords.ts:109-125 | the lower positions always get `bottom` and an undefined menu position |
| UseCoords.UpperLeftUnderOrigin | src/universal/hooks/useCoords.ts:98-116 | with edge offsets, a fitting upper-left menu sits at the origin's bottom edge, its left edge at the origin's left edge clamped to the page |
| UseCoords.UpperRightAlignsRightEdges | src/universal/hooks/useCoords.ts:103-107 | with edge offsets, an upper-right menu's `right` lines up with the origin's right edge, clamped to the page |
| UseCoords.ExampleFlipAboveOrigin | src/universal/hooks/useCoords.ts:109-125 | a 300 px menu under an origin 500 px down a 600 px viewport flips to lower-left with `bottom` 100 |
| UseCoords.ExampleStaysBelowOrigin | src/universal/hooks/useCoords.ts:109-116 | the same menu under an origin 220 px down stays below it at `top` 240 |
| UseCoords.CoordsHook.constructor | src/universal/hooks/useCoords.ts:165-168 | the held state starts at `{left: 0, top: 0}` with the preferred position |
| UseCoords.CoordsHook.ResizeWindow | src/universal/hooks/useCoords.ts:139-150 | with a target and a `right` or `bottom` key, the coordinates become the target rectangle's `left`/`top` and the menu position is kept; otherwise nothing changes; afterwards a present target always leaves `left`/`top` coordinates |
| SpotlightColumns.MaxPossibleColumns | packages/client/hooks/useSpotlightColumns.ts:16-22 | at least one column and at most `max(MAX_SPOTLIGHT_COLUMNS, 1)`; more than one column only when that many cards fit in the width; the most cards that fit unless capped; exactly one column only when fewer than two cards fit or the cap is at most one |
| SpotlightColumns.ColumnsCount | packages/client/hooks/useSpotlightColumns.ts:23-28 | one column fewer than possible iff the smallest column would hold fewer than two groups and more than one column is possible, otherwise all possible columns; always between 1 and `max(MAX_SPOTLIGHT_COLUMNS, 1)` |
| SpotlightColumns.Range | packages/client/hooks/useSpotlightColumns.ts:29 | `n` indices, the i-th equal to i |
| SpotlightColumns.ColumnsFor | packages/client/hooks/useSpotlightColumns.ts:13-30 | two groups or fewer give `[0]`; otherwise the list `0 .. columnsCount-1`, strictly increasing, of length between 1 and `max(MAX_SPOTLIGHT_COLUMNS, 1)` |
| SpotlightColumns.SpotlightColumnsHook.constructor | packages/client/hooks/useSpotlightColumns.ts:7 | the columns start as `null` |
| SpotlightColumns.SpotlightColumnsHook.GetColumns | packages/client/hooks/useSpotlightColumns.ts:9-32 | a missing element or zero width leaves the columns unchanged; otherwise they become the column list for the width |
| OrgSettings.Reducer | src/universal/modules/userDashboard/ducks/orgSettingsDuck.js:18-49 | an undefined state is the initial state; a type outside `orgSettings/`, or any type that is not one of the three toggles, returns the state unchanged; the three modal flags never change; a toggle closes its modal if open and opens it otherwise; remove-billing-leader writes `userId` and `preferredName`, leave-org only `userId`, payment neither; a missing payload gives undefined values |
| OrgSettings.ToggleRemoveModal | src/universal/modules/userDashboard/ducks/orgSettingsDuck.js:51-57 | the remove-billing-leader type with both payload fields |
| OrgSettings.ToggleLeaveModal | src/universal/modules/userDashboard/ducks/orgSettingsDuck.js:59-64 | the leave-org type with a payload holding only `userId` |
| OrgSettings.TogglePaymentModal | src/universal/modules/userDashboard/ducks/orgSettingsDuck.js:66-68 | the payment-modal type with no payload |
| OrgSettings.RemoveModalOpensThenCloses | src/universal/modules/userDashboard/ducks/orgSettingsDuck.js:22-29 | from a closed state the remove action opens its modal and records the user; repeating it closes the modal again |
| OrgSettings.LeaveModalWritesOnlyUserId | src/universal/modules/userDashboard/ducks/orgSettingsDuck.js:30-35 | the leave action toggles its modal and writes only `userId` |
| OrgSettings.PaymentModalWritesNoUser | src/universal/modules/userDashboard/ducks/orgSettingsDuck.js:36-40 | the payment action toggles its modal and writes nothing else |
| OrgSettings.ToggleTwiceRestoresOpenModal | src/universal/modules/userDashboard/ducks/orgSettingsDuck.js:22-40 | when `openModal` is empty or is that toggle's own type, the same toggle applied twice restores `openModal` |
| OrgSettings.ReduceAllKeepsInvariant | src/universal/modules/userDashboard/ducks/orgSettingsDuck.js:9-49 | over any sequence of actions from the initial state, `openModal` stays empty or names a toggle, and the three modal flags keep their values |
| SuggestedIntegrations.FindSharedTeam | packages/server/graphql/queries/suggestedIntegrations.ts:31 | finds a team iff one of the viewer's teams is one of the user's, and then returns the first such team |
| SuggestedIntegrations.RecentUserIntegrations | packages/server/graphql/queries/suggestedIntegrations.ts:49-52 | keeps exactly the team items of this user last used at or after `now - 30 days` |
| SuggestedIntegrations.RecentDistributesOverAppend | packages/server/graphql/queries/suggestedIntegrations.ts:50-52 | filtering a concatenation gives the concatenation of the filtered parts, so the filter keeps the team list's order and repeats |
| SuggestedIntegrations.DedupById | packages/server/graphql/queries/suggestedIntegrations.ts:54-62 | the deduplicated list has exactly the ids of its input, each once |
| SuggestedIntegrations.DedupKeepsFirstOccurrences | packages/server/graphql/queries/suggestedIntegrations.ts:58-62 | every kept item is the first item with its id in the input |
| SuggestedIntegrations.DedupKeepsOrder | packages/server/graphql/queries/suggestedIntegrations.ts:58-62 | kept items appear in the order of their first occurrences |
| SuggestedIntegrations.DedupOfDistinctIsIdentity | packages/server/graphql/queries/suggestedIntegrations.ts:54-62 | a list without repeated ids is returned unchanged |
| SuggestedIntegrations.DedupIdempotent | packages/server/graphql/queries/suggestedIntegrations.ts:54-62 | deduplicating twice is the same as once |
| SuggestedIntegrations.DedupTeamIntegrations | packages/server/graphql/queries/suggestedIntegrations.ts:54-62 | the `forEach` loop with its `idSet` computes `DedupById` of its input |
| SuggestedIntegrations.RecentAddsNoIds | packages/server/graphql/queries/suggestedIntegrations.ts:50-56 | putting the recent items in front of the team list adds no id |
| SuggestedIntegrations.FallbackUnreachable | packages/server/graphql/queries/suggestedIntegrations.ts:40-68 | with a non-empty team list, the deduplicated recent-then-team list that `Resolve` returns is never empty |
| SuggestedIntegrations.Resolve | packages/server/graphql/queries/suggestedIntegrations.ts:18-70 | an error ("Not on same team as user") iff the user is not the viewer and either shares no team with the viewer or the first shared team id is empty; no team items give the fetch-all items with `hasMore` false; a user-only list is returned as is with `hasMore` true; otherwise the dedup of recent-then-team items with `hasMore` true, whose ids are exactly the team list's ids, each once, and which is never empty |
| UpdateUser.Greatest | packages/server/postgres/queries/generated/updateUserQuery.ts:43 | SQL `GREATEST`: NULL only when both are NULL, at least every non-NULL argument, and equal to one of them |
| UpdateUser.SetColumns | packages/server/postgres/queries/generated/updateUserQuery.ts:40-53 | each COALESCE column takes the parameter when it is not NULL and keeps its value otherwise; `lastSeenAt` never goes back and is at least the parameter; `id` and unlisted columns are unchanged |
| UpdateUser.UpdatedRows | packages/server/postgres/queries/generated/updateUserQuery.ts:40-54 | the same ids are present; rows whose id is not in `ids` are unchanged; selected rows get the SET clause; rows stay keyed by their id |
| UpdateUser.AllNullIsIdentity | packages/server/postgres/queries/generated/updateUserQuery.ts:40-54 | with every value parameter NULL the table is unchanged |
| UpdateUser.UpdateIsIdempotent | packages/server/postgres/queries/generated/updateUserQuery.ts:40-54 | applying the same parameters twice gives the same table as once |
| UpdateUser.LastSeenNeverDecreases | packages/server/postgres/queries/generated/updateUserQuery.ts:43 | no row's `lastSeenAt` decreases |
| UpdateUser.UserTable.constructor | packages/server/postgres/queries/generated/updateUserQuery.ts:40 | a table whose rows are stored under their own ids |
| UpdateUser.UserTable.UpdateUserQuery | packages/server/postgres/queries/generated/updateUserQuery.ts:40-54 | the table becomes `UpdatedRows` of its old contents, still keyed by id, with unselected rows unchanged |

## Left out

- React wiring in `useCoords.ts`: `useState`, `useRefState`, `useLayoutEffect`, `useResizeObserver`, `getBBox` and the `resize` listener registration. These are DOM and event plumbing; only `getNextCoords`, the initial state and the resize rewrite are modelled.
- `getOffset` is not part of this model; it is an arbitrary function argument.
- `UseCoords.GetNextCoords` models numbers as exact reals. JavaScript's floating-point rounding is not modelled, and neither are NaN or infinite sizes.
- The React state plumbing of `useSpotlightColumns` (`useLayoutEffect`, `useResizeObserver`) is not modelled. The values of `ElementWidth.MEETING_CARD_WITH_MARGIN` and `MAX_SPOTLIGHT_COLUMNS` are not part of this model; they are the hook's constants, and the card width is taken to be a positive whole number of pixels, so `Math.floor(width / CARD)` is integer division.
- The reducer's default action `{}` has no `type` and throws at `startsWith`. The model's `Action` always carries a type, so that failure is not modelled.
- `OrgSettings.ReduceAll` models a store reducing actions one after another. The Redux store itself is not part of this model.
- In `suggestedIntegrations.ts`, these are not modelled; their results are arguments: the data-loader fetches, `getUserId` and auth-token parsing, `getPermsByTaskService`, `getTeamIntegrationsByTeamId`, `useOnlyUserIntegrations`, `fetchAllIntegrations`, `standardError` and `Date.now()`. The user record is assumed to exist, as the source's `user!` does.
- Integration items keep only `id`, `userId` and `lastUsedAt`. The other fields of `IntegrationByTeamId` are not part of this model.
- `SuggestedIntegrations.Resolve` models `lastUsedAt` and `now` as integer milliseconds, so comparing with a missing date is not modelled.
- The pgtyped `PreparedQuery` wrapper, the parameter expansion of `:ids` (including an empty list) and the IR blob are not modelled. `identities` is a JSON document compared as a whole value.
- The statement's `void` result is not modelled, and neither are concurrent transactions.
