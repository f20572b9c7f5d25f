# Event-type advanced settings and enabled-app selection, in Dafny

This project models two pieces of a scheduling web application.

**The advanced tab of an event type** (`EventAdvancedTab`). The form store is a
record, `FormValues`. It holds the booking fields, the confirmation
requirement, the seats switch and capacity, the metadata's multiple durations
and stripe settings, the success-redirect URL, the attached private-link token
and the slug. The class `EventAdvancedForm` holds that record beside the
component's own React state: the mirrored confirmation flag, the visibility of
the redirect and private-link switches, the session's private-link token
`hashedUrl`, and the `eventType` prop.

Each switch handler is a method. It runs the handler's `setValue` steps in
order. The seats handler is proved equal to a pure transition,
`SeatsToggled`, and the lemmas are about that transition. Each method's
`modifies` clause names only the state slots it writes. As a result, only the
token effect can write `hashedUrl`, and it never replaces a token it already
holds. Three client methods run whole sessions of several steps:

- the redirect URL is lost after off-then-on;
- the private link reattaches the same token and URL;
- seats are turned on in a fresh form.

**Enabled-app selection** (`EnabledApps`). The loop splits the credentials into
truthy user ids and truthy team ids. From those ids the OR filter gets at most
two clauses. The `where` object includes that filter only when it is
non-empty. A `reduce` then joins the returned app rows with the app metadata
by slug. Each loop is a method proved equal to a recursive function that
defines its result, and the lemmas are about that function.

JavaScript truthiness is written out:

- an id counts when it is present and not 0;
- a token or URL counts when it is present and not empty;
- `filterOnCredentials` counts only when it is `true`;
- `x ?? 2` keeps a stored 0;
- a template literal prints an absent token as `undefined`.

## Model

| member | source | states |
|---|---|---|
| `EventAdvancedTab.BookingFieldSamples` | apps/web/components/eventtype/EventAdvancedTab.tsx:62-71 | The sample map's keys are exactly the booking-field names, and each name maps to the name followed by " input". |
| `EventAdvancedTab.GuestsToggled` | apps/web/components/eventtype/EventAdvancedTab.tsx:95-112 | Same length. Every field not named "guests" is unchanged. Every "guests" field keeps its name and other properties, has `hidden == !enabled`, and is system-but-hidden exactly when disabled and system-but-optional exactly when enabled. |
| `EventAdvancedTab.GuestsToggledShape` | apps/web/components/eventtype/EventAdvancedTab.tsx:99-110 | After the rewrite, every guests field is in the target shape, and the set of field names is unchanged. |
| `EventAdvancedTab.GuestsToggledFixes` | apps/web/components/eventtype/EventAdvancedTab.tsx:99-110 | Fields whose guests entries already have the target shape come back exactly as they were. |
| `EventAdvancedTab.GuestsToggledLastWins` | apps/web/components/eventtype/EventAdvancedTab.tsx:95-112 | Two toggles in a row equal the second toggle alone. So the rewrite is idempotent. |
| `EventAdvancedTab.GuestsToggledRoundTrip` | apps/web/components/eventtype/EventAdvancedTab.tsx:95-112 | Take fields already in the shape for `enabled`. Toggling to `!enabled` and back returns them unchanged. |
| `EventAdvancedTab.NoShowFeeEnabled` | apps/web/components/eventtype/EventAdvancedTab.tsx:87-89 | The no-show fee is held exactly when the stripe settings are present with `enabled` true and `paymentOption` "HOLD". A missing, false or other value of either part leaves it off. |
| `EventAdvancedTab.SeatsToggled` | apps/web/components/eventtype/EventAdvancedTab.tsx:374-387 | Seats on: guests hidden, confirmation false, multiple durations cleared, capacity = stored capacity ?? 2, switch true. Seats off: capacity cleared, guests shown, switch false, confirmation and metadata untouched. Redirect URL, private link, slug and stripe settings never change. |
| `EventAdvancedTab.SeatsExcludeGuests` | apps/web/components/eventtype/EventAdvancedTab.tsx:376-386 | After the seats switch, every guests field is hidden and system-but-hidden exactly when seats are on, and otherwise visible and system-but-optional. |
| `EventAdvancedTab.SeatsToggledIdempotent` | apps/web/components/eventtype/EventAdvancedTab.tsx:374-387 | Running the seats handler twice with the same value equals running it once. |
| `EventAdvancedTab.SeatsOnOffRoundTrip` | apps/web/components/eventtype/EventAdvancedTab.tsx:374-387 | Seats on then off restores the form when seats were off with no capacity, guests were visible-optional, confirmation was off and no multiple durations were set. |
| `EventAdvancedTab.SeatsOnOffDropsConfirmation` | apps/web/components/eventtype/EventAdvancedTab.tsx:376-385 | After seats on then off, confirmation is no longer required, whatever it was before. The off branch does not restore it. |
| `EventAdvancedTab.PlaceholderHashedLink` | apps/web/components/eventtype/EventAdvancedTab.tsx:85 | The URL is laid out as the base URL, then "/d/", then the token, then "/", then the slug. The token part is the token itself when present and the text "undefined" when absent, which is how the template literal prints `undefined`. |
| `EventAdvancedTab.PlaceholderHashedLinkInjective` | apps/web/components/eventtype/EventAdvancedTab.tsx:85 | The private URL is `CAL_URL + "/d/" + token + "/" + slug`. For one base URL, it determines both the token and the slug when tokens contain no "/". |
| `EventAdvancedTab.EventAdvancedForm.constructor` | apps/web/components/eventtype/EventAdvancedTab.tsx:58-84 | First render. The private-link switch is on exactly when the loaded `hashedLink` is truthy, and the redirect switch exactly when the loaded URL is not empty. The token starts as the event type's `hashedLink?.link`. The confirmation mirror starts from the form value. |
| `EventAdvancedTab.EventAdvancedForm.EnsureHashedUrl` | apps/web/components/eventtype/EventAdvancedTab.tsx:91-93 | The token is set to the generated value only while it is absent or empty. A held token is never replaced, and no other state is written. |
| `EventAdvancedTab.EventAdvancedForm.ToggleGuests` | apps/web/components/eventtype/EventAdvancedTab.tsx:95-112 | Only the booking fields change, and they become `GuestsToggled` of the old ones. |
| `EventAdvancedTab.EventAdvancedForm.SeatsCheckedChange` | apps/web/components/eventtype/EventAdvancedTab.tsx:374-387 | The handler's steps leave the form equal to `SeatsToggled(old form, eventType.seatsPerTimeSlot, on)`. The confirmation mirror becomes false when turning on and is untouched when turning off. The token and the switch visibilities are untouched. |
| `EventAdvancedTab.EventAdvancedForm.ClickSeatsSwitch` | apps/web/components/eventtype/EventAdvancedTab.tsx:373-387 | The click takes effect exactly when the no-show fee is not held, meaning stripe `enabled === true` and `paymentOption === "HOLD"` (lines 87-89). If held, nothing changes. Otherwise the form is the handler's result, and the confirmation mirror becomes false when turning on and is untouched when turning off. |
| `EventAdvancedTab.EventAdvancedForm.SetSeatCount` | apps/web/components/eventtype/EventAdvancedTab.tsx:404-406 | The capacity becomes the absolute value of the typed integer, and nothing else changes. |
| `EventAdvancedTab.EventAdvancedForm.RedirectCheckedChange` | apps/web/components/eventtype/EventAdvancedTab.tsx:261-264 | The switch becomes `on`. The URL keeps its current value when on and becomes "" when off. |
| `EventAdvancedTab.EventAdvancedForm.EditRedirectUrl` | apps/web/components/eventtype/EventAdvancedTab.tsx:266-276 | Typing into the registered URL field sets `successRedirectUrl`, and nothing else changes. |
| `EventAdvancedTab.EventAdvancedForm.HashedLinkCheckedChange` | apps/web/components/eventtype/EventAdvancedTab.tsx:313-316 | The form's `hashedLink` becomes the session token when on and absent when off. The switch becomes `on`, and the token itself is not written. |
| `EventAdvancedTab.RedirectOffLosesUrl` | apps/web/components/eventtype/EventAdvancedTab.tsx:261-264 | Redirect on, type a URL, off, on again: the URL is "", for any initial form and any typed URL. |
| `EventAdvancedTab.PrivateLinkReattaches` | apps/web/components/eventtype/EventAdvancedTab.tsx:313-316 | Effect, link on, link off, effect again with a fresh token, link on: the same token and the same private URL are attached both times. That token is the loaded one if truthy (line 60), else the first generated one (lines 91-93). |
| `EventAdvancedTab.SeatsOnScenario` | apps/web/components/eventtype/EventAdvancedTab.tsx:373-381 | Seats on in a fresh form with no stored capacity. With the no-show fee held, the form is unchanged. Otherwise: seats on, capacity 2, no confirmation, guests hidden. |
| `EnabledApps.CollectIds` | packages/lib/apps/getEnabledApps.ts:23-29 | The collected ids are all non-zero, and there are no more of them than credentials. |
| `EnabledApps.CollectIdsAppend` | packages/lib/apps/getEnabledApps.ts:26-29 | Collecting over `a + b` gives the ids of `a` followed by those of `b`, so credential order is kept. |
| `EnabledApps.CollectIdsMembers` | packages/lib/apps/getEnabledApps.ts:27-28 | An id is collected exactly when it is non-zero and some credential carries it. 0 and absent ids are skipped. |
| `EnabledApps.PartitionCredentials` | packages/lib/apps/getEnabledApps.ts:23-29 | The loop's `userIds` and `teamIds` are exactly the truthy user ids and team ids, in credential order. |
| `EnabledApps.OrClauses` | packages/lib/apps/getEnabledApps.ts:22-31 | At most two clauses, and none unless filtering is on. With filtering on, a user-id clause is present (first) when there are user ids, and a team-id clause is present (last) when there are team ids. Each clause carries the non-empty collected ids of its kind. |
| `EnabledApps.BuildOrFilter` | packages/lib/apps/getEnabledApps.ts:14-32 | Building the list in place with `push` gives exactly `OrClauses`. |
| `EnabledApps.WhereClause` | packages/lib/apps/getEnabledApps.ts:35-38 | The query always asks for `enabled: true`. The credentials filter is present exactly when the OR list is non-empty, and it is then that list. |
| `EnabledApps.UnfilteredQueryIsEnabledOnly` | packages/lib/apps/getEnabledApps.ts:22-37 | When `filterOnCredentials` is false or undefined, the `where` is just `enabled: true`. |
| `EnabledApps.FilteredQueryNeedsAnId` | packages/lib/apps/getEnabledApps.ts:26-37 | With filtering on, the query has a credentials filter exactly when some credential has a truthy user id or team id. |
| `EnabledApps.FindBySlug` | packages/lib/apps/getEnabledApps.ts:44 | The result is absent exactly when no metadata entry has the slug. Otherwise it is the first entry with that slug. |
| `EnabledApps.JoinRow` | packages/lib/apps/getEnabledApps.ts:44-47 | The reducer adds at most one entry for a row, and it adds one exactly when some metadata entry has the row's slug. That entry is the first metadata with that slug, and its `enabled` is the row's flag. |
| `EnabledApps.JoinRows` | packages/lib/apps/getEnabledApps.ts:43-49 | The joined list is no longer than the row list. |
| `EnabledApps.JoinRowsAppend` | packages/lib/apps/getEnabledApps.ts:43-49 | Joining `a + b` gives the entries of `a` followed by those of `b`, so database row order is kept. |
| `EnabledApps.JoinRowsMembers` | packages/lib/apps/getEnabledApps.ts:44-46 | An entry is in the result exactly when some row's slug finds that metadata (the first with that slug) and the entry's `enabled` is that row's flag. |
| `EnabledApps.JoinRowsKeepsMatchedRows` | packages/lib/apps/getEnabledApps.ts:43-49 | When every row's slug has metadata, no row is dropped. |
| `EnabledApps.FilterEnabledApps` | packages/lib/apps/getEnabledApps.ts:43-49 | The `reduce`, with its accumulator, builds exactly `JoinRows`. |
| `EnabledApps.GetEnabledApps` | packages/lib/apps/getEnabledApps.ts:13-52 | The query is issued with `WhereClause(OrClauses(...))`, which is plain `enabled: true` when not filtering. The result is the slug join of the returned rows with the app metadata, and it is no longer than the rows. |

## Left out

- Rendering, the tRPC queries, toasts and the clipboard are not modelled. They are UI and I/O.
- The locked-fields manager (`useLockedFieldsManager`, `shouldLockDisableProps`) is not modelled. It is code outside this model.
- `RequiresConfirmationController` is not modelled. It is code outside this model.
- `getEventName` and the event-name placeholder are not modelled. They are code outside this model.
- `allowDisablingAttendeeConfirmationEmails` and `allowDisablingHostConfirmationEmails` are not modelled. They are code outside this model.
- The switches that only forward their value to the form are not modelled: booker email verification, calendar notes, time-zone lock and standard emails. They have no rule beyond `onChange(e)`.
- `generateHashedLink` is not modelled. It uses short-uuid, UUID v5 and the wall clock, so its output is a parameter. The choice of its seed id (`users[0]?.id ?? team?.id`) is not modelled either, because only the generator uses it.
- `EventAdvancedTab.PrivateLinkReattaches`: it requires the first generated token to be non-empty. short-uuid never returns an empty string.
- React's effect scheduling is not modelled. `EnsureHashedUrl` is a method that callers run when the effect would fire.
- `EventAdvancedTab.EventAdvancedForm.SetSeatCount`: it does not model `Number(...)` parsing of the typed text or floating point. It uses the integer absolute value only.
- Field editability tiers: the form-builder schema is not part of this model. Only the two system tiers the guests rewrite uses matter, and the other tiers are placeholders.
- The Prisma `findMany` and `getApps` are not modelled. They are database and foreign calls, so their results are the inputs `enabledApps` and `apps`. Ids are integers; JavaScript's `NaN` is not modelled.

## Notes

- **Seat capacity when seats are turned on.** The seats handler uses the event type's stored capacity (`eventType.seatsPerTimeSlot ?? 2`), not the capacity currently in the form.
- **Redirect switch turned on.** The redirect handler keeps whatever URL the field holds (`onChange(e ? value : "")`). It clears the URL only when the switch is turned off.
- **No-show-fee guard.** The seats handler itself does not check the no-show fee. The switch is rendered disabled (`disabled={noShowFeeEnabled}`). That prop is written after the `seatsLocked` spread, so it also overrides the lock's `disabled` value. `ClickSeatsSwitch` models this.
