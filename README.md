# ClaimIQ: database URL and claim pages

ClaimIQ is an insurance-claims application with a Flask backend and a
Next.js frontend. This project models the parts of it with behaviour of
their own and proves properties of them:

- **`Config`** (`config.dfy`): the backend's `Settings.sqlalchemy_database_url`.
  An explicit `DATABASE_URL` in the plain `postgresql://` scheme has every
  occurrence of that scheme rewritten to `postgresql+psycopg2://`. Any other
  explicit URL is passed through unchanged. Without one, the URL is built
  from `PGUSER`, `PGPASSWORD`, `PGHOST` (default `localhost`), `PGPORT`
  (default `5432`) and `PGDATABASE`. `Decimal` (`decimal.dfy`) writes the
  port the way `str(int)` does, and has a parser as its partner.
- **`ClaimForm`** (`claim_form.dfy`): the new-claim page. Eight form
  fields, the `isSubmitting`/`isSubmitted` flags and the two timers are a
  class, `NewClaimPage`. Its methods are the page's event handlers, and each
  is proved against a pure step function on `FormState`. Lemmas over
  arbitrary event sequences show that the page cycles editing → submitting →
  confirmation → empty form, and that it is never submitting and submitted
  at once.
- **`Sidebar`** (`sidebar.dfy`): the navigation sidebar. Its state
  (`collapsed`, `mobileOpen`, and the last media-query value `isMobile`) is a
  class, `SidebarComponent`, with one method per handler and one for the
  auto-collapse effect. What is drawn is the pure function `Render`.
- **`ClaimsList`** (`claims_list.dfy`): the claims list. It holds the mock
  claims, the status badge mapping, the `/claims/<id>` link (with its
  inverse), and the table and card layouts.
- **`Dashboard`** (`dashboard.dfy`): the dashboard. It holds the stats, the
  recent claims with their status colours and separators, and the
  processing-status bars.

`Wrappers` (`wrappers.dfy`) holds the `Option` type.

The browser is part of the form's model in one respect. It runs the submit
handler only for a rendered form whose button is enabled and whose
`required` inputs are all non-empty (`ClaimForm.SubmitDispatched`). The
1000 ms and 2000 ms timers are modelled as pending callbacks that fire as
events. An edit is an event only while the form is rendered: the
confirmation panel has no inputs.

## Model

| member | source | states |
|---|---|---|
| Config.WithDefaults | backend/app/config.py:34-39 | with only the required PG* values given, the host is `localhost`, the port 5432 and there is no `DATABASE_URL` |
| Config.ConstructedUrl | backend/app/config.py:46 | the f-string URL starts with `postgresql+psycopg2://`, so it never passes the `startswith("postgresql://")` test |
| Config.SqlalchemyDatabaseUrl | backend/app/config.py:41-46 | the URL is never empty; a non-empty explicit URL that does not start with `postgresql://` is returned as it is; without one, the result starts with `postgresql+psycopg2://` |
| Config.ReplaceAll | backend/app/config.py:45 | Python's `str.replace`, left to right and non-overlapping: text without the pattern comes back unchanged |
| Config.Psycopg2IsNotPostgres | backend/app/config.py:45 | a URL in the driver scheme never passes the `startswith("postgresql://")` test |
| Config.DriverSchemeLetterP | backend/app/config.py:45 | the letter the plain scheme starts with occurs in the driver scheme only at positions 0, 11 and 16 |
| Config.MismatchRulesOutOccurrence | backend/app/config.py:45 | one mismatching character rules out an occurrence of the pattern at that position |
| Config.NoSchemeInsideReplacement | backend/app/config.py:45 | no `postgresql://` starts inside an inserted `postgresql+psycopg2://` |
| Config.RewritePreservesPrefix | backend/app/config.py:45 | the rewrite does not create a prefix free of `p` that the input lacked |
| Config.NoSchemeAfterReplacement | backend/app/config.py:45 | an inserted driver scheme followed by text free of the plain scheme is free of it |
| Config.NoSchemeShifted | backend/app/config.py:45 | prepending one character moves every position one place right, so no new occurrence appears after the first character |
| Config.NoSchemeAtKeptChar | backend/app/config.py:45 | a character kept because no scheme starts there does not begin one in front of the rewritten remainder |
| Config.NoSchemeAfterKeptChar | backend/app/config.py:45 | a kept character followed by rewritten text does not form a new `postgresql://` |
| Config.RewriteLeavesNoPlainScheme | backend/app/config.py:45 | the rewrite replaces every occurrence: its result contains no `postgresql://` at all |
| Config.RewriteStartsWithDriverScheme | backend/app/config.py:45 | a URL in the plain scheme comes out in the driver scheme |
| Config.ExplicitPostgresUrlRewritten | backend/app/config.py:44-45 | an explicit `postgresql://` URL yields that URL with all occurrences rewritten; the result is in the driver scheme and holds no plain scheme |
| Config.SplitAtFirst | backend/app/config.py:46 | splitting at the first separator gives a part free of it, the separator and the rest, which rejoin to the input; no split means no separator |
| Config.SplitAtFirstOfJoin | backend/app/config.py:46 | joining a separator-free part, the separator and any rest splits back into the same two parts |
| Config.ParseConstructedUrl | backend/app/config.py:46 | a parsed URL starts with the driver scheme |
| Config.ParseAuthorityOfJoin | backend/app/config.py:46 | `user:password@host:port/database` reads back into its five parts when the user holds no `:`, the password no `@` and the host no `:` |
| Config.ConstructedUrlExact | backend/app/config.py:44-46 | without `DATABASE_URL` the URL is exactly scheme + user + `:` + password + `@` + host + `:` + decimal port + `/` + database, for every setting |
| Config.ConstructedUrlRoundTrip | backend/app/config.py:44-46 | when the user holds no `:`, the password no `@` and the host no `:`, the constructed URL reads back into those five settings (other credentials collide, see `Config.UnencodedCredentialsCollide`) |
| Config.UnencodedCredentialsCollide | backend/app/config.py:46 | nothing is percent-encoded: the password `p1@p2` with host `h` and the password `p1` with host `p2@h` are different settings that give the same URL |
| Config.DefaultsGiveLocalhost | backend/app/config.py:34-46 | with the default host and port, the constructed URL contains `@localhost:5432/` |
| Config.DefaultAuthorityText | backend/app/config.py:34-35 | the default host and port are written as `@localhost:5432/` between the password and the database |
| Config.DerivationIsIdempotent | backend/app/config.py:44-46 | feeding the derived URL back in as `DATABASE_URL` derives the same URL |
| Config.DriverSchemeUrlUnchanged | backend/app/config.py:45 | an explicit URL already in the driver scheme is returned unchanged |
| Decimal.DigitChar | backend/app/config.py:46 | a digit below ten becomes the character with that value |
| Decimal.NatToDecimal | backend/app/config.py:46 | a natural number is written as a non-empty string of digits with no leading zero |
| Decimal.IntToDecimal | backend/app/config.py:46 | `str(int)`: non-empty, with a leading `-` exactly for negative values and digits otherwise |
| Decimal.ParseInt | backend/app/config.py:46 | only a non-empty string reads as a number |
| Decimal.NatToDecimalRoundTrip | backend/app/config.py:46 | the digits written for `n` read back as `n` |
| Decimal.IntToDecimalRoundTrip | backend/app/config.py:46 | the port written into the URL reads back as the same integer |
| Decimal.IntToDecimalInjective | backend/app/config.py:46 | distinct ports are written differently |
| ClaimForm.FormData.With | frontend/app/claims/new/page.tsx:28-35 | `{ ...prev, [name]: value }`: the named field takes the value and every other field keeps its own |
| ClaimForm.RequiredFilledMeansEveryRequiredField | frontend/app/claims/new/page.tsx:154-262 | the browser's `required` check holds iff every field other than the insurance-type select is non-empty |
| ClaimForm.ShowsForm | frontend/app/claims/new/page.tsx:115 | the form is rendered exactly when the confirmation panel is not |
| ClaimForm.SubmitLabel | frontend/app/claims/new/page.tsx:274-303 | the button reads "Processing..." exactly while it is disabled, and "Submit Claim" exactly while it is enabled |
| ClaimForm.SubmitDispatched | frontend/app/claims/new/page.tsx:135-274 | the browser runs `handleSubmit` iff neither flag is set and every field other than the insurance-type select is non-empty |
| ClaimForm.AfterChange | frontend/app/claims/new/page.tsx:28-35 | an edit sets the named field, keeps the other seven, both flags and both timers, and keeps the page in its phase |
| ClaimForm.AfterHandleSubmit | frontend/app/claims/new/page.tsx:37-42 | `isSubmitting` becomes true and one more first callback is pending; data and `isSubmitted` are kept; an editing page moves to submitting |
| ClaimForm.AfterFirstTimer | frontend/app/claims/new/page.tsx:42-48 | the first callback clears `isSubmitting`, sets `isSubmitted`, keeps the data and trades its own pending call for a pending second one; a page in the cycle moves from submitting to submitted |
| ClaimForm.AfterSecondTimer | frontend/app/claims/new/page.tsx:48-61 | the second callback clears `isSubmitted`, empties all eight fields and keeps `isSubmitting`; a page in the cycle moves from submitted to editing |
| ClaimForm.Apply | frontend/app/claims/new/page.tsx:28-61 | an edit sets its field and keeps the flags; a press changes the state iff the browser dispatches it, and then sets `isSubmitting`; the first timer shows the confirmation; the second restores the empty form |
| ClaimForm.InitialIsEmpty | frontend/app/claims/new/page.tsx:14-26 | all eight fields start empty, with neither flag set |
| ClaimForm.ChangeSetsOnlyThatField | frontend/app/claims/new/page.tsx:28-35 | an edit sets exactly the named field; the other fields and both flags are unchanged |
| ClaimForm.SubmitRaisesSubmitting | frontend/app/claims/new/page.tsx:37-39 | a dispatched submit sets `isSubmitting` and leaves the data and `isSubmitted` alone |
| ClaimForm.BlockedSubmitChangesNothing | frontend/app/claims/new/page.tsx:37-39 | a submit the browser does not dispatch leaves the state as it was |
| ClaimForm.FirstTimerSubmits | frontend/app/claims/new/page.tsx:42-45 | the first callback clears `isSubmitting`, sets `isSubmitted` and keeps the data; the confirmation is shown |
| ClaimForm.SecondTimerResets | frontend/app/claims/new/page.tsx:48-61 | the second callback clears `isSubmitted` and empties all eight fields |
| ClaimForm.RenderingFollowsFlags | frontend/app/claims/new/page.tsx:115-303 | the form is shown iff the confirmation is not; the button is disabled iff its label is "Processing...", and enabled iff it reads "Submit Claim" |
| ClaimForm.StepKeepsInv | frontend/app/claims/new/page.tsx:37-61 | every enabled event keeps the page in one of the phases editing, submitting or submitted, and moves it only one step along that cycle |
| ClaimForm.RunKeepsInv | frontend/app/claims/new/page.tsx:37-61 | the phase invariant holds after any runnable sequence of events |
| ClaimForm.NeverSubmittingAndSubmitted | frontend/app/claims/new/page.tsx:37-61 | from the initial page, no sequence of events makes it submitting and submitted at once |
| ClaimForm.SecondTimerFollowsFirst | frontend/app/claims/new/page.tsx:42-61 | with no reset scheduled, every firing of the second callback is preceded by a firing of the first |
| ClaimForm.SubmissionCycle | frontend/app/claims/new/page.tsx:37-61 | a filled-in form can be submitted; it shows "Processing...", then the confirmation, then the initial empty page |
| ClaimForm.ExampleSubmission | frontend/app/claims/new/page.tsx:37-61 | a concrete claim runs through the cycle back to the initial state |
| ClaimForm.NewClaimPage.constructor | frontend/app/claims/new/page.tsx:14-26 | the page starts in the initial state |
| ClaimForm.NewClaimPage.HandleChange | frontend/app/claims/new/page.tsx:28-31 | the new state is the edit step of the old one |
| ClaimForm.NewClaimPage.HandleSelectChange | frontend/app/claims/new/page.tsx:33-35 | the select's edit is the same step as an input's |
| ClaimForm.NewClaimPage.HandleSubmit | frontend/app/claims/new/page.tsx:37-42 | sets `isSubmitting` and schedules the first callback |
| ClaimForm.NewClaimPage.PressSubmit | frontend/app/claims/new/page.tsx:37-42 | reports whether the browser dispatched the submit, and the new state is the submit event's step |
| ClaimForm.NewClaimPage.OnFirstTimer | frontend/app/claims/new/page.tsx:42-48 | the first callback's step, which also schedules the second |
| ClaimForm.NewClaimPage.OnSecondTimer | frontend/app/claims/new/page.tsx:48-61 | the second callback's step |
| Sidebar.RenderItems | frontend/components/ui/sidebar.tsx:129-162 | one view per nav item, in order |
| Sidebar.IsActive | frontend/components/ui/sidebar.tsx:130 | an item is active iff the path equals its href; a path of another length never activates it |
| Sidebar.PanelVisible | frontend/components/ui/sidebar.tsx:89 | on desktop the panel is always mounted; on mobile only while the menu is open |
| Sidebar.OverlayVisible | frontend/components/ui/sidebar.tsx:191 | there is no overlay on desktop; on mobile it shows iff the menu is open, and never without the panel |
| Sidebar.LabelsVisible | frontend/components/ui/sidebar.tsx:149 | on mobile the labels always show; on desktop iff the sidebar is expanded |
| Sidebar.TooltipsVisible | frontend/components/ui/sidebar.tsx:153 | on mobile there are no tooltips; on desktop iff the sidebar is collapsed |
| Sidebar.PanelWidth | frontend/components/ui/sidebar.tsx:94 | the width is 80 or 256; on mobile always 256; on desktop 80 iff collapsed |
| Sidebar.RenderItem | frontend/components/ui/sidebar.tsx:129-162 | a link keeps its href and icon; its name shows as a label iff labels are visible and otherwise as a tooltip, never both; it is highlighted iff the path is its href |
| Sidebar.Render | frontend/components/ui/sidebar.tsx:89-199 | the panel is mounted iff `PanelVisible`, the overlay iff `OverlayVisible`, and never the overlay alone; a mounted panel has the animated width, shows brand and user details together iff labels are visible, points its chevron right iff collapsed, and draws all six items |
| Sidebar.LabelsAndTooltipsComplement | frontend/components/ui/sidebar.tsx:108-178 | labels are shown iff tooltips are not |
| Sidebar.WidthFollowsTooltips | frontend/components/ui/sidebar.tsx:94 | the width is 80 or 256, and it is 80 exactly when `collapsed && !isMobile` |
| Sidebar.NavHrefsDistinct | frontend/components/ui/sidebar.tsx:39-70 | the nav hrefs, used as keys, are pairwise distinct |
| Sidebar.ItemsAlwaysNamedOnce | frontend/components/ui/sidebar.tsx:130-157 | every item keeps its href and icon whatever `collapsed` is; its name shows exactly once, as a label or as a tooltip; it is active iff the path equals its href |
| Sidebar.AtMostOneActive | frontend/components/ui/sidebar.tsx:130 | at most one nav item is active |
| Sidebar.NewClaimPathActivatesOnlyNewClaim | frontend/components/ui/sidebar.tsx:130 | matching is exact: `/claims/new` activates "New Claim" and not "Claims" |
| Sidebar.PanelAndOverlay | frontend/components/ui/sidebar.tsx:89-199 | the panel is rendered iff `mobileOpen` or `!isMobile`, the overlay iff `isMobile && mobileOpen`, so the overlay never shows without the panel |
| Sidebar.PanelContents | frontend/components/ui/sidebar.tsx:104-185 | a rendered panel shows brand and user details iff labels are visible; the chevron points right iff collapsed; all six items are drawn |
| Sidebar.SidebarComponent.constructor | frontend/components/ui/sidebar.tsx:28-37 | on mount both flags start false and the effect then collapses a mobile sidebar |
| Sidebar.SidebarComponent.AutoCollapse | frontend/components/ui/sidebar.tsx:33-37 | on mobile, `collapsed` becomes true; on desktop it is left alone |
| Sidebar.SidebarComponent.MediaQueryChanged | frontend/components/ui/sidebar.tsx:29-37 | the effect runs only when `isMobile` changes, so `collapsed` becomes true only on a switch to mobile |
| Sidebar.SidebarComponent.ToggleCollapsed | frontend/components/ui/sidebar.tsx:118 | flips `collapsed`; nothing else changes |
| Sidebar.SidebarComponent.ToggleMobileMenu | frontend/components/ui/sidebar.tsx:78 | flips `mobileOpen`; nothing else changes |
| Sidebar.SidebarComponent.NavLinkClicked | frontend/components/ui/sidebar.tsx:136 | on mobile, closes the menu, which hides panel and overlay; on desktop nothing changes |
| Sidebar.SidebarComponent.OverlayClicked | frontend/components/ui/sidebar.tsx:197 | always closes the menu, which hides the overlay |
| ClaimsList.ToneOf | frontend/app/claims/page.tsx:137-141 | green iff "Approved", yellow iff "Pending", red for every other string |
| ClaimsList.BadgeClass | frontend/app/claims/page.tsx:137-141 | "Approved" gives `bg-green-100 text-green-800`, "Pending" `bg-yellow-100 text-yellow-800`, any other string `bg-red-100 text-red-800`, each in both directions |
| ClaimsList.BadgeFollowsTone | frontend/app/claims/page.tsx:136-182 | the badge is the tone's `bg-<tone>-100 text-<tone>-800` pair |
| ClaimsList.BadgeCases | frontend/app/claims/page.tsx:137-141 | "Approved" is green, "Pending" yellow, and "Rejected" or any unknown string red |
| ClaimsList.IdOfDetailHref | frontend/app/claims/page.tsx:148-203 | only a path under `/claims/` yields an id |
| ClaimsList.DetailHref | frontend/app/claims/page.tsx:148-203 | the link is `/claims/` followed by the id, and the id reads back out of it unchanged |
| ClaimsList.DetailHrefInjective | frontend/app/claims/page.tsx:148-203 | distinct ids give distinct links |
| ClaimsList.RenderTable | frontend/app/claims/page.tsx:121-155 | one row per claim, in array order, keyed by id, with the cells in column order, the status badge and the detail link |
| ClaimsList.RenderCards | frontend/app/claims/page.tsx:162-211 | one card per claim, in array order, keyed by id, with the same badge and detail link |
| ClaimsList.ClaimIdsDistinct | frontend/app/claims/page.tsx:47-56 | the mock claim ids are pairwise distinct |
| ClaimsList.LayoutsAgree | frontend/app/claims/page.tsx:121-211 | for distinct ids, both layouts draw every claim once, in order, with the same key, badge and `/claims/<id>` link, and no two entries share a key or link |
| ClaimsList.MockListRendersEight | frontend/app/claims/page.tsx:47-212 | the mock list draws eight rows and eight cards |
| Dashboard.StatsAddUp | frontend/app/page.tsx:17-22 | every stat value is a digit string; Approved + Pending + Rejected (78 + 32 + 14) equals Total (124) |
| Dashboard.StatusTextCases | frontend/app/page.tsx:167-171 | "Approved" is `text-green-600`, "Pending" `text-yellow-600`, any other string `text-red-600`, the same tone as the claims list's badge |
| Dashboard.StatusTextClass | frontend/app/page.tsx:167-171 | "Approved" gives `text-green-600`, "Pending" `text-yellow-600`, any other string `text-red-600`, each in both directions |
| Dashboard.HasSeparatorAfter | frontend/app/page.tsx:178 | `index < length - 1` holds iff another entry follows; an empty list has no separator, with no natural-number underflow |
| Dashboard.RecentEntry | frontend/app/page.tsx:150-179 | an entry is keyed by its index, shows the claim id, type, amount and status in its status colour, and has a separator iff it is not the last |
| Dashboard.RenderRecentFrom | frontend/app/page.tsx:150-179 | one entry per claim, in order, carrying its index |
| Dashboard.CountAllButLast | frontend/app/page.tsx:178 | entries carrying a separator exactly when another follows draw one separator fewer than there are entries |
| Dashboard.RecentListShape | frontend/app/page.tsx:150-180 | one entry per recent claim in literal order; a separator follows entry `i` iff another comes after it, none follows the last, and `n` entries draw `n - 1` separators (0 for none) |
| Dashboard.RecentClaimsShape | frontend/app/page.tsx:150-180 | the dashboard draws four recent entries with three separators, none after the last |
| Dashboard.RecentClaimsLeadTheClaimsList | frontend/app/page.tsx:24-29 | the recent claims are the first four claims of the claims list, without the claimant |
| Dashboard.ProcessingEntry | frontend/app/page.tsx:116-135 | a row is keyed by its index, shows the item name, fills the bar to the item value, and its text is a number followed by `%` that reads back as that value |
| Dashboard.RenderProcessingFrom | frontend/app/page.tsx:112-136 | one row per processing item, in order |
| Dashboard.PercentAgreesWithBar | frontend/app/page.tsx:112-136 | each row's text is a number followed by `%`; that number reads back as the bar's value, which is the item's value |
| Dashboard.ProcessingRowsShowTheirValue | frontend/app/page.tsx:112-136 | each of the three rows of the dashboard shows as text the percentage its bar is filled to |
| Dashboard.ProcessingValuesArePercentages | frontend/app/page.tsx:112-116 | the literal values lie between 0 and 100 |

## Left out

- The Flask application factory, the JSON route and the WSGI entry point are not part of this model. They wire foreign libraries and do I/O.
- Loading and validating settings from the environment and the `.env` file is not modelled. That is library behaviour. `Config.Settings` holds the values that loading produces, with the defaults of `PGHOST` and `PGPORT` as constants.
- The other settings (secrets, JWT, Celery, Redis, rate limits, security headers, CORS) are left out. Nothing in the URL derivation reads them, and their class-body defaults are evaluated at class-definition time.
- Config.SqlalchemyDatabaseUrl: does not percent-encode credentials, because the source does not either. `Config.UnencodedCredentialsCollide` shows what follows.
- Real time is not modelled. The two timers are pending callbacks that fire as events, in an order the model proves.
- The `console.log` of the submitted data is left out, and it is not modelled that the callback sees the data captured at submit time. That is output only.
- Cancelling the timers on unmount is left out. The page never does it.
- Browser validation beyond non-empty `required` fields is left out: email format, number format, `min` and `step`. The browser does it, not the page.
- The processing-status values are integer literals and are modelled as `int`, not as JavaScript numbers (IEEE doubles). How JSX writes huge or fractional numbers, such as `1e+21`, is not modelled.
- All animations are left out: variants, springs, delays and the initial slide-in offset. They are presentational floating-point values.
- `useMediaQuery` and `usePathname` are inputs (`isMobile`, `pathname`). Their implementations are not part of this model.
- Tooltip, Button, Separator and the other UI components are not modelled. Only what the pages pass them is modelled.
- The search box and the filter and sort buttons of the claims list are left out. They have no handlers.
- Static text, CSS classes other than the status colours, and the icons of the stat cards beyond their identity are left out. They carry no logic.
