# Freelancer CRM pages, modelled in Dafny

This project models the client-side controllers of four pages of the
freelancer CRM web UI. The controllers hold the pages' state and the
handlers that change it. The pages are:

- the **Projects** page, the richest of the four:
  - optimistic field patches with per-record rollback;
  - optimistic delete with a whole-list restore;
  - a non-optimistic create that prepends the server's record;
  - the payment, payment-status and status-toggle editors;
  - the tab and search filter;
  - the overdue rule.
- the **Signup** page:
  - the password regular expression;
  - the strength meter and its label;
  - the guarded submit handler;
  - the choice of the error text shown for a rejected registration.
- the **Invoices** and **Clients** pages: load, then create and prepend, with their guard and reset rules.

Each page is a `class` whose fields are the page's `useState` variables.
Each handler is a `method`. Its frame (`modifies this`field`) names exactly
the state the handler sets. Its postcondition gives the whole new state, on
the success path and on the failure path. The list steps the handlers apply
are pure functions, and lemmas about them state what the handlers promise:

- order preservation;
- id-targeted update;
- exact rollback;
- prepend on create;
- the filter being a sublist.

Modelling conventions:

- **Atomic handlers.** Each handler runs to completion in one step.
- **API outcomes are parameters.** A request's outcome is a `requestOk`
  flag, an `Option` of the returned record, or a `Fetch` value.
- **`new Date()`** becomes a `today` parameter.
- **JavaScript strings.** A Dafny `string` is a sequence of Unicode
  characters, so the JavaScript operations the pages use are modelled
  explicitly in module `JsText`:
  - `.length` counts UTF-16 code units;
  - `.trim()` removes the ECMAScript white-space set;
  - `.toLowerCase()`;
  - `.includes()`;
  - `<` on strings.

Modules, one file each:

| module | models |
|---|---|
| `Common` | `Option`; the order-preserving sublist relation |
| `JsText` | the JavaScript string operations |
| `IsoDates` | `YYYY-MM-DD` dates; string order on them is calendar order |
| `ProjectRecords` | project records, `Partial<Project>` patches, `{...p, ...patch}`, find / patch / restore / remove by id |
| `ProjectViews` | `filteredProjects` and `isOverdue` |
| `ProjectsPage` | the Projects page state and every handler |
| `PasswordRules` | `validatePassword`, `passwordStrengthScore`, `strengthLabel` |
| `SignupErrors` | JSON reply bodies, `String(...)`, `JSON.stringify`, the error-text choice |
| `SignupPage` | the Signup page state, the live hint and `onSubmit` |
| `InvoicesPage` | the Invoices page state, the load and `addInvoice` |
| `ClientsPage` | the Clients page state, the load and `addClient` |

Where the system's design description and the code disagree, the model
follows the code:

- **Clients page errors.** The design says every failure is caught and
  turned into a page error. The Clients page does not do that: its load
  and its `addClient` have no error handling. A rejected request
  therefore changes nothing (`ClientsPage.Page.Load`,
  `ClientsPage.Page.AddClient`).
- **No date sort.** The design describes a sort-by-date view. No page
  implements one, so it is not modelled.
- **Updates for an unknown id.** A field patch, a payment save or a
  payment-status save for an id that is not in the list still sends its
  request (Projects.tsx:125-134, 238-259, 280-292). Nothing is patched
  locally, and a failure has no snapshot to restore, so only the error is
  set (`ProjectsPage.Page.OptimisticPatch`, `ProjectRecords.PatchUnknownId`).
- **One delete confirmation.** The page keeps a single `confirmingDeleteId`,
  not one confirmation per record. Asking to delete a second record moves
  the confirmation there (`ProjectsPage.Page.RequestDelete`).
- **Three project statuses.** The page compares a status only with
  "active" and "completed". The server's field is free text whose comment
  also names "on-hold". `ProjectRecords.Status` therefore has a third value,
  `OnHold`, standing for every other status. Such a project is on neither
  status tab, toggling it makes it "completed", and it can be overdue.

## Model

| member | source | states |
|---|---|---|
| Common.SubsequenceLength | freelancer-crm-ui/src/pages/Projects.tsx:197 | a sublist is never longer than the list |
| Common.SubsequenceMembers | freelancer-crm-ui/src/pages/Projects.tsx:197 | every member of a sublist is a member of the list |
| JsText.JsLength | freelancer-crm-ui/src/pages/Signup.tsx:19-20 | `.length` counts UTF-16 code units: between one and two per character |
| JsText.JsLengthOfBmp | freelancer-crm-ui/src/pages/Signup.tsx:19-20 | on Basic Multilingual Plane text `.length` is the number of characters |
| JsText.SkipLeading | freelancer-crm-ui/src/pages/Signup.tsx:63 | the white space at the start: everything skipped is white space and the next character is not |
| JsText.SkipTrailing | freelancer-crm-ui/src/pages/Signup.tsx:63 | the white space at the end, not crossing the start: everything skipped is white space and the character before it is not |
| JsText.Trim | freelancer-crm-ui/src/pages/Signup.tsx:63 | `.trim()`: the text between the leading and the trailing ECMAScript white space (what it keeps is stated by the three lemmas below) |
| JsText.TrimIsMiddle | freelancer-crm-ui/src/pages/Signup.tsx:63 | `trim()` keeps a contiguous middle part with non-white ends and only white space outside it |
| JsText.TrimEmptyIff | freelancer-crm-ui/src/pages/Signup.tsx:63-66 | `!s.trim()` holds exactly when `s` is all white space |
| JsText.TrimIdempotent | freelancer-crm-ui/src/pages/Signup.tsx:77-81 | trimming twice is trimming once |
| JsText.ToLower | freelancer-crm-ui/src/pages/Projects.tsx:212-213 | same length; each character is lower-cased on its own |
| JsText.ToLowerIdempotent | freelancer-crm-ui/src/pages/Projects.tsx:212-213 | lower-casing twice is lower-casing once |
| JsText.Includes | freelancer-crm-ui/src/pages/Projects.tsx:212-213 | `includes` holds exactly when the text occurs at some position |
| JsText.IncludesEmpty | freelancer-crm-ui/src/pages/Projects.tsx:212-213 | every string includes the empty string |
| JsText.StrLess | freelancer-crm-ui/src/pages/Projects.tsx:119 | `a < b` on strings: the first differing character decides, and a proper prefix comes first (its order properties are the two lemmas below) |
| JsText.StrLessIrreflexive | freelancer-crm-ui/src/pages/Projects.tsx:119 | `<` on strings is irreflexive |
| JsText.StrLessTransitive | freelancer-crm-ui/src/pages/Projects.tsx:119 | `<` on strings is transitive |
| IsoDates.DigitStringOrder | freelancer-crm-ui/src/pages/Projects.tsx:118-119 | for same-length digit strings, string order and equality are numeric order and equality |
| IsoDates.IsoStringOrderIsDateOrder | freelancer-crm-ui/src/pages/Projects.tsx:118-119 | two `YYYY-MM-DD` strings compare as strings exactly as their dates compare on the calendar |
| ProjectRecords.Merge | freelancer-crm-ui/src/pages/Projects.tsx:131 | the spread of a patch never changes the record's id |
| ProjectRecords.MergeEmpty | freelancer-crm-ui/src/pages/Projects.tsx:131 | an empty patch changes nothing |
| ProjectRecords.MergeIdempotent | freelancer-crm-ui/src/pages/Projects.tsx:131 | applying a patch twice is applying it once |
| ProjectRecords.MergeThen | freelancer-crm-ui/src/pages/Projects.tsx:131 | two patches in a row equal their combination: the last write to each key wins |
| ProjectRecords.StatusPatch | freelancer-crm-ui/src/pages/Projects.tsx:315 | `{ status: newStatus }`: a patch holding only the status key |
| ProjectRecords.PaymentPatch | freelancer-crm-ui/src/pages/Projects.tsx:246-250 | `{ payment_amount: amount ?? undefined, payment_currency: currency }`: a patch holding only the two payment keys |
| ProjectRecords.PaymentStatusPatch | freelancer-crm-ui/src/pages/Projects.tsx:283-287 | `{ payment_status: value }`: a patch holding only the payment-status key |
| ProjectRecords.FindById | freelancer-crm-ui/src/pages/Projects.tsx:129 | `find` returns nothing exactly when no record has the id; otherwise it returns the first record with it |
| ProjectRecords.PatchById | freelancer-crm-ui/src/pages/Projects.tsx:130-132 | same length and order; every record with the id is merged with the patch; every other record is unchanged |
| ProjectRecords.ReplaceById | freelancer-crm-ui/src/pages/Projects.tsx:139-141 | same length and order; every record with the id becomes the snapshot; the others are unchanged |
| ProjectRecords.Restore | freelancer-crm-ui/src/pages/Projects.tsx:138-142 | the rollback: with a snapshot, every record with the id becomes the snapshot; without one, the list stays (`RollbackRestores` proves it undoes the patch) |
| ProjectRecords.RemoveById | freelancer-crm-ui/src/pages/Projects.tsx:151 | exactly the records with other ids remain, in their original relative order, and the id is absent |
| ProjectRecords.RemoveKeepsMultiplicity | freelancer-crm-ui/src/pages/Projects.tsx:151 | every record with another id keeps its number of copies, and no copy of a record with the id remains |
| ProjectRecords.PatchUnknownId | freelancer-crm-ui/src/pages/Projects.tsx:130-132 | patching an id that is not in the list leaves the list unchanged |
| ProjectRecords.RemoveUnknownId | freelancer-crm-ui/src/pages/Projects.tsx:151 | removing an id that is not in the list leaves the list unchanged |
| ProjectRecords.PatchKeepsIds | freelancer-crm-ui/src/pages/Projects.tsx:130-132 | a patch leaves every position's id as it was |
| ProjectRecords.RollbackRestores | freelancer-crm-ui/src/pages/Projects.tsx:129-142 | with unique ids, restoring the snapshot after the optimistic patch gives back exactly the original list |
| ProjectRecords.PatchTwice | freelancer-crm-ui/src/pages/Projects.tsx:130-132 | two patches of one id equal one patch with their combination |
| ProjectRecords.PatchKeepsUnique | freelancer-crm-ui/src/pages/Projects.tsx:130-132 | a patch keeps ids unique |
| ProjectRecords.RemoveKeepsUnique | freelancer-crm-ui/src/pages/Projects.tsx:151 | a delete keeps ids unique |
| ProjectRecords.PrependKeepsUnique | freelancer-crm-ui/src/pages/Projects.tsx:179 | prepending a record with a new id keeps ids unique |
| ProjectRecords.FindFirst | freelancer-crm-ui/src/pages/Projects.tsx:129 | `find` returns the record at the first index holding the id |
| ProjectRecords.FindAfterPatch | freelancer-crm-ui/src/pages/Projects.tsx:129-132 | after a patch, the record found under the id is the old one merged with the patch; nothing is found when the id was absent |
| ProjectViews.ClientNameOf | freelancer-crm-ui/src/pages/Projects.tsx:210 | the name of the first client with that id; an unknown client gives "" |
| ProjectViews.MatchesTab | freelancer-crm-ui/src/pages/Projects.tsx:199-207 | the tab test: "all" keeps everything, "active" and "completed" compare the status, "outstanding" keeps unpaid and partial payment statuses |
| ProjectViews.MatchesSearch | freelancer-crm-ui/src/pages/Projects.tsx:209-213 | the search test: the lower-cased search occurs in the lower-cased title or in the lower-cased joined client name |
| ProjectViews.Shown | freelancer-crm-ui/src/pages/Projects.tsx:197-215 | a record is listed when it passes both tests |
| ProjectViews.FilterProjects | freelancer-crm-ui/src/pages/Projects.tsx:197-215 | an order-preserving sublist holding exactly the records that pass the tab test and the search test |
| ProjectViews.FilterKeepsMultiplicity | freelancer-crm-ui/src/pages/Projects.tsx:197-215 | every shown record keeps its number of copies, and no copy of any other record remains |
| ProjectViews.EmptySearchMatches | freelancer-crm-ui/src/pages/Projects.tsx:211-213 | the empty search matches every record |
| ProjectViews.AllTabShowsEverything | freelancer-crm-ui/src/pages/Projects.tsx:199-200 | the "all" tab with an empty search shows the whole list in order |
| ProjectViews.SearchIgnoresCase | freelancer-crm-ui/src/pages/Projects.tsx:212-213 | two searches with the same lower-case form show the same list |
| ProjectViews.StatusTabsPartition | freelancer-crm-ui/src/pages/Projects.tsx:201-204 | the "active" and "completed" lists together are never longer than the "all" list, and exactly as long when no project is on hold |
| ProjectViews.OnHoldOnlyOnAllTab | freelancer-crm-ui/src/pages/Projects.tsx:199-204 | an on-hold project is on neither status tab; on the "all" tab the search alone decides |
| ProjectViews.OutstandingExcludesPaid | freelancer-crm-ui/src/pages/Projects.tsx:205-207 | the "outstanding" tab shows only unpaid or partial projects |
| ProjectViews.AcmeSearchFindsClient | freelancer-crm-ui/src/pages/Projects.tsx:210-213 | searching "acme" finds a project through its joined client name "Acme Inc." |
| ProjectViews.IsOverdue | freelancer-crm-ui/src/pages/Projects.tsx:116-120 | overdue only when not completed, with a non-empty due date; never on the due day itself |
| ProjectViews.OverdueIsCalendarOrder | freelancer-crm-ui/src/pages/Projects.tsx:116-120 | for ISO dates: overdue exactly when not completed and the due day lies before today on the calendar |
| ProjectsPage.CreatePayload | freelancer-crm-ui/src/pages/Projects.tsx:167-177 | status is always active; an empty start date becomes today; an empty due date becomes null; other fields are copied from the form |
| ProjectsPage.DraftOf | freelancer-crm-ui/src/pages/Projects.tsx:224-227 | the draft amount is "" exactly when the project has none; the currency defaults to "USD" |
| ProjectsPage.PaymentRequest | freelancer-crm-ui/src/pages/Projects.tsx:241-242 | the amount is null exactly when the draft amount is empty; the currency is never empty and defaults to "USD" |
| ProjectsPage.UneditedPaymentRoundTrip | freelancer-crm-ui/src/pages/Projects.tsx:220-252 | opening and saving the payment editor untouched writes back the project's own amount and currency; a missing or empty currency becomes "USD" |
| ProjectsPage.Toggled | freelancer-crm-ui/src/pages/Projects.tsx:313 | the toggled status always differs and is never on hold; it is "active" exactly for a completed project |
| ProjectsPage.ToggleTwice | freelancer-crm-ui/src/pages/Projects.tsx:313 | toggling twice gives back the status exactly when it was not on hold; an on-hold project ends up active |
| ProjectsPage.ToggleSwapsStatus | freelancer-crm-ui/src/pages/Projects.tsx:311-315 | after the toggle's patch, the record carries the swapped status and every other field as before |
| ProjectsPage.Page.constructor | freelancer-crm-ui/src/pages/Projects.tsx:34-80 | the initial state: empty lists, loading, blank form, "all" tab, no editor open |
| ProjectsPage.Page.Visible | freelancer-crm-ui/src/pages/Projects.tsx:197-215 | the rendered list is a sublist of `projects` |
| ProjectsPage.Page.Load | freelancer-crm-ui/src/pages/Projects.tsx:83-99 | both lists are set, a missing body counting as empty, only when both requests succeed; otherwise the lists stay and the load error is set; loading ends false either way |
| ProjectsPage.Page.SelectTab | freelancer-crm-ui/src/pages/Projects.tsx:487 | sets the tab |
| ProjectsPage.Page.EditSearch | freelancer-crm-ui/src/pages/Projects.tsx:509 | sets the search text |
| ProjectsPage.Page.PatchProjectField | freelancer-crm-ui/src/pages/Projects.tsx:125-146 | returns the request outcome. On success the list is the id-targeted patch. On failure the snapshot goes back, the error is "Failed to update project." and, with unique ids, the list is exactly as before |
| ProjectsPage.Page.OptimisticPatch | freelancer-crm-ui/src/pages/Projects.tsx:129-145 | the update pattern the page's handlers share: the patch applies at once; on failure the snapshot goes back, the given error is set and, with unique ids, the list is exactly as before |
| ProjectsPage.Page.RequestDelete | freelancer-crm-ui/src/pages/Projects.tsx:736 | opens the delete confirmation for that id |
| ProjectsPage.Page.CancelDelete | freelancer-crm-ui/src/pages/Projects.tsx:752 | closes the delete confirmation |
| ProjectsPage.Page.PerformDelete | freelancer-crm-ui/src/pages/Projects.tsx:149-160 | the confirmation closes. On success the list is the id filtered out. On failure it is the exact pre-delete list and the error is "Failed to delete project." |
| ProjectsPage.Page.OpenAddForm | freelancer-crm-ui/src/pages/Projects.tsx:325 | opens the create form |
| ProjectsPage.Page.CloseAddForm | freelancer-crm-ui/src/pages/Projects.tsx:470 | closes the create form |
| ProjectsPage.Page.AddProject | freelancer-crm-ui/src/pages/Projects.tsx:163-194 | sends the create payload of the form. On success: server record first, the rest in order, form closed and reset, error cleared. On failure: list, form and `adding` unchanged, error "Could not create project." |
| ProjectsPage.Page.StartEditPayment | freelancer-crm-ui/src/pages/Projects.tsx:220-229 | opens the payment editor on the project and stores its draft, leaving other drafts alone |
| ProjectsPage.Page.EditPaymentAmount | freelancer-crm-ui/src/pages/Projects.tsx:674-684 | sets this project's draft amount, starting from the default draft; other drafts are unchanged |
| ProjectsPage.Page.EditPaymentCurrency | freelancer-crm-ui/src/pages/Projects.tsx:687-697 | sets this project's draft currency, starting from the default draft; other drafts are unchanged |
| ProjectsPage.Page.CancelEditPayment | freelancer-crm-ui/src/pages/Projects.tsx:230-237 | closes the editor only if it is open on this project, and drops exactly this project's draft |
| ProjectsPage.Page.SaveEditPayment | freelancer-crm-ui/src/pages/Projects.tsx:238-269 | nothing happens without a draft. Otherwise it sends the converted draft, applies it locally, drops the draft and closes the editor. A failure restores the snapshot (exactly the old list with unique ids) and sets "Failed to update payment." |
| ProjectsPage.Page.StartEditPaymentStatus | freelancer-crm-ui/src/pages/Projects.tsx:272-275 | opens the status editor with the project's payment status, defaulting to "unpaid" |
| ProjectsPage.Page.ChoosePaymentStatus | freelancer-crm-ui/src/pages/Projects.tsx:603-607 | sets the chosen payment status |
| ProjectsPage.Page.CancelEditPaymentStatus | freelancer-crm-ui/src/pages/Projects.tsx:276-279 | closes the status editor and clears its value |
| ProjectsPage.Page.SaveEditPaymentStatus | freelancer-crm-ui/src/pages/Projects.tsx:280-303 | nothing happens without a chosen value. Otherwise it sends the value, applies it locally and closes the editor. A failure restores the snapshot (exactly the old list with unique ids) and sets "Failed to update payment status." |
| ProjectsPage.Page.StartToggleStatusConfirm | freelancer-crm-ui/src/pages/Projects.tsx:306-308 | opens the toggle confirmation for that project |
| ProjectsPage.Page.CancelToggleStatusConfirm | freelancer-crm-ui/src/pages/Projects.tsx:309 | closes the toggle confirmation |
| ProjectsPage.Page.ConfirmToggleStatus | freelancer-crm-ui/src/pages/Projects.tsx:310-316 | an unknown id changes nothing, and the confirmation stays. Otherwise the confirmation closes and the swapped status goes through the optimistic patch, with its rollback and error |
| PasswordRules.InClass | freelancer-crm-ui/src/pages/Signup.tsx:11 | the classes `[a-z]`, `[A-Z]` and `[\d\W]`; the last is everything but ASCII letters and `_`, including each surrogate of a character outside the Basic Multilingual Plane |
| PasswordRules.Lookahead | freelancer-crm-ui/src/pages/Signup.tsx:11 | `(?=.*[k])` at the start: a class member follows a run of characters that are not line terminators (`LookaheadOnOneLine` ties it to `HasClass`) |
| PasswordRules.DotsToEnd | freelancer-crm-ui/src/pages/Signup.tsx:11 | `.{8,}$`: at least eight code units, none a line terminator |
| PasswordRules.HasClass | freelancer-crm-ui/src/pages/Signup.tsx:21-22 | `/[a-z]/.test` and `/[A-Z]/.test`: some character of the class occurs |
| PasswordRules.LookaheadOnOneLine | freelancer-crm-ui/src/pages/Signup.tsx:11 | on text without line terminators, the lookahead `(?=.*[k])` succeeds exactly when a class member occurs |
| PasswordRules.ValidatePassword | freelancer-crm-ui/src/pages/Signup.tsx:10-13 | holds exactly when: at least 8 code units, no line terminator, a lower-case letter, an upper-case letter, and a digit or symbol |
| PasswordRules.ShortPasswordRejected | freelancer-crm-ui/src/pages/Signup.tsx:11 | under 8 characters, all in the Basic Multilingual Plane, are rejected |
| PasswordRules.AstralCharactersCountTwice | freelancer-crm-ui/src/pages/Signup.tsx:11 | five characters pass when three of them lie outside the Basic Multilingual Plane |
| PasswordRules.LineBreakRejected | freelancer-crm-ui/src/pages/Signup.tsx:11 | a line break counts as the symbol but still makes the password invalid |
| PasswordRules.LongMixedPasswordAccepted | freelancer-crm-ui/src/pages/Signup.tsx:11 | eight or more characters on one line, with a lower-case letter, an upper-case letter and a digit or symbol, are accepted, in any plane |
| PasswordRules.LettersOnlyRejected | freelancer-crm-ui/src/pages/Signup.tsx:11-36 | letters alone are always rejected, yet the meter says "Strong" once there are twelve of both cases |
| PasswordRules.StrengthScore | freelancer-crm-ui/src/pages/Signup.tsx:16-24 | the score lies in 0..4 and is 0 for the empty password |
| PasswordRules.PasswordStrengthScore | freelancer-crm-ui/src/pages/Signup.tsx:16-24 | the step-by-step accumulation computes `StrengthScore` and stays in 0..4 |
| PasswordRules.ScoreIsUncappedSum | freelancer-crm-ui/src/pages/Signup.tsx:19-23 | for a non-empty password the score is [length ≥ 8] + [length ≥ 12] + [has a-z] + [has A-Z]; the cap never applies |
| PasswordRules.StrengthLabel | freelancer-crm-ui/src/pages/Signup.tsx:26-40 | "" exactly outside 0..4; "Weak" exactly for 0 and 1; "Fair" exactly for 2; "Good" exactly for 3; "Strong" exactly for 4 |
| PasswordRules.EveryScoreHasLabel | freelancer-crm-ui/src/pages/Signup.tsx:54-55 | every score the meter computes has a non-empty label |
| PasswordRules.ValidPasswordIsGoodOrStrong | freelancer-crm-ui/src/pages/Signup.tsx:10-40 | a password the rule accepts scores at least 3, that is "Good" or "Strong" |
| SignupErrors.Truthy | freelancer-crm-ui/src/pages/Signup.tsx:98-108 | JavaScript truthiness: `null`, `false`, `0` and `""` are falsy; arrays and objects are truthy |
| SignupErrors.Text | freelancer-crm-ui/src/pages/Signup.tsx:104-108 | `String(v)`: arrays join their items with commas, a null item counting as empty; every object is `[object Object]` |
| SignupErrors.NatText | freelancer-crm-ui/src/pages/Signup.tsx:104-108 | `String(n)`: digits without leading zeros whose decimal value is `n` |
| SignupErrors.IntText | freelancer-crm-ui/src/pages/Signup.tsx:104-108 | `String(n)` for integers: a minus sign before the digits of a negative number |
| SignupErrors.TruthyTextNonEmpty | freelancer-crm-ui/src/pages/Signup.tsx:102-108 | a truthy value that is not an array has non-empty `String(...)` text |
| SignupErrors.EscapeChar | freelancer-crm-ui/src/pages/Signup.tsx:112 | `JSON.stringify`'s escape of one character is non-empty and has no control character |
| SignupErrors.Escape | freelancer-crm-ui/src/pages/Signup.tsx:112 | an escaped string has no control character |
| SignupErrors.EscapeRoundTrip | freelancer-crm-ui/src/pages/Signup.tsx:112 | an escaped string reads back as the original |
| SignupErrors.EscapePlainText | freelancer-crm-ui/src/pages/Signup.tsx:112 | text without quote, backslash or control characters is written unchanged |
| SignupErrors.Quote | freelancer-crm-ui/src/pages/Signup.tsx:112 | a JSON string literal: the escaped text between double quotes |
| SignupErrors.Stringify | freelancer-crm-ui/src/pages/Signup.tsx:109-115 | the JSON text of a value is never empty |
| SignupErrors.Prop | freelancer-crm-ui/src/pages/Signup.tsx:102-107 | `resp.key` is the value of the first property with that key of an object; it is undefined on a non-object or a missing key |
| SignupErrors.FieldOf | freelancer-crm-ui/src/pages/Signup.tsx:102-107 | the property lookup gives the value of the first field with that key, or none when no field has it |
| SignupErrors.FieldText | freelancer-crm-ui/src/pages/Signup.tsx:104-106 | `Array.isArray(x) ? String(x[0]) : String(x)`; the first item of an empty array is `undefined` |
| SignupErrors.ErrorMessage | freelancer-crm-ui/src/pages/Signup.tsx:96-116 | no body or a falsy body gives the generic message; a string body is shown as is; a truthy body that is neither string nor object is shown as its JSON text |
| SignupErrors.UsernameErrorWins | freelancer-crm-ui/src/pages/Signup.tsx:102-104 | a truthy `username` field decides the message, whatever else the body holds |
| SignupErrors.PasswordErrorNext | freelancer-crm-ui/src/pages/Signup.tsx:105-106 | without a `username` error a truthy `password` field decides the message |
| SignupErrors.DetailNext | freelancer-crm-ui/src/pages/Signup.tsx:107-108 | `detail` is third in priority and shown as its `String(...)` text |
| SignupErrors.OtherObjectAsJson | freelancer-crm-ui/src/pages/Signup.tsx:109-115 | any other object body is shown as its JSON text |
| SignupErrors.FieldErrorShownVerbatim | freelancer-crm-ui/src/pages/Signup.tsx:102-104 | a `username` error list shows its first message verbatim |
| SignupErrors.PasswordListShownVerbatim | freelancer-crm-ui/src/pages/Signup.tsx:105-106 | a `password` error list shows its first message verbatim when the body has no `username` key |
| SignupErrors.EmptyMessageOnlyFromArrays | freelancer-crm-ui/src/pages/Signup.tsx:96-116 | an empty message arises only from an object body with an array-valued field |
| SignupErrors.EmptyFirstItemGivesEmptyMessage | freelancer-crm-ui/src/pages/Signup.tsx:102-104 | `{"username": [""]}` does give an empty message |
| SignupErrors.EmptyArrayShowsUndefined | freelancer-crm-ui/src/pages/Signup.tsx:102-104 | `{"username": []}` shows "undefined" |
| SignupPage.NullIfEmpty | freelancer-crm-ui/src/pages/Signup.tsx:77 | the `or null` fallback gives null exactly for the empty string |
| SignupPage.LiveHint | freelancer-crm-ui/src/pages/Signup.tsx:160-164 | the hint is set exactly when the value is non-empty and invalid, and cleared otherwise |
| SignupPage.SubmitGuard | freelancer-crm-ui/src/pages/Signup.tsx:62-72 | an empty trimmed username stops the submission whatever the password; otherwise an invalid password stops it; otherwise the trimmed, non-empty name goes ahead |
| SignupPage.BlankUsernameRefused | freelancer-crm-ui/src/pages/Signup.tsx:62-66 | a username made only of white space is refused like an empty one |
| SignupPage.TryRegister | freelancer-crm-ui/src/pages/Signup.tsx:74-116 | the trimmed name is sent, never null; a login follows exactly a successful registration; "/" is reached exactly when both succeed; "/login" with the login-failed text exactly when only the login fails; a rejection stays on the page with `ErrorMessage` of the reply |
| SignupPage.Page.constructor | freelancer-crm-ui/src/pages/Signup.tsx:43-50 | the initial state: empty fields, no error, no hint, not loading |
| SignupPage.Page.EditUsername | freelancer-crm-ui/src/pages/Signup.tsx:139 | sets the username |
| SignupPage.Page.OnPasswordInput | freelancer-crm-ui/src/pages/Signup.tsx:156-165 | stores the value and sets the live hint for it |
| SignupPage.Page.ToggleShowPassword | freelancer-crm-ui/src/pages/Signup.tsx:174 | flips the show-password flag |
| SignupPage.Page.OnSubmit | freelancer-crm-ui/src/pages/Signup.tsx:57-120 | the guards of `SubmitGuard` decide on the state as it was; the rest is `Submit` (details below the table) |
| SignupPage.Page.Submit | freelancer-crm-ui/src/pages/Signup.tsx:59-119 | error and hint are cleared; a blank username sets "Username is required.", a weak password sets the hint, neither sends anything nor touches `loading`; otherwise the outcome is `TryRegister`'s and `loading` ends false |
| SignupPage.Page.RegisterAndLogIn | freelancer-crm-ui/src/pages/Signup.tsx:74-119 | the request, login, navigation and error are those of `TryRegister`, and `loading` ends false |
| InvoicesPage.Page.constructor | freelancer-crm-ui/src/pages/Invoices.tsx:17-24 | the initial state: empty lists, loading, blank form |
| InvoicesPage.Page.Load | freelancer-crm-ui/src/pages/Invoices.tsx:26-41 | both lists are set only when both requests succeed; any failure keeps them and sets "Failed to load invoices or clients."; loading ends false either way |
| InvoicesPage.Page.OpenAddForm | freelancer-crm-ui/src/pages/Invoices.tsx:61 | opens the create form |
| InvoicesPage.Page.CloseAddForm | freelancer-crm-ui/src/pages/Invoices.tsx:121 | closes the create form |
| InvoicesPage.Page.AddInvoice | freelancer-crm-ui/src/pages/Invoices.tsx:43-54 | the error is cleared and the form posted as it is. Success: new invoice first, the rest in order, form closed and reset to "", 0, "0.00", draft, "". Failure: list, form and `adding` unchanged, error "Could not create invoice. Check your inputs." |
| ClientsPage.Page.constructor | freelancer-crm-ui/src/pages/Clients.tsx:22-26 | the initial state: empty list and fields, phone invalid |
| ClientsPage.Page.Load | freelancer-crm-ui/src/pages/Clients.tsx:28-30 | the list becomes the response data; a rejected request changes nothing |
| ClientsPage.Page.EditName | freelancer-crm-ui/src/pages/Clients.tsx:67 | sets the name |
| ClientsPage.Page.EditCompany | freelancer-crm-ui/src/pages/Clients.tsx:87 | sets the company |
| ClientsPage.Page.OnPhoneChange | freelancer-crm-ui/src/pages/Clients.tsx:74-78 | sets the phone text and its validity as the phone widget reports them |
| ClientsPage.Page.AddClient | freelancer-crm-ui/src/pages/Clients.tsx:32-43 | an invalid phone means no request and no change. Otherwise it posts exactly name, phone and company. Success: new client first, length one more, the four fields reset. A rejected post changes nothing |

`SignupPage.Page.OnSubmit` in detail:

1. A username that is empty after trimming sets "Username is required." This check comes before the password check, and nothing is sent.
2. An invalid password sets the hint, and nothing is sent.
3. Otherwise the trimmed username (never null there) and the password are registered.
4. After a successful registration the page logs in with the same credentials, then:
   - navigates to "/" when the login succeeds;
   - otherwise sets the login-failed message and navigates to "/login".
5. A rejected registration sets `ErrorMessage` of the reply body.
6. `loading` ends false.

Two constants have no contract of their own. Each is the blank create form
a page starts with and returns to after a successful create:

- `ProjectsPage.BlankForm`: Projects.tsx:39-47 and 181-189;
- `InvoicesPage.BlankForm`: Invoices.tsx:22-24 and 50.

## Left out

- Rendering: the JSX markup, CSS classes, the badges, the modal and
  confirm widgets, `formatMoney` (it uses `Intl.NumberFormat` and floating
  point), and the meter's `—` placeholder and bar width.
- The backend is not modelled: the Django models, serializers, views and
  URL configuration. Its tests are not modelled either.
- The login page, `App.tsx`, `main.tsx` and the landing page are not part of
  this model. The same goes for the `api` client, `login` from the auth
  module and the `PhoneInput` widget. Their outcomes appear only as method
  parameters.
- Concurrency: each handler runs atomically. Out-of-order responses, and
  React's stale closures and batched updates, are not modelled.
- Amounts are decimal text, not numbers. `Number(...)` parsing, `NaN` and
  the `String(Number(...))` round trip are taken to be the identity.
- The Invoices form's per-field `onChange` setters are not modelled: the
  form is posted as it stands.
- `JsText.ToLower`: only ASCII letters are lower-cased. JavaScript's full
  Unicode case mapping is not modelled.
- `JsText.StrLess`: compares Unicode scalar values, so it agrees with
  JavaScript's code-unit order only on Basic Multilingual Plane text.
  Lone surrogates cannot occur in a Dafny string.
- `SignupErrors.Stringify`: numbers are integers. Duplicate keys, which
  `JSON.parse` resolves to the last value, are not modelled: an object
  holds one property per key. The properties are taken to be listed in
  JavaScript's property enumeration order already. That order puts
  integer-like keys first, in ascending order; the parser that produces it
  is not modelled.
- `ProjectsPage.Page.AddProject`, `InvoicesPage.Page.AddInvoice`,
  `ClientsPage.Page.AddClient`, `SignupPage.Page.OnSubmit`: the browser's
  `required` check is not modelled. The forms mark the project's title and
  client (Projects.tsx:356, 368), the invoice's number and client
  (Invoices.tsx:77, 85), the client's name (Clients.tsx:68) and the
  username and password (Signup.tsx:141, 167) as required. The model runs
  these handlers even when such a field is empty, where the browser would
  not submit the form.
- Logging: the `console.error` calls (Projects.tsx:93, 137, 156, 191, 261,
  295; Signup.tsx:87, 93) are output only and are not modelled.
- `ProjectRecords.Patch` has no `id` key: no handler patches an id.
- `ProjectsPage.Page.PatchProjectField`: exact rollback is stated only for
  lists with unique ids. With duplicate ids, the code copies the first
  match's snapshot onto every record with that id. The model follows that
  (`Restore`), and the lemma assumes unique ids.
- `IsoDates.DateBefore` compares year, month and day. It does not check
  that the date exists in the calendar. `today` is a parameter, so the UTC
  day that `toISOString` yields is not modelled.
