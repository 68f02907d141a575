# Civiconnect core, modelled in Dafny

Civiconnect is a civic-issue reporting web app. Residents report problems, the app lists the reports, and a phone number is confirmed with a one-time passcode. This project models the parts of it that hold state or make decisions, and proves what they promise:

- **The one-time-passcode store** (`otp_store.dfy`). A process-wide map holds, for each phone number, its current six-digit code, its expiry instant (five minutes after issuance) and a count of wrong guesses. Issuing a code overwrites the entry. Verifying is a five-way decision: no entry, expired, three wrong guesses already made, right code, wrong code. Every outcome but a wrong code deletes the entry. The pure functions `Issued`, `Verify` and `CanRequest` say what one call does. The class `Store` changes its `entries` map in place, and each method is proved to do what its function says. The store keeps the invariant that no entry has more than three attempts.
- **The two HTTP routes** (`otp_routes.dfy`). `POST /api/send-otp` checks that the phone number is 10 to 15 ASCII digits, then issues `100000 + r` as the code. `POST /api/verify-otp` checks the phone number, then checks that the code is six ASCII digits, then asks the store and maps its verdict to status 200 or 400.
- **The session state** (`auth_context.dfy`). `isVerified` (unknown, false or true) and the phone number are mirrored into browser storage, modelled as a `map<string, string>`. The proofs show when state and storage agree, so that a reload gives back the same session.
- **Route gating** (`app_structure.dfy`). A pure decision from the verification state and the path to a redirect target and a layout.
- **Dashboard pagination** (`dashboard.dfy`, with the record types in `issue_types.dfy`). The reports are sorted newest first and shown three per page. Placeholder images are swapped for generated ones. The invariant is that the shown list is the sorted list's first pages.
- **The issue-submission action** (`report_issue.dfy`). It validates the description (at least ten characters) and answers with `temp-issue-<now>` or an error.

`decimal.dfy` prints a non-negative integer in decimal, as `toString()` and template literals do, and proves that the printed text reads back to the same number. `wrappers.dfy` holds the `Option` type.

The clock (`Date.now()`) is an integer parameter `now`. The random draw is an integer `r` with `0 <= r < 900000`, standing for `floor(Math.random() * 900000)`. A JSON body field or form field is `None` when it is missing or null; for the JSON bodies, `None` also covers a value that is not a string. The image generator is a function parameter from a hint to an optional URI.

Two behaviours of the app are worth knowing:
- Calling `setPhoneNumber("")` keeps `""` in state but removes the storage key, so a reload gives no number (stated by `SetPhoneNumber`'s contract). Every other update keeps state and storage in agreement.
- With no reports at all, the first-page effect never runs and `hasMore` stays true until the first "load more". Once the first page has been shown, `Paged()` holds. From then on, the empty-slice branch of `handleLoadMore` cannot be reached, because `hasMore` is false exactly when nothing is left.

## Model

| member | source | states |
|---|---|---|
| Decimal.FromNat | src/app/api/send-otp/route.ts:20 | the decimal text of a number is digits only, with a leading zero only for zero |
| Decimal.ToNatFromNat | src/app/api/send-otp/route.ts:20 | reading the printed digits back gives the printed number (round trip) |
| Decimal.SixDigits | src/app/api/send-otp/route.ts:20 | every number from 100000 to 999999 prints as six digits with no leading zero |
| OtpStore.InvalidOtpMessage | src/lib/otpStore.ts:44-45 | the wrong-code message is "Invalid OTP. ", then digits that read back as the number of attempts left, then " attempts remaining." |
| OtpStore.Issued | src/lib/otpStore.ts:16-17 | after issuance the number's entry is exactly (code, now + 300000, 0); other numbers' entries are untouched |
| OtpStore.Verify | src/lib/otpStore.ts:21-47 | a verification never touches the entries of other numbers |
| OtpStore.CanRequest | src/lib/otpStore.ts:49-60 | the cooldown check never touches the entries of other numbers |
| OtpStore.VerifyWithoutEntry | src/lib/otpStore.ts:22-26 | with no entry the call fails with "No OTP found..." and the store is unchanged |
| OtpStore.VerifyExpired | src/lib/otpStore.ts:28-31 | past the expiry instant the entry is deleted and the call fails, whatever the code or attempt count |
| OtpStore.LiveAtExpiryInstant | src/lib/otpStore.ts:28 | at the expiry instant itself the right code still succeeds |
| OtpStore.VerifyExhausted | src/lib/otpStore.ts:33-36 | a live entry with three attempts is deleted and the call fails, even with the right code |
| OtpStore.VerifyMatch | src/lib/otpStore.ts:38-40 | the right code on a live, non-exhausted entry succeeds and deletes the entry |
| OtpStore.VerifyWrongCode | src/lib/otpStore.ts:41-45 | a wrong code adds exactly one attempt, keeps code and expiry, and reports 3 - attempts remaining |
| OtpStore.VerifySucceedsIff | src/lib/otpStore.ts:21-47 | success holds exactly when a live entry with fewer than three attempts holds the submitted code |
| OtpStore.VerifyTerminalOutcomes | src/lib/otpStore.ts:28-43 | the entry survives a verification exactly when the entry is live, not exhausted, and the code is wrong |
| OtpStore.IssuedKeepsBound | src/lib/otpStore.ts:14-17 | issuance keeps every entry at three attempts or fewer |
| OtpStore.VerifyKeepsBound | src/lib/otpStore.ts:33-43 | verification keeps every entry at three attempts or fewer |
| OtpStore.CanRequestKeepsBound | src/lib/otpStore.ts:49-60 | the cooldown check keeps every entry at three attempts or fewer |
| OtpStore.ApplyKeepsBound | src/lib/otpStore.ts:12-60 | any single store call keeps the attempt bound |
| OtpStore.ReplayKeepsBound | src/lib/otpStore.ts:33-43 | after any sequence of store calls, no entry has more than three attempts |
| OtpStore.CanRequestCases | src/lib/otpStore.ts:49-60 | true with no entry; true and the entry deleted when expired; false with a live entry left untouched |
| OtpStore.IssueThenVerifyTwice | src/lib/otpStore.ts:16-40 | a fresh code verifies once within five minutes; the next verification finds no entry |
| OtpStore.ThreeWrongCodesExhaust | src/lib/otpStore.ts:33-45 | three wrong codes are answered with the message for 2, then 1, then 0 attempts remaining; the fourth call fails as exhausted even with the right code, and the entry is gone |
| OtpStore.FirstWrongCodeMessage | src/lib/otpStore.ts:44-45 | the first wrong code of a fresh entry is answered "Invalid OTP. 2 attempts remaining." |
| OtpStore.ReissueInvalidatesOldCode | src/lib/otpStore.ts:16-17 | after reissuing, an earlier different code fails and the new one succeeds |
| OtpStore.Store.constructor | src/lib/otpStore.ts:12 | the store starts empty and within the attempt bound |
| OtpStore.Store.StoreOtp | src/lib/otpStore.ts:16-19 | the new map is the old one with the number's entry replaced by (code, now + 300000, 0); keeps the bound |
| OtpStore.Store.VerifyOtp | src/lib/otpStore.ts:21-47 | result and new map are those of the five-way decision; keeps the bound |
| OtpStore.Store.CanRequestOtp | src/lib/otpStore.ts:49-60 | answer and new map are those of the cooldown check; keeps the bound |
| OtpRoutes.IsValidPhone | src/app/api/send-otp/route.ts:9 | defines the accepted phone number, `^\d{10,15}$`: ten to fifteen ASCII digits and nothing else (the same test is at src/app/api/verify-otp/route.ts:9) |
| OtpRoutes.IsValidOtpFormat | src/app/api/verify-otp/route.ts:12 | defines the accepted code, `^\d{6}$`: exactly six ASCII digits |
| OtpRoutes.GenerateOtp | src/app/api/send-otp/route.ts:20 | the code for draw r is six ASCII digits, not starting with 0, reading back as 100000 + r, so it passes the verify route's format check |
| OtpRoutes.GenerateOtpInjective | src/app/api/send-otp/route.ts:20 | different draws give different codes |
| OtpRoutes.ToResponse | src/app/api/verify-otp/route.ts:18-23 | success maps to 200 with success true, failure to 400 with success false; the message passes through unchanged |
| OtpRoutes.SendOtp | src/app/api/send-otp/route.ts:5-34 | a malformed number gives 400 and leaves the store alone; otherwise the cooldown answer is ignored, the number gets a fresh entry with the generated code, and the reply does not depend on the code |
| OtpRoutes.VerifyOtp | src/app/api/verify-otp/route.ts:5-28 | the phone is checked before the code; either malformed field gives its 400 and leaves the store alone; otherwise the store decides once and its verdict is mapped to the reply |
| OtpRoutes.IssuedCodeVerifiesOnce | src/app/api/send-otp/route.ts:20-21 | an issued code passes the format check, verifies with 200 within five minutes, and then gives 400 "No OTP found..." |
| OtpRoutes.ResendInvalidatesEarlierCode | src/app/api/send-otp/route.ts:20-21 | a second send with a different draw makes the first code fail and the new one succeed |
| AuthContext.Restored | src/contexts/AuthContext.tsx:21-28 | after loading, verified is never unknown and is true exactly when the stored flag is "true"; the number is the stored one or none |
| AuthContext.RestoreVerifiedFlag | src/contexts/AuthContext.tsx:30-32 | writing the flag's text and reloading gives back the flag |
| AuthContext.RestoreAfterLogout | src/contexts/AuthContext.tsx:49-54 | after logout's removals a reload gives unverified with no number |
| AuthContext.EmptyPhoneIsNotRestored | src/contexts/AuthContext.tsx:21-28 | with the phone key removed, a reload gives no number at all |
| AuthContext.AuthProvider.constructor | src/contexts/AuthContext.tsx:18-19 | before loading, both fields are unknown |
| AuthContext.AuthProvider.Load | src/contexts/AuthContext.tsx:21-28 | the fields become what storage holds, storage is not written, and state and storage agree |
| AuthContext.AuthProvider.SetIsVerified | src/contexts/AuthContext.tsx:30-38 | flag set in state and as "true"/"false" in storage; false also clears the number in both; agreement is kept |
| AuthContext.AuthProvider.SetPhoneNumber | src/contexts/AuthContext.tsx:40-47 | state takes the value; storage keeps only a non-empty number and otherwise loses the key; agreement is kept unless the value is "", in which case state holds "" and a reload gives no number |
| AuthContext.AuthProvider.Logout | src/contexts/AuthContext.tsx:49-55 | unverified with no number, both keys removed, other keys kept, state and storage agree |
| AppStructure.Redirect | src/components/layout/AppStructureClient.tsx:18-34 | a redirect happens only once the state is known, goes to / or /verify/phone, and never to the page already shown |
| AppStructure.ChooseLayout | src/components/layout/AppStructureClient.tsx:36-96 | the spinner shows exactly while the state is unknown, and the final fallback is never rendered |
| AppStructure.WhileLoading | src/components/layout/AppStructureClient.tsx:18-42 | while loading there is no redirect and only the spinner shows |
| AppStructure.UnverifiedOutsideAuthRoutes | src/components/layout/AppStructureClient.tsx:24-27 | unverified outside the auth pages redirects to /verify/phone |
| AppStructure.UnverifiedOnAuthRoute | src/components/layout/AppStructureClient.tsx:44-51 | unverified on an auth page: no redirect, and the page renders without header and navigation |
| AppStructure.VerifiedOnAuthRoute | src/components/layout/AppStructureClient.tsx:28-32 | verified on /verify/phone, /verify/otp or /auth/signin redirects to / |
| AppStructure.VerifiedElsewhere | src/components/layout/AppStructureClient.tsx:67-81 | verified elsewhere: no redirect, and the full layout renders |
| AppStructure.RedirectIsStable | src/components/layout/AppStructureClient.tsx:24-32 | a redirect target never redirects again for the same verification state |
| AppStructure.LayoutCases | src/components/layout/AppStructureClient.tsx:36-96 | the full layout shows exactly when verified and not on an auth page; the final fallback is never reached |
| Dashboard.NewestFirstOrdersAllPairs | src/app/page.tsx:25 | in a newest-first list every report is at least as recent as every later one |
| Dashboard.Insert | src/app/page.tsx:25 | inserting into a newest-first list keeps it newest first and one longer |
| Dashboard.InsertAddsOne | src/app/page.tsx:25 | inserting adds exactly that report and loses none |
| Dashboard.SortNewestFirst | src/app/page.tsx:25 | the sorted copy has the same length and is in non-increasing timestamp order |
| Dashboard.SortIsPermutation | src/app/page.tsx:25 | the sorted copy is a permutation of the reports |
| Dashboard.WantsGeneratedImage | src/app/page.tsx:33 | defines the reports that ask for an image: a placeholder URL (https://placehold.co...) and a non-empty hint |
| Dashboard.GenerateImagesForBatch | src/app/page.tsx:30-47 | same length and order, each report unchanged but for its image; the image changes exactly for a placeholder with a hint for which the generator returns a non-empty URI, and then to that URI; every other report, a failed generation included, is kept as it was |
| Dashboard.AppendSliceKeepsPrefix | src/app/page.tsx:80-82 | appending the next slice of the sorted list, with generated images, keeps the shown list a prefix of the sorted list up to images |
| Dashboard.DashboardPage.constructor | src/app/page.tsx:15-20 | empty lists, page 1, loading, more expected |
| Dashboard.DashboardPage.LoadRawIssues | src/app/page.tsx:22-28 | the raw list becomes the sorted copy and loading ends |
| Dashboard.DashboardPage.LoadInitialBatch | src/app/page.tsx:49-63 | with reports loaded: the first min(3, n) reports, page 1, more expected exactly when n > 3, and the pagination invariant holds; otherwise nothing changes |
| Dashboard.DashboardPage.HandleLoadMore | src/app/page.tsx:65-86 | nothing without more or during a load; an empty slice only clears the more flag; otherwise the next slice is appended, the page advances, and the flag says whether reports remain; keeps the pagination invariant |
| ReportIssue.DescriptionError | src/app/report-issue/actions.ts:11 | the description has no error exactly when it is present and at least ten characters long |
| ReportIssue.SchemaAccepts | src/app/report-issue/actions.ts:10-16 | defines the schema: a description of at least ten characters, and each optional field present as a string, since `FormData#get` gives null for a missing entry and an optional field refuses null |
| ReportIssue.SubmitIssue | src/app/report-issue/actions.ts:25-61 | success exactly when the schema accepts; success carries the id temp-issue-now and no error; failure carries an error and no id |
| ReportIssue.ShortDescriptionRejected | src/app/report-issue/actions.ts:38-43 | a missing or short description fails with an error starting "Invalid description: " |
| ReportIssue.OtherFieldRejected | src/app/report-issue/actions.ts:41-43 | a failure with a good description reports exactly "Invalid form data." |
| ReportIssue.IssueIdsDistinct | src/app/report-issue/actions.ts:53 | submissions at different instants get different ids |
| ReportIssue.FormAcceptedIsServerAccepted | src/components/issues/ReportIssueForm.tsx:19-21 | any description the client form accepts, sent with the form's string fields, is accepted by the server |

## Left out

- Randomness and floating point: `Math.random()` and the float arithmetic around it are replaced by the integer draw `r`. The model does not capture how the draw is distributed.
- The clock: each request reads a single `now`. The send route calls `Date.now()` twice, once in `canRequestOtp` and once in `storeOtp`, and the two readings may differ by a few milliseconds.
- The module-level store is an object that is passed to the routes. The model has no process-wide global, and nothing is shared between worker processes.
- HTTP plumbing: the body-parsing failures and the 500 replies from the `catch` blocks, logging, and the simulated SMS delivery.
- Body fields: JSON values that are not strings are merged with missing fields into `None`. A `File` value in the report form data is not modelled.
- Concurrency: `await`, `setTimeout`, the parallel image generation, and the re-entrancy between overlapping loads are not modelled. Each handler is one atomic step, so `isLoadingMore` is always false between steps.
- Dates: timestamps are integers. The model does not capture ISO-string parsing or the comparator's behaviour on invalid dates.
- AI flows: the generative-AI calls and their error handling become the function parameter `generate`.
- Schema library: Zod is not modelled beyond the rules the action uses. String length counts Dafny characters, whereas Zod's `min(10)` counts UTF-16 code units, so the two differ for characters outside the Basic Multilingual Plane.
- `useAuth`'s error outside a provider is React context plumbing and is not modelled. So are the React rendering, routing and storage APIs themselves.
- UI-only components, the verification pages, fixture data and the AI prioritisation flow are not part of this model.
- Dashboard.SortNewestFirst: its contract and `SortIsPermutation` prove sorted order and permutation. They do not prove stability, meaning that reports with equal timestamps keep their input order; the insertion order gives that, but no lemma states it.
