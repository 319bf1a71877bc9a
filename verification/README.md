# Verification model

A Dafny model of the parts of this repository where a mistake would be silent: the import of a
ledger file in parts, the rotation of refresh tokens, the claim of a fresh deployment, exact money,
chart axes, the selection in the transaction list, the transaction form, and preset date ranges.
`dafny verify dfyconfig.toml` checks all of it.

| modules | what they model |
|---|---|
| `LedgerServer`, `LedgerImport`, `ImportProtocol` | The server's atomic apply with stored answers; the page that sends a file part by part, stops, retries and checks again; and the two joined by a network that delays, repeats and loses. |
| `TokenRotation` | The table of refresh tokens, the retire step as its three statements, and any number of requests racing through it. |
| `FirstClaim` | Replicas with a busy flag and one lock session each, an advisory lock between them, and sign-ups the rule admits going past both. |
| `Digits`, `Decimals`, `Money`, `Rounding`, `ExactText` | Decimal text, scaled integers and back, comparison, sums, rounding, percentages, and the two printers. |
| `Ticks` | Steps, ticks and labels of a chart axis. |
| `Selection` | The two modes of selection, the page on screen and the rows remembered. |
| `TransactionForm`, `RoundTrip` | Templates, the split editor, what is submitted, and a stored row opened and saved unchanged. |
| `ImportSummary` | Drift grouped and merged over parts, and records counted once. |
| `DateRange` | Presets over the calendar arithmetic of ECMA-262 section 21.4.1. |
| `Options`, `Arithmetic` | An optional value, and facts about products and quotients. |

Protocols are functions from state and step to state, so a run is a list of steps and the results
hold for every list. Handlers that change fields step by step (`ImportPage`, `TokenStore`,
`ClaimRoute`, `Browser`, `Form`, `UtcDate`) are classes whose methods are proved against those
functions, and loops are methods with invariants. `BigInt` is `int`, a string is `seq<char>`.

## What turned out false, and when it holds

- *Every selected frozen row is noticed.* Old rows stay on screen while a new filter is fetched
  (`placeholderData`). Ticking or reordering them then, clearing the selection while a page is on its
  way, or a re-read that pushes a ticked row off the page makes the answer wrong
  (`Selection.SlipsAreWrong`). A run without those four is right at every moment
  (`Selection.CheckIsRight`), and any run is right exactly when the rows the page still knows name the
  accounts of the rows that count (`Selection.RightExactly`).
- *No field keeps a template's value.* True of every field, but a split copies the amount into a leg.
  It stays there exactly when the template set an amount and no category
  (`TransactionForm.SplitThenChoose`).
- *Choosing none restores the form.* The comment says a field goes back to what the form held before
  any template; the code puts back what it opened with (`TransactionForm.TypingBeforeTemplate`). A
  template of type transfer empties the category for good, and a stored split is not restored
  (`TransactionForm.ThereAndBack`).
- *An edit keeps the template an entry was made from.* The comment at `src/client/forms.tsx:2192-2194`
  says so; `draftFromTransaction` does not carry it and the request sends null
  (`RoundTrip.TemplateIsDropped`).
- *A transfer between currencies sends its received amount.* Only while the account list has both
  accounts (`RoundTrip.AmountsComeBack`); without it the server refuses, and stores no other amount
  (`RoundTrip.TransferComesBack`).
- *Ticks never fall back to the two ends.* They do exactly when the first tick plus the step is past
  the high bound, which takes one or two asked for (`Ticks.FewTicks`, `Ticks.FewTicksHappen`). No
  caller asks for so few: `src/client/charts.tsx:349` and `:400` use the default of four.
- *Spelled sign tests are arithmetic.* Not with redundant leading zeros or spaces
  (`Money.SignTestsExact`).
- *One claim.* One more for each time the deployment is emptied, and for each lock session that dies
  under a deciding request (`FirstClaim.AtMostOneClaim`, `FirstClaim.LostLockTwoClaims`).
- *A part passed over would write nothing.* Exactly when all its staged rows are still here, so unless
  one was discarded after its preview was read (`ImportProtocol.PassedWouldWriteNothing`); a run that
  does that is `ImportProtocol.PassedThenDiscarded`.
- *A part is applied once.* Once for each answer that is stored or was cleared away
  (`ImportProtocol.AppliedOncePerAnswer`), and a run can apply it twice (`ImportProtocol.AppliedTwice`).
  Applied again it writes nothing exactly when every row it brought is here, so unless one was
  discarded in between (`ImportProtocol.AppliedAgainWritesNothing`).
- *A preset's start is a date.* A year below 1000 is not padded, and one from 1 to 99 is read as of
  the twentieth century (`DateRange.RangeIsRight`).

## Model

| member | source | states |
|---|---|---|
| `ImportProtocol.StepKeeps` | src/client/LedgerFileImport.tsx:801-850 | every step of the world - sending, arriving late or again, answering, losing, checking again, trying again, committing, discarding, answers expiring - keeps what the page says true of what the ledger applied, and every key tied to one request |
| `ImportProtocol.EveryRunKeeps` | src/client/LedgerFileImport.tsx:801-850 | so it holds after any run of steps from a page just opened |
| `ImportProtocol.WrittenAtMostOnce` | src/client/LedgerFileImport.tsx:801-850 | over every run, with any number of attempts, each origin is held at most once and was written at most once more often than people discarded it |
| `ImportProtocol.AppliedOncePerAnswer` | src/client/LedgerFileImport.tsx:801-829 | over every run a part is applied under its key exactly once for each answer that is stored or was cleared away |
| `ImportProtocol.AppliedAgainWritesNothing` | src/server/services/ledger-file.ts:2397-2411 | applied again under its key, a part writes nothing exactly when every row it brought is here; so never unless one was discarded since it was last applied |
| `ImportProtocol.AppliedTwice` | src/server/services/helpers.ts:151-186 | a run that applies one part twice under one key, its first answer lost and cleared away, and still writes its row once |
| `ImportProtocol.PartsFormPrefix` | src/client/LedgerFileImport.tsx:805-829 | over every run the parts applied or passed over form a prefix of the file: each part before the one the run is on is one or the other, none after it was applied, and none passed over ever is |
| `ImportProtocol.OneKeyOneRequest` | src/client/LedgerFileImport.tsx:1012-1034 | `attempt-index` is never sent with two different bodies, over any run of starts, stops, checks and retries |
| `ImportProtocol.NoKeyConflict` | src/server/services/helpers.ts:151-186 | no arrival is ever refused because its key was used with another request |
| `ImportProtocol.StopNoticeTrue` | src/client/LedgerFileImport.tsx:1288-1293 | at every stop on part i the lists report parts 1 to i-1, each list in order; each was applied, once for each answer stored or cleared away, or was passed over; everything they bring is known here, and what a move posts is in the books; nothing after part i was applied; a part passed over is reported with its own counts |
| `ImportProtocol.SuccessTrue` | src/client/LedgerFileImport.tsx:830-850 | a run that reports success reported every part once, each list in order; each was applied, once for each answer stored or cleared away, or was passed over; everything they bring is known here, and every entry of a finished move, live or deleted, is in the books; the last was never passed over |
| `ImportProtocol.PassedWouldWriteNothing` | src/client/LedgerFileImport.tsx:666-690 | sending a part a move passes over would write nothing exactly when all its staged rows are still here; so always, however old its preview, when none of them was discarded since |
| `ImportProtocol.PassedThenDiscarded` | src/client/LedgerFileImport.tsx:808-815 | a run that passes over a part whose staged row was discarded after its preview, so that sending it would have written the row |
| `ImportProtocol.TryAgainFindsOut` | src/client/LedgerFileImport.tsx:805-829 | a retry after a lost answer writes nothing if the part had been written, is answered with what was written then, and the run goes on past it |
| `ImportProtocol.SentIsThePart` | src/client/LedgerFileImport.tsx:805-829 | every request ever sent under the attempt carries its way in, its answers, the part its key names and that part's place in the file |
| `ImportProtocol.StartIsNamed` | src/client/LedgerFileImport.tsx:1012-1034 | a start names its way in and its answers under a key no request ever had |
| `ImportProtocol.AnswerReported` | src/client/LedgerFileImport.tsx:830-850 | an answer is noted as the server gave it, last in the list of its way in |
| `ImportProtocol.StopsKeep` | src/client/LedgerFileImport.tsx:830-850 | a refusal or a lost connection stops the run on its part and keeps what it reported; only a refusal for balances cannot be tried again |
| `ImportProtocol.CheckGivenUp` | src/client/LedgerFileImport.tsx:745-800 | a check that fails is given up and leaves the rest of the page as it was |
| `ImportProtocol.RunFrom` | src/client/LedgerFileImport.tsx:801-850 | any run of steps is defined from an opened page and ends in a world where the invariant holds |
| `LedgerImport.KeyTextUnique` | src/client/LedgerFileImport.tsx:818-829 | the spelled key names one attempt and one part |
| `LedgerImport.ProceedCoherent` | src/client/LedgerFileImport.tsx:805-829 | wherever the parts loop comes to rest, every part before it is reported once, each list in order, passed parts among the passed ones and all others among the answers |
| `LedgerImport.LastPartAnswered` | src/client/LedgerFileImport.tsx:808-815 | the last part of a move is always sent: a finished run ends with its answer |
| `LedgerImport.ImportPage.ProceedFrom` | src/client/LedgerFileImport.tsx:805-829 | the loop over the parts, against the recursive description of where it rests |
| `LedgerImport.ImportPage.BeginCheck` | src/client/LedgerFileImport.tsx:771-783 | a new check drops the attempt and the done lists |
| `LedgerImport.CheckOffersFile` | src/client/LedgerFileImport.tsx:745-770 | a check offers the file once the previews of all its parts are read, each part with its own, and not before |
| `LedgerImport.CheckStartsAfresh` | src/client/LedgerFileImport.tsx:771-783 | a new file takes the place of the checked one, a new check keeps it; both drop the attempt and what it did, and a page at work is left alone |
| `LedgerImport.ImportPage.Submit` | src/client/LedgerFileImport.tsx:1012-1034 | one button: a stopped part again under its old key, or a new attempt under a new one with nothing done |
| `LedgerImport.ImportPage.PartAnswered` | src/client/LedgerFileImport.tsx:830-850 | an answer is noted and the loop goes on; a refusal stops on its part |
| `LedgerServer.HandleKeepsSound` | src/server/services/ledger-file.ts:2086-2100 | handling any request, whatever the verdict, keeps one row per origin and every stored answer true |
| `LedgerServer.HandleBrings` | src/server/services/ledger-file.ts:2397-2411 | a part that is written has everything it brings here afterward, its answer stored, and after a move all its entries in the books |
| `LedgerServer.HandleWrites` | src/server/services/ledger-file.ts:2513-2585 | row by row what a written part does: a move posts its entries to the books and stages only the file's staged rows, an add stages its live entries and posts nothing; only rows nowhere here are written, each once, and the answer lists exactly what the books and the queue gained |
| `LedgerServer.HandleDecides` | src/server/services/ledger-file.ts:2086-2145 | when a request is written, and what it is refused for: a repeated origin, a key used for another body, an entry that only waits in Staged, or the planner, with a refusal for balances told apart |
| `LedgerServer.ReplayAnswers` | src/server/services/helpers.ts:151-186 | the same request under a key whose answer is stored gets that answer and leaves the ledger as it was |
| `LedgerServer.PeopleKeepSound` | src/server/services/ledger-file.ts:2086-2100 | committing, discarding and answers expiring keep it sound |
| `LedgerServer.PeopleMove` | src/server/services/ledger-file.ts:2086-2100 | a waiting row committed is in the books alone, one discarded is nowhere, and every other row stays where it was |
| `LedgerServer.PreviewCounts` | src/client/LedgerFileImport.tsx:677-690 | equal counts of rows and of rows found mean that every origin of the part is here |
| `LedgerServer.WritesNothingExactly` | src/server/services/ledger-file.ts:2397-2411 | applying a part writes nothing exactly when every row it would bring is here |
| `LedgerServer.WhollyInWritesNothing` | src/client/LedgerFileImport.tsx:666-690 | sending a part that is wholly in would write nothing |
| `LedgerServer.WriteRowSound` | src/server/services/ledger-file.ts:2397-2411 | what a part writes of one row: nothing if it is here, one if the part brings it |
| `TokenRotation.TokenStore.RetireRefreshToken` | src/server/services/connected-apps.ts:312-347 | the three statements of the retire step leave the table and answer exactly what the one-step description says |
| `TokenRotation.RetireLeavesOne` | src/server/services/connected-apps.ts:312-347 | exactly one of the two tokens of one grant survives it, and no third token is touched |
| `TokenRotation.StepKeeps` | src/server/api.ts:927-971 | every step of every request, sign-in and revocation keeps the token table and its history consistent |
| `TokenRotation.EveryRunKeeps` | src/server/api.ts:927-971 | so it holds over every interleaving |
| `TokenRotation.OneLiveToken` | src/server/api.ts:949-957 | a grant nobody revoked has exactly one live confirmed refresh token, a revoked one none |
| `TokenRotation.OneReplacement` | src/server/api.ts:949-971 | at most one replacement for a presented token is ever delivered, and the presented token is dead from then on |
| `TokenRotation.LiveTokensAccountedFor` | src/server/api.ts:945-957 | any other live token was never delivered, and belongs to a request still running or one that broke off before its delete |
| `TokenRotation.QuietTable` | src/server/api.ts:949-957 | with every request ended and none broken off, the table holds one token per unrevoked grant and nothing else |
| `TokenRotation.RevokedStaysDead` | src/server/services/connected-apps.ts:312-347 | no token of a revoked grant that a client holds or is ever sent becomes live again, whatever was in flight |
| `TokenRotation.RevokeTakesAll` | src/server/services/connected-apps.ts:147-190 | from every reachable state a revocation takes every token of that client and person out of the table and ends every grant between them, and nothing else |
| `TokenRotation.RevocationLasts` | src/server/services/connected-apps.ts:147-190 | whatever runs afterwards, those grants stay revoked |
| `TokenRotation.GrantStarts` | src/server/api.ts:927-971 | a sign-in starts a grant of its own with a live token nobody had, and touches no other |
| `TokenRotation.RefusedEnds` | src/server/api.ts:927-971 | a request that is refused or finds no row ends there and leaves every row |
| `TokenRotation.SameTokenAndReply` | src/server/services/connected-apps.ts:312-347 | a mint that gives the same token back changes no row; an answer is delivered exactly when it arrives |
| `TokenRotation.TokensDieTwoWays` | src/server/api.ts:945-948 | a confirmed token leaves the table only by the delete that confirms its replacement, or by a revocation; a failure never costs it |
| `TokenRotation.LockedOutOnlyByLostAnswer` | src/server/api.ts:945-948 | the live token of a grant is with the client unless the answer carrying it was lost or is on its way |
| `TokenRotation.RefreshWorks` | src/server/api.ts:927-985 | from every reachable state a client holding the live token can refresh: the retry the comment promises |
| `TokenRotation.AloneIsRetired` | src/server/services/connected-apps.ts:312-347 | with nothing between them, the steps of one request are the retire step run on its own |
| `FirstClaim.StepKeeps` | src/server/api.ts:645-770 | every step keeps: one user of each busy flag, one holder of the lock, the count of its holds, the bound on claims, and for each account the request it was made for and what that request had shown |
| `FirstClaim.EveryRunKeeps` | src/server/api.ts:645-770 | so it holds over any number of replicas and interleavings |
| `FirstClaim.AtMostOneClaim` | src/server/api.ts:729-760 | at most one account is ever claimed; one more only for each time the last account was deleted, and each time a lock session died under a deciding request |
| `FirstClaim.OneInside` | src/server/api.ts:733-755 | besides those whose session died there, at most one request anywhere is between acquiring the lock and its answer, and its replica holds the lock; the others are at most as many as sessions lost |
| `FirstClaim.OneHolder` | src/server/api.ts:733-747 | two requests holding the lock on live sessions are one request |
| `FirstClaim.EveryExitCleans` | src/server/api.ts:756-769 | once nobody is on the claim path every flag is down, and the lock is free exactly when no unlock failed on a session still open |
| `FirstClaim.EmailAllowedExactly` | src/server/config.ts:1137-1146 | the search admits exactly the listed addresses and those whose part after the last @ is a listed domain; nobody when closed, everybody when open |
| `FirstClaim.MayCreateExactly` | src/server/auth-policy.ts:137-154 | who may have an account by each way in: a social sign-in never by a claim, local sign-up by one too, each only where it is on |
| `FirstClaim.EveryAccountAdmitted` | src/server/auth-policy.ts:137-154 | every account has a listed address, or one of a listed domain, and came through a way in that is on; or it was claimed for a request that gave a right setup code and then, under the lock unless a session was lost, found every account ever made gone |
| `FirstClaim.AdmittedSignsUp` | src/server/api.ts:665-671 | wherever a run has got to, an address the rule admits signs up with no code and no lock |
| `FirstClaim.SocialSignsUp` | src/server/auth-policy.ts:137-146 | a social sign-in makes an account exactly when it is on, the address is admitted and is not called unverified |
| `FirstClaim.ClosedToOthers` | src/server/api.ts:672-685 | once anybody has an account every other address is turned away before its code is asked for; with local sign-up off, every address is |
| `FirstClaim.OneClaimAtATime` | src/server/api.ts:721-747 | a second claim is told so at the flag on its own replica and at the lock on another; the lock goes to its own process again or to anybody when free |
| `FirstClaim.WaysOut` | src/server/api.ts:756-769 | a wrong code is refused; a failed unlock leaves the lock held, one that answers gives it up; a crash ends its process's requests, flag and lock |
| `FirstClaim.ClaimWorks` | src/server/api.ts:645-770 | an unclaimed deployment with flag and lock free can be claimed on any replica by an address the rule does not admit, and leaves both free |
| `FirstClaim.LostLockTwoClaims` | src/server/api.ts:733-769 | a run in which a lock session dies under a deciding request, and two accounts are claimed |
| `FirstClaim.ClaimMayComeSecond` | src/server/api.ts:665-671 | a run in which an address the rule admits lands between the second look and the claim |
| `FirstClaim.ClaimRoute.Claim` | src/server/api.ts:721-769 | one pass through try and finally: the flag as before, the lock as before unless the unlock failed, and exactly when it signs up |
| `Decimals.ReadDecimalExact` | src/client/money.ts:173-175 | the pattern matches exactly the texts that are written from a sign, digits and a fraction, and captures just those |
| `Money.PrintThenRead` | src/client/money.ts:229-259 | reading what is printed gives the units back, for every integer |
| `Money.CanonicalUnique` | src/client/money.ts:255-259 | printing is the only spelling of an amount with no redundant zero, no bare point and no negative zero |
| `Money.SpellUnitsRight` | src/client/money.ts:255-259 | what is printed is such a spelling |
| `Money.SpacedReads` | src/client/money.ts:229-236 | any spelling with spaces about it reads as its units, unless it has more than eighteen places |
| `Money.ReadIsSpaced` | src/client/money.ts:229-236 | and whatever reads is such a text |
| `Money.UnitsExact` | src/client/money.ts:229-236 | the units are the number the text spells, scaled exactly |
| `Money.CompareIsOrder` | src/client/money.ts:244-252 | comparison is a total preorder that puts unreadable text last |
| `Money.CompareIsValue` | src/client/money.ts:244-252 | on readable text it is the order of the values, compared as fractions |
| `Money.SignTestsOnForm` | src/client/money.ts:202-226 | on every text the form pattern accepts the spelled sign tests are arithmetic |
| `Money.SignTestsExact` | src/client/money.ts:202-226 | on any readable text, exactly when they are and when they are not |
| `Money.ZeroIsWorkedOut` | src/client/money.ts:209-215 | zero is any text that reads as nothing, however it is written, and no text that cannot be read |
| `Money.TotalOrderFree` | src/client/money.ts:283-291 | a sum does not depend on the order of its amounts |
| `Money.TotalAppend` | src/client/money.ts:283-291 | and is the sum of the sums of its pieces |
| `Money.MoneyRemainder` | src/client/money.ts:270-280 | null exactly when something cannot be read, otherwise the total less the shares, printed |
| `Money.RemainderConserves` | src/client/money.ts:270-280 | remainder and shares add back to the total in any order, and it is zero exactly when the shares come to the total |
| `Money.SumMoney` | src/client/money.ts:283-299 | the exact sum printed, or the first amount when one cannot be read |
| `Money.MoneyExtent` | src/client/money.ts:337-349 | the printed least and greatest readable amounts, and null exactly when there is none |
| `Money.Hundredths` | src/client/money.ts:359-372 | the floor of the clamped ratio in hundredths of a percent, at most 10 000 |
| `Money.PercentReads` | src/client/money.ts:359-372 | the text of a percentage reads back as those hundredths |
| `Money.ScalePercentExact` | src/client/money.ts:359-372 | 0 at and below the low bound, 100 at and above the high one, and within 0.01 below the true ratio between |
| `Money.ScalePercentMonotone` | src/client/money.ts:359-372 | a larger amount is never drawn lower |
| `Money.ScalePercentElse` | src/client/money.ts:359-372 | what cannot be placed goes to the bottom, anything between equal bounds to the middle |
| `Rounding.RoundExact` | src/client/money.ts:30-40 | exactly that many digits, within half a unit with ties away from zero, never a negative zero |
| `Rounding.FormatRoundsOnce` | src/client/money.ts:79-103 | only an ISO currency rounds, to its own digits, and formatting recurses at most once |
| `Rounding.FormatKeeps` | src/client/money.ts:79-118 | an ISO currency shows its own number of digits, any other at least that many and all it has; a figure whose digits fit keeps them |
| `Rounding.ShownAsItCame` | src/client/money.ts:79-84 | exactly what cannot be read or has more than eighteen places is shown as it came |
| `Rounding.InputKeepsValue` | src/client/money.ts:172-182 | the input text has the value and the whole number of the stored one, the currency's digits at least, and past them no zero at the end |
| `Rounding.InputLeavesOthers` | src/client/money.ts:172-182 | what cannot be read is left as it is, and only that |
| `Rounding.InputKeepsUnits` | src/client/money.ts:172-182 | in scaled units it is exactly the stored amount |
| `Rounding.InputIdempotent` | src/client/money.ts:172-182 | opening a field on what another started with changes nothing |
| `Ticks.Bounds` | src/client/charts.tsx:47-55 | the axis takes zero in, brackets every readable value of every series, and is no wider than values and zero need |
| `Ticks.NiceStepIs` | src/client/charts.tsx:106-121 | which of 1, 2, 5 and 10 is chosen, as cuts on the span |
| `Ticks.StepBounds` | src/client/charts.tsx:106-121 | 0.7 count < span / step <= 1.75 count whenever the span is at least count units |
| `Ticks.NiceTicks` | src/client/charts.tsx:95-135 | the loop, its guards and its fallback against the closed description of the ticks; it terminates |
| `Ticks.TicksRead` | src/client/charts.tsx:95-135 | what those texts read as: every multiple of the step in range, in order and a step apart, when there are two; otherwise the two ends, the one value of a flat range, or nothing for a bound that cannot be read |
| `Ticks.TicksAreMultiples` | src/client/charts.tsx:122-134 | the ticks are exactly the multiples of the step in the range |
| `Ticks.TicksSpaced` | src/client/charts.tsx:122-134 | in order, one step apart, as many as fit |
| `Ticks.TickCount` | src/client/charts.tsx:122-135 | how many: within 0.7 and 1.75 times what was asked for, at least two when three or more were, and at most eight for the default of four |
| `Ticks.FewTicks` | src/client/charts.tsx:122-135 | on a range wide enough the fallback is taken exactly when the first tick plus the step is past the high bound, which needs one or two asked for |
| `Ticks.FewTicksHappen` | src/client/charts.tsx:134-134 | for one and for two asked for, a range that takes the fallback |
| `Ticks.FirstTickIs` | src/client/charts.tsx:122-126 | the doubly corrected remainder finds the first multiple, for a low bound of either sign |
| `Ticks.ZeroIsATick` | src/client/charts.tsx:122-134 | zero is a tick whenever the bracketed range is wide enough |
| `Ticks.LabeledBuckets` | src/client/charts.tsx:149-155 | at most max(budget, 1) labels from the first column on, as far apart as the columns over the budget, rounded up, and none past the last |
| `Ticks.FinestStride` | src/client/charts.tsx:149-155 | labels any closer together would be more than the budget |
| `Ticks.LabelsFit` | src/client/charts.tsx:167-170 | the budget is as many labels as fit, from two to twelve, and twelve without a width |
| `Selection.Browser.ToggleLoadedSelection` | src/client/TransactionBrowser.tsx:792-811 | ticking or clearing the whole page, in either mode |
| `Selection.Browser.ToggleTransactionSelection` | src/client/TransactionBrowser.tsx:813-828 | ticking or clearing one row, in either mode |
| `Selection.Browser.RememberLoadedRows` | src/client/TransactionBrowser.tsx:421-425 | every row on screen is remembered with its accounts, over what was remembered before |
| `Selection.Browser.TurnPage` | src/client/TransactionBrowser.tsx:426-429 | turning a page remembers the rows on screen |
| `Selection.Browser.ApplySort` | src/client/TransactionBrowser.tsx:432-436 | so does reordering, which goes back to page one |
| `Selection.Browser.SelectOnlyThisPage` | src/client/TransactionBrowser.tsx:1038-1053 | the rows on screen with their versions, the memory kept |
| `Selection.Browser.FrozenInSelection` | src/client/TransactionBrowser.tsx:545-564 | an account is named exactly when a selected row on screen or a selected remembered one touches a frozen account; it is frozen, and on one of those rows |
| `Selection.Browser.BuildBulkSelection` | src/client/TransactionBrowser.tsx:858-875 | the request covers exactly the rows the page calls selected, among those the filter matches; each row named singly with the version it was ticked at, a filter with the count and fingerprint the server gave |
| `Selection.HandlersSelect` | src/client/TransactionBrowser.tsx:792-828 | a toggle settles the rows it is given and no others, in either mode; the mode switches select everything or just the page; none forgets a remembered row |
| `Selection.HandlersRecord` | src/client/TransactionBrowser.tsx:792-828 | of rows with ids of their own a tick records the version of each, and leaves every other recorded version |
| `Selection.VersionsWereShown` | src/client/TransactionBrowser.tsx:858-875 | over every run a row selected by id is held at the version it had on screen when it was last ticked, so a mass edit names rows at the versions shown |
| `Selection.CheckIsRight` | src/client/TransactionBrowser.tsx:545-564 | at every moment of every calm run the buttons are held back exactly when a selected row shown under the filter touches a frozen account |
| `Selection.RightExactly` | src/client/TransactionBrowser.tsx:545-564 | on any run: right for every set of frozen accounts exactly when the selected rows on screen or remembered name the accounts of the selected rows that count; rows ticked one by one raise no false alarm |
| `Selection.SlipsAreWrong` | src/client/TransactionBrowser.tsx:302-313 | four runs that are not calm, and wrong with the bar on screen: old rows ticked or reordered while a new filter is on its way, a selection cleared mid-turn, a re-read that pushes a ticked row away |
| `Selection.EveryRunKeeps` | src/client/TransactionBrowser.tsx:104-131 | on any run memory and screen agree with the ledger; on a calm one every row shown is on screen or remembered |
| `TransactionForm.Form.ApplyTemplate` | src/client/forms.tsx:2015-2129 | field by field, the account sides and the legs in loops, the category side in its five branches, the form becomes what the closed description says; the notice names an account or a category exactly when the template has one no longer offered |
| `TransactionForm.Form.ResetCreateDraft` | src/client/forms.tsx:1977-2001 | every field, the legs and the record of the template go back |
| `TransactionForm.StartOverLeaves` | src/client/forms.tsx:1977-2001 | starting over leaves nothing of what was there: two forms opened alike are alike again, each field as a new entry opens |
| `TransactionForm.DefaultAccountIs` | src/client/forms.tsx:1680-1690 | the side a form starts on: the account it was opened for or the first open one, and for the receiver of a transfer the first open one other than that |
| `TransactionForm.EffectsFill` | src/client/forms.tsx:1796-1824 | after every handler a blank side takes the first open account and a transfer loses a chosen category, and nothing else moves |
| `TransactionForm.NoOtherTemplate` | src/client/forms.tsx:2015-2129 | over every run no field, and no leg category or note, holds a value of a template other than the one selected |
| `TransactionForm.LastTemplateAlone` | src/client/forms.tsx:2033-2127 | after any run of choices alone, type, texts, amounts and accounts are what the form opened with, overlaid by the last template and no other; and the category side shows that template's |
| `TransactionForm.ChoiceShowsCategory` | src/client/forms.tsx:2073-2127 | in any state, a chosen category the list offers is shown with its listed name and no legs, one it does not offer, or on a transfer, leaves both blank; a name alone is shown; a split shows leg by leg its amounts, notes and categories; a template without any leaves or puts back the side as a whole |
| `TransactionForm.ChoiceShowsFields` | src/client/forms.tsx:2033-2069 | in any state, each other field is the template's, or put back if the last template had set it, or left; an account only if the form can show it |
| `TransactionForm.NoticeIs` | src/client/forms.tsx:2053-2127 | the notice names an account exactly when the template names one the form cannot show, a category exactly when it or a leg names one not offered |
| `TransactionForm.TypingBeforeTemplate` | src/client/forms.tsx:2004-2014 | going back to none restores what the form opened with, not what was typed before the template |
| `TransactionForm.ThereAndBack` | src/client/forms.tsx:1810-1824 | choosing a template and then none restores the category, and a stored split, exactly when stated |
| `TransactionForm.CalmAmounts` | src/client/forms.tsx:764-774 | no leg amount is another template's unless a split was started from the amount of a template without a category |
| `TransactionForm.SplitThenChoose` | src/client/forms.tsx:764-774 | splitting and then choosing leaves the old template's amount in the first leg exactly under that condition |
| `TransactionForm.LegCount` | src/client/forms.tsx:724-901 | no legs, or between two and fifty, in every state of the editor |
| `TransactionForm.LegAdded` | src/client/forms.tsx:764-901 | a leg added is blank and last and leaves over what was left over |
| `TransactionForm.LegGone` | src/client/forms.tsx:764-850 | a leg removed leaves the others as they were and its amount left over; from two, it leaves the other's category to the entry |
| `TransactionForm.SplitUndone` | src/client/forms.tsx:764-850 | removing the second leg of a split just started gives the form back as it was |
| `TransactionForm.RateSurvives` | src/client/forms.tsx:1972-1975 | choosing an account drops a received amount exactly when it is the sent amount over again |
| `TransactionForm.SplitStartsSettled` | src/client/forms.tsx:764-774 | starting a split leaves nothing over exactly when the total can be read |
| `TransactionForm.SavedSplitSums` | src/client/forms.tsx:1874-1885 | whatever may be saved as a split has two legs or more that come to the amount in any order and no single category; anything else sends no legs |
| `TransactionForm.TextIsSent` | src/client/forms.tsx:2132-2214 | a text is sent as it was last typed, a blank description or note as none |
| `TransactionForm.CategoryIsSent` | src/client/forms.tsx:2140-2175 | a category picked is sent by its id, one only named by its trimmed name |
| `TransactionForm.CarriedIsSent` | src/client/forms.tsx:2151-2172 | a transfer sends the category it was opened with, by its id or else its name |
| `TransactionForm.CurrencyOfIs` | src/client/forms.tsx:1862-1865 | the currency compared is that of the first account listed under the id |
| `TransactionForm.AccountIsSent` | src/client/forms.tsx:2192-2214 | an account picked is sent for its side, unless the type has no such side |
| `TransactionForm.EditIsSent` | src/client/forms.tsx:2176-2191 | an edit of a leg is sent for that leg and every other leg as it was |
| `TransactionForm.TypeIsSent` | src/client/forms.tsx:2325-2342 | a type picked is sent; on a new entry its sides go to the accounts they start on, on a stored one they stay |
| `TransactionForm.TemplateIsSent` | src/client/forms.tsx:2192-2195 | the template chosen is sent with the entry, or else the one it was opened with |
| `TransactionForm.OthersStay` | src/client/forms.tsx:2004-2014 | a handler changes no field that is not its own |
| `RoundTrip.ShapeComesBack` | src/client/forms.tsx:2132-2214 | opened and saved unchanged: kind, date, payee, texts, reference, category and accounts as stored, a transfer's hidden category included |
| `RoundTrip.LegsComeBack` | src/client/staged-draft.ts:131-166 | the same legs in order under their ids, categories and notes, each amount the same money |
| `RoundTrip.AmountsComeBack` | src/client/forms.tsx:396-448 | the amount is the stored one; a received amount is sent exactly when the account list has both accounts in different currencies |
| `RoundTrip.AmountOpens` | src/client/money.ts:172-182 | a stored amount opens with its currency's digits at least and past them no zero at the end |
| `RoundTrip.NamesOpen` | src/client/forms.tsx:1698-1730 | the form opens on the names the list gives the stored categories, its own and its legs' |
| `RoundTrip.TransferComesBack` | src/server/services/transactions.ts:575-604 | a transfer saved unchanged is stored with both its amounts, the received one left out between accounts of one currency included; it is refused exactly when the currencies differ and the list does not say so |
| `RoundTrip.ReceivedRefused` | src/server/services/transactions.ts:575-590 | a transfer is refused exactly for a missing amount between two currencies or a different one within one |
| `RoundTrip.TemplateIsDropped` | src/client/forms.tsx:2192-2195 | the template an entry was made from comes back only if there was none |
| `RoundTrip.UnchangedCanBeSaved` | src/client/forms.tsx:1874-1885 | a stored split can be saved unchanged exactly when its legs come to its amount |
| `ExactText.SameTextSameAmount` | src/shared/ledger-file-import.ts:957-972 | two decimals are the same amount, at any number of places, exactly when their canonical texts are equal |
| `ExactText.PrintersAgree` | src/shared/ledger-file-import.ts:983-989 | the two printers of scaled units write one text |
| `ExactText.AddIsExact` | src/shared/ledger-file-import.ts:996-998 | adding is exact and prints the one text of the sum |
| `ImportSummary.SlotTextUnique` | src/client/LedgerFileImport.tsx:2388-2388 | the slot text names one currency, direction and pair of sides, whatever the currency is called |
| `ImportSummary.MergedDrift` | src/client/LedgerFileImport.tsx:2385-2403 | one group per slot, with the entries, exact amount and categories of all parts; it throws only on an unreadable amount |
| `ImportSummary.GroupDrift` | src/shared/ledger-file-import.ts:2853-2896 | a part's own groups summarize its entries, each amount in its one text |
| `ImportSummary.MergingSummarizes` | src/client/LedgerFileImport.tsx:2385-2403 | merging the groups of the parts summarizes the entries of all of them |
| `ImportSummary.CutsAgree` | src/client/LedgerFileImport.tsx:2381-2403 | entries cut into parts in any two ways come to the same slots, counts, amount texts and categories |
| `ImportSummary.RecordIdUnique` | src/client/LedgerFileImport.tsx:195-195 | a record id names one kind and one key |
| `ImportSummary.RecordsAcross` | src/client/LedgerFileImport.tsx:2225-2238 | each record once, from some plan, created exactly when some plan created it, in the order in which the plans first name them |
| `ImportSummary.DistinctOrder` | src/client/LedgerFileImport.tsx:2385-2403 | names kept once stand in the order in which they first stood |
| `DateRange.CivilOfDay` | src/client/date-range.ts:4-9 | the day number of a calendar day is turned back into that day |
| `DateRange.DayOfCivil` | src/client/date-range.ts:4-9 | and every day number is a calendar day |
| `DateRange.NextDayCounts` | src/client/date-range.ts:11-15 | the calendar's next day is the next number, over months, years and leap days |
| `DateRange.Epoch` | src/client/date-range.ts:4-9 | day 0 is 1 January 1970, which with the next day fixes every other |
| `DateRange.AddDays` | src/client/date-range.ts:11-15 | days are added to a copy, and the date passed in keeps its own |
| `DateRange.MonthBefore` | src/client/date-range.ts:49-52 | month -1 and day 0 are the first and last day of the month before |
| `DateRange.PresetDays` | src/client/date-range.ts:42-68 | last month is every day of the preceding month and no other; the rolling presets hold 30 and 90 days to today; no bounded preset ends before it starts |
| `DateRange.IsoReads` | src/client/date-range.ts:4-9 | a written date reads back as its year, month and day |
| `DateRange.OpenRanges` | src/client/date-range.ts:62-68 | the whole of time has no ends, and a range of one's own ends today |
| `DateRange.RangeIsRight` | src/client/date-range.ts:42-68 | a preset is written as those days exactly when their years need no padding, from year 1000 on |

## Left out

- ImportProtocol.PassedWouldWriteNothing: which parts the planner accepts is a free verdict of the server, because its rules are many single checks that no part of the protocol depends on; hand-typed rows, file reading, splitting and hashing are left out with it.
- LedgerServer.HandleKeepsSound: a part is applied in one step, as the one database transaction it is; records, budgets and balances beside the rows are not written.
- TokenRotation.OneLiveToken: tokens do not expire, and a client presents only tokens it was sent, because a token nobody was sent cannot be guessed; whether the wrapper reads a request body the way the library does is not modelled.
- Selection.SlipsAreWrong: how many rows a page holds is left open, so its runs use pages of one row.
- ImportProtocol.AppliedOncePerAnswer: keys are new, so nothing is stored or was applied under any when the page opens.
- FirstClaim.AtMostOneClaim: the transaction of a crashed replica is taken to be rolled back, the attempt limiter and the setup code are free answers, and addresses are taken as already trimmed and in lower case.
- Rounding.FormatKeeps: the digits and the rounding only, not locale grouping, symbols or digit shapes.
- Money.ScalePercentMonotone: stops at the exact percentage; pixel positions are floating point.
- Selection.CheckIsRight: a row's accounts do not change while it is remembered, and which frozen account is named first is not stated.
- TransactionForm.LastTemplateAlone: accounts the form opened without are filled by an effect and are left out of the overlay; the kind of a new category is not modelled.
- RoundTrip.ShapeComesBack: for stored rows; staged rows and copies are opened by the same functions but their own repairs are not stated.
- DateRange.RangeIsRight: for a today written with four digits of year.
- React rendering, focus, dialogs, copy, routing and HTTP plumbing: user interface and transport.
- Better Auth, Drizzle and PostgreSQL: represented by what the source relies on, an atomic apply, an advisory lock of a session and single statements on a table.
- Formatter caches, list filters, pagination windows and currency tables: single branches or lookups.
- Where the source works in place on a `Map` or an object, the model reassigns a `map` or `seq` field or local; sharing of one object between two holders is not captured.
