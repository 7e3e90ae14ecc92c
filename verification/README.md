# A verified model of the SangaPay backend's session, webhook and Reepay-client logic

The backend owns users, e-mail verification codes, login sessions, biometric devices, identity review and the
inbound Reepay webhooks. This project models those parts in Dafny and proves what they guarantee together.

## What is modelled

**One serial machine** (`Model`, `AuthCalls`, `AdminCalls`, `Machine`). Its state holds the user, session,
one-time-code, biometric-credential, submission and environment-variable rows, the access tokens signed so far,
a millisecond clock that never goes back, and a counter from which identifiers, refresh tokens and challenges are
drawn. Every call of the authentication service, the guard, the admin service and the review service is one step;
calls come in any order with any arguments, at any delay. A `Run` is an endless script of requests, so every finite
history is a prefix of some run, and the theorems speak about `StateAt(run, n)`, `EventAt(run, n)` and
`TimeAt(run, n)` for all runs and all `n`. Where SQL leaves an order open (`orderBy createdAt desc` with ties), the
order is an argument of the step, and all valid orders are covered.

**How the proofs are built.** `Summaries.CallFollows` says, row by row, what one step can do, whichever call it was.
`Invariants` derives from it what holds in every reachable state, and `OtpTheorems`, `SessionTheorems`,
`BiometricTheorems`, `ReviewTheorems` and `ScanTheorems` prove the properties of whole runs from these two.
`AnswerTheorems` and `AdminAnswers` say for each call what it answers to which arguments and what it writes; `Columns`
says which calls write which columns, and `HistoryTheorems` reads the columns, and who may log in or refresh, off the
history of a run. `InterleavedSerial` ties the interleaved steps to these calls.

**The services on mutable tables** (`Database`, `AuthService`, `AdminService`). The classes keep the rows in fields
and carry the calls out statement by statement, with the scan loops and early exits of the source. Every public
method is proved to end in exactly the state, answer and event of its step of the serial machine, and to keep the
invariant.

**Database calls as steps** (`Interleaved`, `InterleavedLapse`, `InterleavedLogin`, `InterleavedCodes`,
`InterleavedDevices`, `Webhook`). Refresh, unlock, login and the guard are processes that keep what they have read.
Every database call and every reading of the clock is a step of its own, so a query may filter by a reading that is
already old; any other step may run in between, and a process may stop for ever. The same is done for requests that
enter one-time codes and for biometric logins. For the webhooks every database call and the e-mail of every delivery
is a step that may succeed, fail, or take effect and still be reported as an error. `WebhookService` carries one
delivery out on tables and is proved to be a sequence of these steps.

**The Reepay client** (`ReepayClient`): the retry loop against the declarative "first decisive attempt".

**Policy text** (`Text`, `SessionPolicy`): `Number(text)`, `String(n)`, `trim`, and the three lifetimes read from
stored text.

Where the code and its documentation differ, the model follows the code. docs/frontend-api-contract.md:154 says
any unexpired unused code is accepted even when several e-mails arrive out of order. That fails:
`OtpTheorems.OlderUnusedCodeIsRefused` is a run in which a registered user asks for a second code a minute later and
then enters the first one, unexpired and never compared, and is refused. `OtpTheorems.AcceptedExactlyWhen` says for all
runs when a code is accepted: the documented conditions, and in addition fewer than five failed attempts at it and no
newer code issued for the same user and purpose. A success does leave no outstanding code, as documented (`OtpTheorems.AcceptAnyAlongRun`).

What holds in serial runs and not with single steps is said exactly as well.

- A lapsed session never comes back in serial runs (`SessionTheorems.LapseIsPermanent`). With single steps it can, by
  a refresh that had read the row (`InterleavedLapse.LapseIsUndone`) or only the clock
  (`InterleavedLapse.LapseIsUndoneByLateQuery`) before; one request may even clear the way for another by writing an
  expiry that is itself already past (`InterleavedLapse.OneClearsTheWayForTheOther`). `InterleavedLapse.LapseReopensExactlyWhen` says from what the requests in flight
  hold whether it is still possible.
- A suspension ends everything at once in serial runs (`SessionTheorems.SuspensionIsImmediate`). With single steps a
  login past its checks still inserts its session, and the guard lets it through
  (`InterleavedLogin.LoginOutlivesSuspension`); `InterleavedLogin.ReturnsExactlyWhen` is the exact condition.
- A code is compared five times and accepted once in serial runs (`OtpTheorems.ConservationOfUses`). With at most m
  requests in flight on it at once the bounds are 4 + m and m (`InterleavedCodes.OverlapBoundsGuesses`), and for every
  m a schedule reaches both (`InterleavedCodes.BoundsAreReached`).
- A biometric challenge lets one login in in serial runs (`BiometricTheorems.OneLoginPerChallenge`), and otherwise as
  many as overlap on it (`InterleavedDevices.OverlapBoundsLogins`), two of them in
  `InterleavedDevices.TwoLoginsAnswerOneChallenge`.

## Model

| member | source | states |
|---|---|---|
| OtpTheorems.GuessingRate | src/auth/auth.service.ts:543-606 | in every serial run, a user registered at t0 has at most 5 * (1 + floor((t - t0) / 60000)) verification codes compared by time t |
| OtpTheorems.PaceKept | src/auth/auth.service.ts:79-129 | the induction behind the rate: the one outstanding code absorbs the comparisons beyond five per earlier code, and the k-th code is issued no earlier than k - 1 full minutes after registration |
| OtpTheorems.CooldownFloor | src/auth/auth.service.ts:645-663 | the floored cooldown is over only when the outstanding code is at least 60000 ms old |
| OtpTheorems.ConservationOfUses | src/auth/auth.service.ts:568-606 | for any code, failed plus successful comparisons are at most 5, at most one succeeds, and `attempts` equals the failed ones |
| OtpTheorems.ComparedOnlyForOwner | src/auth/auth.service.ts:568-581 | a code is compared only for the user and purpose it was issued for, less than ten minutes after its issue |
| OtpTheorems.ResetsBoundedByCodes | src/auth/auth.service.ts:248-277 | successful password resets of a user never exceed the reset codes issued to them |
| OtpTheorems.NewestRefinesAny | src/auth/auth.service.ts:568-598 | with one outstanding code, the newest-row lookup accepts a text if and only if a scan of all unconsumed, unexpired rows with attempts left would |
| OtpTheorems.AcceptAnyAlongRun | src/auth/auth.service.ts:568-606 | the same in every reachable state, and a success leaves nothing outstanding for that user and purpose |
| OtpTheorems.OnlyLatestCodeCompared | src/auth/auth.service.ts:543-566 | once a newer code is issued for a user and purpose, no older one is ever compared again |
| OtpTheorems.AcceptedExactlyWhen | docs/frontend-api-contract.md:154 | over all runs, the lookup accepts the code issued at request i if and only if its user still exists, the trimmed text is the code that request drew and mailed, no newer code was issued since for that user and purpose, it never succeeded, it failed fewer than five times, and it is less than 600000 ms old |
| OtpTheorems.VerifiedExactlyWhen | src/auth/auth.service.ts:101-113 | the same condition decides which code the call to verify an address is answered Done for |
| OtpTheorems.ResetExactlyWhen | src/auth/auth.service.ts:254-277 | the same condition decides which code a password reset is answered Done for, and the new password is then the one given |
| OtpTheorems.OlderUnusedCodeIsRefused | docs/frontend-api-contract.md:154 | a run from the empty tables in which an unexpired, never compared code is refused because a newer one was issued |
| SessionTheorems.SessionSurvival | src/auth/auth.service.ts:143-224 | a session used at t was created exactly once, and after r refreshes or unlocks it is younger than (r + 1) * 2592000000 ms; every gap between touches is below the lifetime in force at its start and at most the one in force at its end, under any policy changes |
| SessionTheorems.ChainAlongRun | src/auth/auth.service.ts:441-457 | the session row always tells when the session was first and last touched and which lifetime the last touch granted |
| SessionTheorems.DeadlineIsMinimum | src/auth/jwt-auth.guard.ts:40-59 | the session check passes if and only if the row is unrevoked, now is before last use plus the lifetime granted then, and now is at most last use plus the lifetime in force now |
| SessionTheorems.LapseIsPermanent | src/auth/auth.service.ts:143-178 | in serial runs, a session once deleted, revoked or past its stored expiry is never accepted, refreshed or unlocked again |
| SessionTheorems.ClaimStaleness | src/auth/auth.service.ts:469-486 | e-mail and role on an accepted request are those of the user row at an instant less than the access-token lifetime, hence less than 86400000 ms, earlier, for any stored policy text |
| SessionTheorems.TokenOrigin | src/auth/auth.service.ts:441-486 | every token that verifies was signed by an earlier session creation, refresh or unlock |
| SessionTheorems.TokenLifetime | src/auth/auth.service.ts:469-486 | a signed token keeps verifying; counted in milliseconds it is unexpired for at least its lifetime less one second and expired once its lifetime is over, in spite of the whole-second stamps |
| SessionTheorems.NothingSignedWhileDisabled | src/auth/auth.service.ts:622-630 | while a user is disabled or deleted no session of theirs is created or extended and no token is signed for them |
| SessionTheorems.DisableCutOff | src/admin/admin.service.ts:94-109 | a user disabled in any way and then not reactivated, but possibly deleted, has no request accepted 86400000 ms later |
| SessionTheorems.SuspensionIsImmediate | src/admin/admin.service.ts:129-145 | in serial runs, after a suspension no request of that user is accepted until reactivation, also when the user is deleted in between |
| SessionTheorems.SessionsAreOwned | prisma/schema.prisma:131-147 | in every reachable state, deletions with cascade included, each session belongs to an existing user with a verified address |
| BiometricTheorems.ChallengeFromHistory | src/auth/auth.service.ts:300-431 | a device stores challenge c if and only if the last event that touched it was the issue of c, and it then expires 300000 ms after that issue |
| BiometricTheorems.LoginAnswersChallenge | src/auth/auth.service.ts:398-431 | a biometric login answers the device's last event, the issue of that challenge less than 300000 ms before |
| BiometricTheorems.IssuedOnce | src/auth/auth.service.ts:371-389 | no two challenge requests issue the same value, for any devices |
| BiometricTheorems.OneLoginPerChallenge | src/auth/auth.service.ts:398-431 | two logins never answer the same challenge |
| BiometricTheorems.DeviceKeepsOwner | src/auth/auth.service.ts:300-331 | a registered device keeps its owner as long as that user exists |
| ScanTheorems.TruncatedScanFinds | src/auth/auth.service.ts:488-514 | in every reachable state and for every order of ties, the scan finds the live session of a refresh token if and only if fewer than 50 live sessions of all users precede it |
| ScanTheorems.ScanBounds | src/auth/auth.service.ts:145-159 | 50 strictly newer live sessions hide a session for certain; fewer than 50 at least as new never do |
| ScanTheorems.FoundIsFirst | src/auth/auth.service.ts:506-511 | the lookup returns the first match of the page, and nothing if and only if there is none |
| ScanTheorems.RefreshAgreesWithUnlock | src/auth/auth.service.ts:143-224 | refresh (scan with early throw) and unlock (find, then check) succeed on the same state, token and PIN, give the same answer and leave the same rows |
| ScanTheorems.ScanAgreesWithFind | src/auth/auth.service.ts:161-195 | the early-exit scan of a page decides as its first match alone would |
| AnswerTheorems.LoginAnswers | src/auth/auth.service.ts:131-141 | a login by the holder of the address is refused for a disabled user, an unverified address or a wrong password, in this order and without a write, and otherwise opens one session whose refresh token, claims and lifetimes are those of the answer |
| AnswerTheorems.UnheldAddress | src/auth/auth.service.ts:608-620 | every call by an address nobody holds is refused without a write |
| AnswerTheorems.RefreshAnswers | src/auth/auth.service.ts:161-195 | the first session of the first fifty that holds the token decides: owner disabled, unverified, wrong PIN, idle too long, or the session moved on; the answer carries the token presented, an access token that verifies from now on, and its lifetime |
| AnswerTheorems.UnlockAnswers | src/auth/auth.service.ts:197-224 | the same for an unlock, with the PIN first |
| AnswerTheorems.UnknownToken | src/auth/auth.service.ts:488-514 | without such a session both are refused without a write |
| AnswerTheorems.AnsweredTokenFinds | src/auth/auth.service.ts:488-514 | over all runs, a refresh token answered by a login, refresh or unlock later finds its session and no other, while it is live, if and only if fewer than 50 live sessions precede it |
| AnswerTheorems.GuardAnswers | src/auth/jwt-auth.guard.ts:21-67 | which of its refusals the guard gives, and what a granted request carries |
| AnswerTheorems.RegisterAnswers | src/auth/auth.service.ts:79-99 | a registration is refused exactly for an address that is held; otherwise it adds one unverified user with these credentials and one code with the text drawn, and answers by the fate of the mail |
| AnswerTheorems.ResendAnswers | src/auth/auth.service.ts:115-129 | a resend is refused for a verified address, answers the wait within the cooldown, and otherwise stores the code drawn |
| AnswerTheorems.RequestResetAnswers | src/auth/auth.service.ts:248-252 | a reset request stores the code drawn for the holder of the address |
| AnswerTheorems.WaitIsRestOfMinute | src/auth/auth.service.ts:645-663 | the wait answered is the rest of the minute after the outstanding code, in whole seconds rounded up |
| AnswerTheorems.VerifyAnswers | src/auth/auth.service.ts:101-113 | without a usable code nothing is written; a wrong text costs one attempt; the right one consumes the code and verifies the address now, and changes nothing else |
| AnswerTheorems.ResetAnswers | src/auth/auth.service.ts:254-277 | the same for a reset, whose success stores the new password |
| AnswerTheorems.EnrolAnswers | src/auth/auth.service.ts:300-331 | an enrolment is refused for a missing user, a wrong PIN or a device another user holds; otherwise the device holds the key, is enabled and has no challenge |
| AnswerTheorems.SettingAnswers | src/auth/auth.service.ts:341-369 | only the owner stores the setting, and the challenge is dropped |
| AnswerTheorems.ChallengeAnswers | src/auth/auth.service.ts:371-396 | an enabled device of an active, verified user stores the challenge that is answered, for 300000 ms |
| AnswerTheorems.BiometricLoginAnswers | src/auth/auth.service.ts:398-431 | a biometric login is refused for a device that does not store this challenge unexpired, a bad signature, or an inactive owner, in this order; otherwise it opens a session and uses the challenge up |
| HistoryTheorems.ColumnsFromHistory | src/auth/auth.service.ts:79-277 | over all runs, each user row holds the password of its creation or last successful reset, the PIN of its creation, and the address, status, role, tier and limits last set |
| HistoryTheorems.VerifiedFromHistory | src/auth/auth.service.ts:101-113 | an address is verified if and only if an administrator created the user or a verification succeeded |
| HistoryTheorems.LoginExactlyWhen | src/auth/auth.service.ts:131-141 | over all runs, a login is answered tokens if and only if the status last set is active, the address was verified before and the password is the one last given |
| HistoryTheorems.RefreshExactlyWhen | src/auth/auth.service.ts:143-224 | over all runs, a refresh token answered before is good for a refresh or unlock if and only if its session is among the first 50, the owner is active, the PIN is that of the creation, and the session was not idle too long |
| HistoryTheorems.RevokedExactlyWhen | src/auth/auth.service.ts:226-277 | over all runs, a session that exists is revoked if and only if since its opening it was logged out, its owner suspended, or its owner's password reset |
| HistoryTheorems.DeviceFromHistory | src/auth/auth.service.ts:300-369 | over all runs, a device holds the key of its last enrolment and the setting last stored |
| Columns.CallTracks | src/auth/auth.service.ts:79-431 | which calls write which columns of users, sessions and devices, with which of their arguments, for every call |
| ReviewTheorems.DecisionIsFinal | src/kyc/kyc.service.ts:140-171 | an approved or rejected submission keeps its whole row while it exists and never promotes again |
| ReviewTheorems.PromotesAtMostOnce | src/kyc/kyc.service.ts:110-138 | each submission promotes its user at most once |
| ReviewTheorems.DecidingAgainChangesNothing | src/kyc/kyc.service.ts:110-171 | along a run, approving or rejecting a decided submission again leaves the whole state unchanged, limits edited since included, and succeeds if and only if it repeats the approval of an approved submission that still exists |
| ReviewTheorems.TierMatchesReview | src/kyc/kyc.service.ts:116-137 | a self-registered user whose tier no successful admin call has set is in the second tier if and only if they have an approved submission |
| AdminAnswers.CreateUserAnswers | src/admin/admin.service.ts:51-73 | a creation is refused exactly for an address that is held; otherwise it adds one user, verified now, with the credentials, role and tier given or the defaults |
| AdminAnswers.UpdateUserAnswers | src/admin/admin.service.ts:94-109 | a change is refused exactly for a missing user or an address another user holds |
| AdminAnswers.UserAnswers | src/admin/admin.service.ts:80-155 | limits, suspension and activation are refused exactly for a missing user, and write one user row |
| AdminAnswers.DeleteAnswers | src/admin/admin.service.ts:157-166 | a deletion is refused for the own account and a missing user; otherwise every table loses exactly the rows of that user |
| AdminAnswers.SubmitAnswers | src/kyc/kyc.service.ts:20-31 | a submission of an existing user is stored as pending with nothing decided |
| AdminAnswers.ApproveAnswers | src/kyc/kyc.service.ts:110-138 | an approval is refused for a missing or rejected submission and changes nothing for an approved one; a pending one becomes approved by this administrator now, without a reason, and its user gets the second tier with 5000000 a day and 50000000 a month |
| AdminAnswers.RejectAnswers | src/kyc/kyc.service.ts:140-155 | a rejection is refused for a missing, rejected or approved submission; a pending one becomes rejected by this administrator now, with the reason given or the one it had |
| Invariants.Reachable | prisma/schema.prisma:70-209 | unique e-mails, foreign keys, verified session owners, one outstanding code per user and purpose, a verification code outstanding exactly for unverified users, and fresh tokens hold in every state of every run |
| Invariants.InvKept | src/auth/auth.service.ts:79-431 | every call keeps that invariant |
| Summaries.CallFollows | src/auth/auth.service.ts:79-606 | what one step can do to each row, for every call in every state with fresh identifiers |
| Interleaved.RevocationStays | src/auth/auth.service.ts:226-238 | with every database call and clock reading a step, the revocation time of a session once set is what its row says for ever |
| Interleaved.RevocationWins | src/auth/jwt-auth.guard.ts:40-53 | after a revocation no guard lookup finds the session, for any access token, one signed later by a refresh that read the row before included, and for any earlier reading of the clock |
| Interleaved.PassedMeansNotYetRevoked | src/auth/jwt-auth.guard.ts:40-67 | a request let through did its lookup at a moment up to which its session had never been revoked or deleted |
| InterleavedLapse.RevokedInFlight | src/auth/auth.service.ts:167-183 | a schedule from the empty tables in which a refresh past its checks writes and signs after the revocation of its session: the token is unexpired and no later guard lookup ever accepts it |
| InterleavedLapse.LapseReopensExactlyWhen | src/auth/auth.service.ts:143-224 | from any reachable world, further steps can make a session live if and only if it is unrevoked and there is a (possibly empty) chain of distinct requests in flight, each able by what it holds, and by the times the one before it wrote, to find the session and pass its checks under the most generous policy, whose last written expiry lies ahead |
| InterleavedLapse.LapseWithoutWriterIsPermanent | src/auth/auth.service.ts:488-526 | a session that is not live while no refresh or unlock is in flight that asks by its token or has found it is never live again, under any schedule |
| InterleavedLapse.OneClearsTheWayForTheOther | src/auth/auth.service.ts:143-178 | a reachable world in which neither of two refreshes in flight can bring a lapsed session back alone, and the two one after the other can |
| InterleavedLapse.LapseIsUndone | src/auth/auth.service.ts:170-178 | a schedule from the empty tables in which a session expires between the readings and the write of a refresh and is live again after the write |
| InterleavedLapse.LapseIsUndoneByLateQuery | src/auth/auth.service.ts:143-153 | a schedule from the empty tables in which a session expires when a refresh has read the clock and nothing else, the query finds it all the same, and it is live again |
| Interleaved.TokensNameOwner | src/auth/auth.service.ts:469-486 | under any interleaving an access token names the owner of its session while that session exists |
| Interleaved.SessionsAreOwned | src/auth/auth.service.ts:441-457 | under any interleaving every session belongs to an existing user with a verified address |
| Interleaved.UninterruptedIsSerial | src/auth/auth.service.ts:143-224 | the database calls of a refresh or unlock, uninterrupted, leave the rows of the serial call |
| InterleavedLogin.ReturnsExactlyWhen | src/auth/auth.service.ts:131-141 | from a reachable world in which a user is not active and has no unrevoked session, steps that do not reactivate the user can lead to an unrevoked session of theirs if and only if the user exists and a login of theirs is in flight past its checks |
| InterleavedLogin.SuspensionHolds | src/admin/admin.service.ts:129-145 | after a suspension with no login of the user in flight, no guard lookup of theirs succeeds until reactivation, under any interleaving |
| InterleavedLogin.LoginOutlivesSuspension | src/auth/auth.service.ts:441-467 | a schedule from the empty tables in which a login past its checks inserts its session after the suspension and the guard lets its request through while the user is disabled |
| InterleavedCodes.OverlapBoundsGuesses | src/auth/auth.service.ts:568-606 | with at most m requests past the attempts check of a code at once, stopped ones included, it is compared at most 4 + m times and accepted at most m times, under any interleaving with reissues and deletions |
| InterleavedCodes.BoundsAreReached | src/auth/auth.service.ts:583-606 | for every m from 1 on, a schedule in which at most m overlap, 4 + m comparisons are made and m of them succeed |
| InterleavedDevices.OverlapBoundsLogins | src/auth/auth.service.ts:398-431 | a challenge lets in at most as many logins as were in flight on it at once, under any interleaving with new challenges, enrolments and changes |
| InterleavedDevices.TwoLoginsAnswerOneChallenge | src/auth/auth.service.ts:402-431 | a schedule in which two logins read one challenge before either clears it, and both are let in |
| InterleavedSerial.LoginIsSerial | src/auth/auth.service.ts:131-141 | the steps of a login, uninterrupted, leave the rows and the signed token of the serial call |
| InterleavedSerial.GuardIsSerial | src/auth/jwt-auth.guard.ts:16-67 | the steps of the guard, uninterrupted, let a request through if and only if the serial guard grants it |
| InterleavedSerial.EntryIsSerial | src/auth/auth.service.ts:568-606 | the steps of entering a code, uninterrupted, count, consume or leave the row that the serial call does |
| InterleavedSerial.IssueIsSerial | src/auth/auth.service.ts:543-566 | the two writes of an issue leave the codes of the serial call |
| InterleavedSerial.BiometricIsSerial | src/auth/auth.service.ts:398-431 | the steps of a biometric login, uninterrupted, leave the devices of the serial call and let in exactly when it does, for an active, verified owner |
| InterleavedSerial.LogoutIsSerial | src/auth/auth.service.ts:226-238 | the single write of a logout is the serial call |
| InterleavedSerial.SuspensionIsSerial | src/admin/admin.service.ts:129-145 | so is that of a suspension |
| InterleavedSerial.ResetIsSerial | src/auth/auth.service.ts:258-274 | the transaction of a reset leaves the users and sessions of the serial call |
| InterleavedSerial.DeletionIsSerial | src/admin/admin.service.ts:157-166 | so does the write of a deletion |
| InterleavedSerial.ChallengeIsSerial | src/auth/auth.service.ts:380-388 | the write of a challenge leaves the devices of the serial call |
| InterleavedSerial.EnrolmentIsSerial | src/auth/auth.service.ts:314-331 | so does that of an enrolment |
| InterleavedSerial.SettingIsSerial | src/auth/auth.service.ts:354-361 | and that of a setting |
| Webhook.AtMostOnce | src/webhooks/reepay-webhook.service.ts:21-54 | for any interleaving of any deliveries of an event id, failing or stopping anywhere, writes that take effect and are reported as errors included, at most one notification is inserted and at most one delivery is answered duplicate: false |
| Webhook.RowsAreStable | src/webhooks/reepay-webhook.service.ts:56-104 | type, payload and signature flag of an event row never change and its status never moves back from FAILED to PROCESSED to RECEIVED |
| Webhook.StatusMovesOnce | src/webhooks/reepay-webhook.service.ts:73-92 | when every error means that nothing was written, a row that has left RECEIVED never changes again |
| Webhook.RowsAgreeWithNotifications | src/webhooks/reepay-webhook.service.ts:56-129 | PROCESSED means exactly one notification if the payload names a customer and none otherwise; an invalid signature means FAILED and none; every notification carries customer, type and payload of its row |
| Webhook.NotificationsHaveRows | src/webhooks/reepay-webhook.service.ts:34-71 | every notification belongs to an event row with a valid signature |
| Webhook.OnlySignedDeliveriesCount | src/webhooks/reepay-webhook.service.ts:21-54 | under every schedule, a delivery past the checks or answered as accepted carries five non-empty headers and a good signature; a finished one is answered 400 if and only if a header is missing, and 401 if and only if none is and the signature is bad |
| Webhook.RowFlagIsSignature | src/webhooks/reepay-webhook.service.ts:34-43 | under every schedule, each row was inserted for a delivery of its event id, type and payload, and its flag says whether that delivery was well signed |
| Webhook.NotifiedMeansSigned | src/webhooks/reepay-webhook.service.ts:56-71 | under every schedule, each notification goes to the customer named by a well signed delivery of its event |
| Webhook.NotificationTexts | src/webhooks/reepay-webhook.service.ts:191-197 | the title and body of a notification, with each dot of the type a space |
| Webhook.InvKept | src/webhooks/reepay-webhook.service.ts:34-129 | every step of every handler keeps the agreement of rows, owners, handlers and notifications |
| Webhook.CustomerIdIsFirstUsable | src/webhooks/reepay-webhook.service.ts:181-189 | the customer id is the first non-blank string of three places, and absent if and only if none is usable |
| WebhookService.CompleteKeepsInv | src/webhooks/reepay-webhook.service.ts:21-54 | a delivery that is not stopped always answers, and keeps the protocol's invariant |
| WebhookService.RefusedDelivery | src/webhooks/reepay-webhook.service.ts:28-32 | a whole delivery without all headers changes nothing and is answered 400; one with a bad signature notifies nobody, leaves a failed row if none was there and it can be written, and is answered 401 |
| WebhookService.DuplicateDelivery | src/webhooks/reepay-webhook.service.ts:44-50 | a whole, well signed delivery of a known event changes nothing and is answered duplicate: true |
| WebhookService.FirstDelivery | src/webhooks/reepay-webhook.service.ts:56-104 | a whole, well signed first delivery is answered duplicate: false; its row is PROCESSED if and only if nobody is named or the customer exists and notification and mail go through, and the notification is there if and only if its insert took effect |
| WebhookService.ReepayWebhookService.Handle | src/webhooks/reepay-webhook.service.ts:21-54 | leaves the tables, and gives the answer, of that handler's protocol steps taken one after the other, and keeps the invariant; answers 400 exactly without all headers and 401 exactly for a bad signature, and then adds no notification |
| WebhookService.ReepayWebhookService.InsertEvent | src/webhooks/reepay-webhook.service.ts:34-53 | the same from the insert on |
| WebhookService.ReepayWebhookService.ProcessAcceptedEvent | src/webhooks/reepay-webhook.service.ts:56-104 | the same from the accepted event on |
| WebhookService.ReepayWebhookService.MarkProcessed | src/webhooks/reepay-webhook.service.ts:73-82 | the same from the PROCESSED mark on; a mark that threw leads to the failed mark, whether or not it took effect |
| WebhookService.ReepayWebhookService.MarkFailed | src/webhooks/reepay-webhook.service.ts:83-92 | the same from the FAILED mark on |
| WebhookService.ReepayWebhookService.CreateForUser | src/notifications/notifications.service.ts:97-120 | the same from the insert of the notification on, the e-mail included |
| WebhookService.ReepayWebhookService.SendEmailIfEnabled | src/notifications/notifications.service.ts:122-142 | the same from the e-mail on |
| WebhookService.ReepayWebhookService.PersistInvalidSignatureEvent | src/webhooks/reepay-webhook.service.ts:106-140 | the same for a delivery with a bad signature |
| ReepayClient.ReepayClientService.Request | src/reepay-client/reepay-client.service.ts:43-72 | ends with the first attempt among the first three of a GET, or the only one of any other verb, that is not an error on the way, or with the last; returns or throws accordingly, records exactly that many attempts, numbered from one, with one request id, and never reaches the statement after the loop |
| ReepayClient.ReepayClientService.Send | src/reepay-client/reepay-client.service.ts:74-129 | one recorded attempt, also when it fails before anything is sent, whose outcome is the class of what came back |
| ReepayClient.SettledByDecidingAttempt | src/reepay-client/reepay-client.service.ts:106-126 | every attempt before the deciding one ended in an error on the way; data is returned if and only if the deciding one is a 2xx response with a data property; a timeout or network exception surfaces only after all N attempts, classified by the last error; exceptions carry the request id and no status above 502 |
| ReepayClient.ResponseClasses | src/reepay-client/reepay-client.service.ts:175-205 | a 2xx with a data property is data and without one a 502; any other answer keeps a status below 500 and takes code, message and details from the error of the body, or else from the status |
| ReepayClient.ErrorClasses | src/reepay-client/reepay-client.service.ts:207-222 | an error on the way ends as a 502 that says timeout or network, and names the path |
| SessionPolicy.UpdateRoundTrip | src/auth/session-policy.service.ts:62-89 | after an update each supplied field reads back as its clamped value through decimal text, and every other field as before |
| SessionPolicy.UpdateReadsBack | src/auth/session-policy.service.ts:62-89 | the same for an update request whose fields may each be left out, read back as a whole policy |
| SessionPolicy.UpsertRoundTrip | src/auth/session-policy.service.ts:71-84 | the same for one upsert |
| SessionPolicy.UpsertsCommute | src/auth/session-policy.service.ts:69-86 | the upserts may land in any order |
| SessionPolicy.UpdateIsIdempotent | src/auth/session-policy.service.ts:62-86 | the same update twice is the update once |
| SessionPolicy.PolicyRangeIsExact | src/auth/session-policy.service.ts:35-60 | over all texts that may be stored, a lifetime can be read as a value if and only if the value lies within its limits |
| SessionPolicy.PolicySource | src/auth/session-policy.service.ts:13-60 | a stored row decides alone, else the process environment is read the same way; without either, and for an empty or non-numeric text, the lifetimes are 300, 432000 and 300 seconds |
| SessionPolicy.PolicyNames | src/auth/session-policy.service.ts:19-29 | the three keys and the limits of each lifetime |
| SessionPolicy.ClampIsNearest | src/auth/session-policy.service.ts:104-107 | clamping gives the value within the limits nearest to the one supplied |
| SessionPolicy.FloorClampCommute | src/auth/session-policy.service.ts:96-107 | flooring and clamping a real number commute |
| Text.PrintParse | src/auth/session-policy.service.ts:75-101 | the decimal digits of a natural number parse as that number, up to the overflow of doubles; below 10^21 these digits are what `String(n)` prints |
| Text.SignedParse | src/auth/session-policy.service.ts:96-101 | a sign before decimal digits is read as one |
| Text.FractionParse | src/auth/session-policy.service.ts:96-101 | digits on both sides of a point are read as the decimal fraction |
| Text.NumberIgnoresMargins | src/auth/session-policy.service.ts:96-101 | white space around a text does not change the number read |
| Text.SameAddress | src/auth/auth.service.ts:632-634 | addresses that differ in the case of ASCII letters and in white space around them are one address |
| Text.OtherAddress | src/auth/auth.service.ts:632-634 | and no others are |
| Json.Lookups | src/webhooks/reepay-webhook.service.ts:207-227 | which strings and records are found under a key: a string exactly if it is not blank, kept as it is |
| AuthService.AuthService.Register | src/auth/auth.service.ts:79-99 | refused without a write when the normalised address is held; otherwise one unverified first-tier user and one code, mail or no mail; exactly the step of the serial machine, invariant kept |
| AuthService.AuthService.VerifyEmail | src/auth/auth.service.ts:101-113 | answers Done only if the holder of the address is now verified; a wrong code costs one attempt; exactly the step of the serial machine, invariant kept |
| AuthService.AuthService.ResendEmailOtp | src/auth/auth.service.ts:115-129 | within the cooldown nothing is written and the remaining seconds are answered; exactly the step of the serial machine, invariant kept |
| AuthService.AuthService.Login | src/auth/auth.service.ts:131-141 | tokens only for an active, verified holder of the address whose password was given; exactly the step of the serial machine, invariant kept |
| AuthService.AuthService.Refresh | src/auth/auth.service.ts:143-195 | the scan loop with its early exits equals the serial step for the newest-first order it read; tokens answer the refresh token presented, and only for the PIN of the owner of its session |
| AuthService.AuthService.UnlockWithPin | src/auth/auth.service.ts:197-224 | find, then check, equals the serial step for the newest-first order it read; tokens answer the refresh token presented, and only for the PIN of the owner of its session |
| AuthService.AuthService.Logout | src/auth/auth.service.ts:226-238 | the session, if it exists, is revoked afterwards and keeps an earlier revocation time; exactly the step of the serial machine, invariant kept |
| AuthService.AuthService.RequestPasswordReset | src/auth/auth.service.ts:248-252 | replaces the outstanding reset code without any cooldown by the code drawn; exactly the step of the serial machine, invariant kept |
| AuthService.AuthService.ConfirmPasswordReset | src/auth/auth.service.ts:254-277 | answers Done only if the holder of the address has the new password and no unrevoked session; exactly the step of the serial machine, invariant kept |
| AuthService.AuthService.RegisterBiometric | src/auth/auth.service.ts:300-339 | refused when another user holds the device; otherwise the device is enabled without a challenge; exactly the step of the serial machine, invariant kept |
| AuthService.AuthService.UpdateBiometricSetting | src/auth/auth.service.ts:341-369 | only the owner; the challenge is dropped; exactly the step of the serial machine, invariant kept |
| AuthService.AuthService.CreateBiometricChallenge | src/auth/auth.service.ts:371-396 | a fresh challenge for an enabled device of an active, verified user; exactly the step of the serial machine, invariant kept |
| AuthService.AuthService.LoginWithBiometric | src/auth/auth.service.ts:398-431 | a login leaves no challenge on the device; exactly the step of the serial machine, invariant kept |
| AuthService.AuthService.IssueOtp | src/auth/auth.service.ts:543-566 | consumes all outstanding codes of the user and purpose and adds exactly one, whether or not the mail goes out |
| AuthService.AuthService.ConsumeOtp | src/auth/auth.service.ts:568-606 | compares at most the newest live code; counts a failure, consumes on success, changes nothing without a comparison |
| AuthService.AuthService.GetOtpRetryAfterSec | src/auth/auth.service.ts:645-663 | the whole seconds left of the cooldown of the newest outstanding code |
| AuthService.AuthService.CreateSession | src/auth/auth.service.ts:441-467 | one session row with the lifetime in force and one signed token |
| AuthService.AuthService.FindActiveSessionByRefreshToken | src/auth/auth.service.ts:488-514 | the first match on the first fifty of a newest-first listing of the live sessions |
| AuthService.JwtAuthGuard.CanActivate | src/auth/jwt-auth.guard.ts:16-68 | grants if and only if the token verifies, is unexpired in whole seconds, its session is live and its user's, and idle no longer than the policy in force; exactly the step of the serial machine |
| Database.Database.FindUserByEmail | src/auth/auth.service.ts:608-620 | the user holding the normalised address, or none |
| Database.Database.FindNewestOtp | src/auth/auth.service.ts:569-581 | the newest outstanding, optionally unexpired, code |
| Database.Database.DeleteUserRow | prisma/schema.prisma:143-205 | the user row goes with every session, code, device and submission of that user, and nothing else |
| Database.Database.FindLiveNewestFirst | src/auth/auth.service.ts:145-159 | exactly the live sessions, newest first, each once |
| AuthCalls.FindByEmail | src/auth/auth.service.ts:608-620 | finds a user with the normalised address, and none only if there is none |
| AuthCalls.CheckOtp | src/auth/auth.service.ts:568-598 | a comparison happens only on an outstanding, unexpired code with attempts left, and succeeds if and only if the trimmed text matches |
| AdminService.SessionPolicyService.UpdatePolicy | src/auth/session-policy.service.ts:62-89 | equal to the step of the serial machine; the policy it answers has the clamped value of each supplied field and the value before the call of each omitted one |
| AdminService.AdminService.CreateUser | src/admin/admin.service.ts:51-73 | refused when the address is held; otherwise one user, verified at once; exactly the step of the serial machine, invariant kept |
| AdminService.AdminService.UpdateUser | src/admin/admin.service.ts:94-109 | of all tables only the row of that user changes, and of it only the supplied columns; an address held by another user is refused; exactly the step of the serial machine, invariant kept |
| AdminService.AdminService.UpdateUserLimits | src/admin/admin.service.ts:80-92 | of all tables only the row of that user changes, and of it only the supplied tier and limits; exactly the step of the serial machine, invariant kept |
| AdminService.AdminService.SuspendUser | src/admin/admin.service.ts:129-145 | answers Done only if the user is disabled and none of their sessions is unrevoked; exactly the step of the serial machine, invariant kept |
| AdminService.AdminService.ActivateUser | src/admin/admin.service.ts:147-155 | of all tables only the row of that user changes, and of it only the status; revoked sessions stay revoked; exactly the step of the serial machine, invariant kept |
| AdminService.AdminService.DeleteUser | src/admin/admin.service.ts:157-166 | answers Done only if the user and their sessions are gone, never for the own account; exactly the step of the serial machine with its cascade, invariant kept |
| AdminService.AdminService.UpdateEnvironmentVariable | src/admin/admin.service.ts:181-201 | one variable holds the new value and nothing else changes, policy variables included; exactly the step of the serial machine, invariant kept |
| AdminService.KycService.Submit | src/kyc/kyc.service.ts:20-31 | one pending submission of an existing user; exactly the step of the serial machine, invariant kept |
| AdminService.KycService.Approve | src/kyc/kyc.service.ts:110-138 | answers Done only if the submission is approved, promoting only one that was pending; exactly the step of the serial machine, invariant kept |
| AdminService.KycService.Reject | src/kyc/kyc.service.ts:140-155 | answers Done only if the submission is rejected, never for an approved one; exactly the step of the serial machine, invariant kept |

## Left out

- ToNumber: works on exact values; the rounding of a decimal literal to the nearest double is not modelled, only the overflow to infinity.
- Decimal: prints plain digits; the exponent notation of `String(n)` from 10^21 on is not modelled, and no stored lifetime or status comes near it.
- NormalizeEmail: lower-cases ASCII letters only; the Unicode rules of `toLowerCase` are not modelled.
- Hashes: bcrypt, HMAC, RSA and JWT signatures are match predicates; a hash is the text it was made from, a token verifies when it was signed here, and bcrypt's cut at 72 bytes is not modelled.
- Randomness: identifiers, refresh tokens and challenges are fresh values of a counter; six-digit codes are arbitrary arguments and may repeat.
- The clock: a serial call reads it once; several readings inside one call appear only in the interleaved modules. The database and the service share one clock.
- One Prisma call is one step, also where it sends several statements, and so is one transaction.
- Two overlapping calls of the review service, and two overlapping reissues of a code: stated for serial runs only.
- In `Interleaved`, which user row a login or a device leads to is an argument of the step, and a PIN never changes; the start-up script that can reset one is left out below.
- User columns that nothing here reads: name, phone, picture, e-mail preference and `deletionStatus`, which no service sets to DELETED; the default-admin start-up script that can reset a row.
- The error code of a missing JWT secret: it is thrown inside the block that turns every unknown error into AUTH_INVALID_TOKEN, so callers see only the latter.
- The `sensitive` flag and author of environment variables, and redaction in listings.
- Read-only calls: verifyPin and listing calls; verifyPin's comparison is part of refresh, unlock and device registration.
- Wallet, FX, deposits, payouts, transactions and beneficiaries: they forward to Reepay without money arithmetic of their own, or are plain rows.
- Request validation, controllers, filters, logging, uploads, HTTP headers and URL building, and the text of e-mails.
