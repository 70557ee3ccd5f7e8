# Accounts and sessions, verified

A Dafny model of the account and session protocol of a Go API server: refresh-token rotation with reuse
detection, e-mail verification, password and provider sign-in, linking and unlinking, the browser
sign-in flow, the in-memory rate limiter that guards them, the password-hash format and the client
version gate.

The database is shared state. The protocols are state machines whose steps are single SQL statements,
with any number of requests in flight; a request may stop after any statement (a failed statement, a
lost connection, a crash), the clock may move and the sweeper may run at any moment. Theorems quantify
over every run of these machines. Beside them, each use case is a method of a class over a store
class, written statement by statement as the Go code is, and proved to compute a function from the
tables before to the tables and the answer after; whole requests are proved to be runs of the machines.

| file | what it holds |
|---|---|
| `Core.dfy`, `Text.dfy` | results, identifiers, the clock, token hashes; trimming, lower case, splitting, decimal |
| `RefreshTokens.dfy`, `Rotation.dfy` | the `refresh_tokens` table and the interleaved rotation machine with its invariant |
| `RotationSafety.dfy` | conservation, absorbing death, reuse detection both ways, logout, the linear chain |
| `RotationSweep.dfy` | the sweeper changes no answer, and why the grace is exactly long enough |
| `HonestClient.dfy` | the server composed with a client, cookie and body transport |
| `AccountTables.dfy`, `Accounts.dfy` | users, identities and links, and the interleaved account machine over the rotation machine |
| `AccountSafety.dfy` | no unverified principal, provenance, stable resolution, never locked out |
| `VerificationLinks.dfy` | the link table refines a board with one current link per user |
| `BrowserFlow.dfy` | single-use states of the browser flow |
| `AccountSweep.dfy` | the sweeper changes no answer of the whole account machine |
| `Requests.dfy`, `RequestRuns.dfy` | use cases as functions on tables, and why they are runs of the machines |
| `Answers.dfy` | what every use case answers and leaves behind, case by case, from columns, characters and literals |
| `OneAtATime.dfy` | what holds when requests run one at a time, from the empty database on |
| `Store.dfy`, `Service.dfy` | the store and the service as classes, proved against those functions |
| `Journeys.dfy` | theorems over several use cases in a row |
| `RateLimit.dfy` | the limiter with eviction against the one that never evicts |
| `Password.dfy` | base64, the password-hash string, hashing and verifying |
| `AppVersion.dfy` | version parsing, the order it induces, the gate |

`dafny verify dfyconfig.toml` checks the whole project.

## What a reader should know

- **Revoking does not reach an INSERT in flight.** A family revoke kills a family exactly when no
  rotation of it is pending (`RotationSafety.RevokeKillsExactlyWithoutMinter`), and
  `RotationSafety.SuccessorEscapesRevoke` is a run in which the successor lives on. When requests run
  one at a time, even if they stop half-way, every revoke is final whatever comes after it
  (`OneAtATime.EveryRevokeIsFinal`, `ReplayEndsTheSession`, `LogoutEndsTheSession`).
- **Overlapping unlinks can lock a user out** (`AccountSafety.OverlappingUnlinksLockOut`, reached from the
  empty database in `LockOutIsReachable`). The guard holds when no user has two unlinks in flight
  (`NeverLockedOut`), so when requests run one at a time (`OneAtATime.NobodyIsLockedOut`), and the DELETE
  by itself is safe exactly when two methods are still there (`UnlinkLeavesAWayInExactlyWhen`).
- **Overlapping resends can leave two working links** (`VerificationLinks.OverlappingResendsLeaveTwoLinks`).
  With whole requests there is one (`OneRedeemableLink`), and sending keeps it at one exactly when no
  unused link is left at that moment (`MailKeepsOneLinkExactlyWhen`).
- **The comment at internal/appversion/appversion.go:32-34 does not describe the code.** It says an
  unparseable version is never forced to upgrade; the code compares it as zero.
  `AppVersion.UnparseableIsForcedExactlyWhen` gives the exact condition and `AppVersion.GarbageIsForced`
  an instance.
- **Eviction is invisible exactly when `burst <= rate * idleTTL`** (`RateLimit.EvictionIsInvisibleExactlyWhen`),
  which the three limiters the server builds by default satisfy.

## Idealisations

Identifiers and opaque tokens are fresh when drawn; SHA-256 is injective; Argon2 is any function, and
panics, which the server answers as an internal error, when a stored hash asks for no pass or no thread;
there is one clock, in seconds, that does not go back; an expiry may have been computed any time before its
INSERT; text is ASCII. `rate.Limiter` is the exact token bucket over reals. What a provider reports is an
arbitrary input, and so is whether it accepts a code or an ID token. An access token is the capability
"issued for user u". Statements that fail with a database error appear as stopped requests in the
machines; the methods of `Service` assume the store answers, except where the code reads meaning from a
missing row or a unique violation.

## Model

| member | source | states |
|---|---|---|
| RotationSafety.OneSlotPerFamily | internal/auth/session.go:76-120 | in every reachable interleaved state a family has at most one unused unrevoked row or pending INSERT, counted together |
| RotationSafety.PotentialAtMostOne | internal/db/queries/refresh_tokens.sql:1-15 | the same from any state that satisfies the invariant |
| RotationSafety.PotentialNeverGrows | internal/auth/session.go:70-116 | after a family is born no step of any request, the sweeper or the clock raises that number |
| RotationSafety.DeadFamilySpendsNothing | internal/db/queries/refresh_tokens.sql:5-28 | a family with nothing live and nothing pending stays so, and spends and issues no token in the next step |
| RotationSafety.DeathIsAbsorbing | internal/auth/session.go:104-163 | nor in any continuation, however requests, sweeps and the clock interleave |
| RotationSafety.RevokeKillsExactlyWithoutMinter | internal/auth/session.go:137-142 | a family revoke leaves every stored row of the family revoked, and leaves the family dead if and only if no INSERT of it is pending |
| RotationSafety.SuccessorEscapesRevoke | internal/auth/session.go:110-113 | a run in which a Logout revokes the family of a token just spent, and the successor inserted afterwards can still be spent |
| RotationSafety.ReuseIsDetected | internal/auth/session.go:104-143 | in any reachable state a Refresh that presents a spent token before its expiry plus 30 days leaves no unrevoked row in the family, and a dead family if no INSERT was pending |
| RotationSafety.ReuseIsFinal | internal/auth/session.go:122-143 | after that, if no INSERT of the family was pending when the replay arrived, no continuation spends another token of it |
| RotationSafety.LookupCatchesExactlyTheSpent | internal/auth/session.go:125-137 | under any interleaving, the look-up after a failed spend goes on to revoke the token's family if and only if the token had been spent |
| RotationSafety.RevokedOnlyAfterReuseOrLogout | internal/auth/session.go:104-163 | a row is revoked only in a family one of whose tokens was presented to two different Refresh calls or to Logout; expiry, an unknown token or a lost answer is never enough |
| RotationSafety.LogoutKills | internal/auth/session.go:148-163 | Logout of a stored token revokes every stored row of its family, and leaves it dead if and only if no INSERT was pending |
| RotationSafety.LogoutIsFinal | internal/auth/session.go:145-163 | after a Logout with no INSERT of the family pending, no continuation spends or revives a token of it |
| RotationSafety.LinearChain | internal/auth/session.go:74-116 | the tokens ever inserted in a family are distinct and spent in the order they were inserted, all but the last exactly once, all for the family's one user |
| RotationSafety.InsertStores | internal/auth/session.go:61-95 | the row an INSERT stores has the session's user and family, its platform if it has one, and lives for the web lifetime exactly when the platform is "web" and for the mobile one otherwise |
| RotationSafety.RowsAreWrittenOnce | internal/db/queries/refresh_tokens.sql:9-28 | over any run a row keeps its user, family, platform and expiry, and each of its two stamps is written at most once, with the time it is |
| OneAtATime.EveryRevokeIsFinal | internal/auth/session.go:122-163 | when the requests before it ran one at a time, a family revoke is final in every continuation, interleaved or not: no token of the family is spent, spendable or on its way |
| OneAtATime.ReplayEndsTheSession | internal/auth/session.go:104-143 | after any requests served one after another, a Refresh that presents a spent token within its grace ends the session in every continuation |
| OneAtATime.LogoutEndsTheSession | internal/auth/session.go:148-163 | after any requests served one after another, a Logout of any stored token of a session ends it in every continuation |
| OneAtATime.RefreshIsARequest | internal/auth/session.go:104-143 | a whole Refresh has one start and leaves nothing in flight, so it is one of the requests the two theorems above are about |
| OneAtATime.SignInIsARequest | internal/auth/oidc.go:46-105 | a whole provider sign-in, in every branch, has one start and leaves nothing in flight |
| Rotation.StepKeepsInv | internal/auth/session.go:70-163 | every single SQL statement of login, refresh and logout, every sweep and every stop keeps the protocol invariant |
| Rotation.ReachableInv | internal/auth/session.go:70-163 | the invariant holds at the end of every run |
| RotationSweep.SweepIsInvisible | internal/auth/sweep.go:18-29 | deleting expired refresh tokens anywhere in an interleaved run changes no answer of Refresh or Logout, no history and no spendable token, when no token is looked up 30 days or more after expiry |
| RotationSweep.SweepSimulation | internal/db/queries/refresh_tokens.sql:30-34 | the swept and the unswept run go on agreeing on everything but rows past their grace |
| RotationSweep.SweepShowsExactlyAfterGrace | internal/auth/sweep.go:8-11 | for a stored token a sweep changes the answer of the next look-up exactly when the grace is over and, for Refresh, the token had been spent |
| RotationSafety.SweepKeepsThirtyDays | internal/auth/sweep.go:8-11 | a sweep keeps exactly the rows that expired less than 2592000 seconds ago, unchanged |
| AccountSweep.SweepIsInvisible | internal/auth/sweep.go:13-29 | dropping every deletion of links and refresh tokens from a run of the account machine changes no answer of VerifyEmail, Refresh or Logout, nothing but the rows deleted, and not which links and tokens can be used, when no refresh token is looked up 30 days or more after expiry |
| HonestClient.HonestClientIsNeverRevoked | internal/auth/handler.go:47-94 | a client that holds one session, refreshes one request at a time with the token last delivered and receives every answer never has its family revoked, whatever header it sends and whatever others do |
| HonestClient.HonestRefreshSucceedsUntilExpiry | internal/auth/handler.go:62-82 | at any point of such a life a refresh is accepted if and only if the held token has not expired |
| HonestClient.RefreshIsStoredAsAsked | internal/auth/handler.go:62-82 | at any point of such a life a refresh that is answered stores a web token of the web lifetime for a browser, whatever its header says, and for an app a token of its header's platform and of that platform's lifetime |
| HonestClient.BodyWins | internal/auth/handler.go:84-94 | a token in the body is taken before one in the cookie, and an empty one counts for none |
| HonestClient.LoginIsDelivered | internal/auth/handler.go:149-168 | a login is answered by cookie exactly when the header says "web" and in the body otherwise, never in both |
| HonestClient.NextStaysHonest | internal/auth/handler.go:152-168 | each event of such a life, of the client or of anybody else, leaves the client holding the last token of its chain |
| HonestClient.HeldIsSpendable | internal/db/queries/refresh_tokens.sql:9-15 | the token an idle honest client holds can be spent exactly until it expires |
| HonestClient.LoginStartsHonest | internal/auth/handler.go:47-60 | a login whose answer the client keeps starts an honest session |
| HonestClient.TransportByHeaderTripsReuse | internal/auth/handler.go:77-81 | answering by the platform header instead would make an honest browser that omits it trip reuse detection with its second refresh |
| AccountSafety.NoUnverifiedPrincipal | internal/auth/login.go:50-56 | under every interleaving whoever owns a stored or pending refresh token, an issued access token or an identity has a verified address |
| AccountSafety.VerificationHasProvenance | internal/auth/register.go:88-109 | a verified user followed a link issued to that user, or was created from provider-verified claims whose normalised address is the user's |
| AccountSafety.IdentityHasProvenance | internal/auth/identity.go:27-47 | every linked identity was made from verified claims, and either they carried its owner's normalised address or its owner held an access token when it was linked |
| AccountSafety.VerificationIsPermanent | internal/db/queries/verification_tokens.sql:18-22 | over any run a verification time once set never changes, nor do the address and the password |
| AccountSafety.SubjectResolvesOnce | internal/db/migrations/00003_identities.sql:15-28 | in every reachable state a provider account belongs to at most one user |
| AccountSafety.SignInResolves | internal/auth/oidc.go:46-105 | a provider sign-in that starts a session leaves the provider account resolving to the user of that session, under every interleaving |
| AccountSafety.RefusedSignInChangesNothing | internal/auth/oidc.go:46-105 | a step of a provider sign-in that starts no session leaves users, identities and links as they were |
| AccountSafety.IdentityIsStable | internal/db/queries/identities.sql:19-28 | an identity survives every run in which it is not unlinked |
| AccountSafety.LaterSignInReachesTheSameUser | internal/auth/oidc.go:57-60 | until it is unlinked, every later sign-in with that subject and verified non-empty claims starts a session for the same user and adds no user or identity, even under another e-mail address |
| AccountSafety.CountMatchesAccount | internal/auth/me.go:19-35 | the number the unlink guard reads is the password flag plus the identities the account page lists |
| AccountSafety.NeverLockedOut | internal/auth/identity.go:54-63 | with at most one unlink in flight per user every user keeps at least one sign-in method |
| AccountSafety.NeverLockedOutFromTheStart | internal/db/queries/identities.sql:30-36 | the same over whole runs from an empty database |
| AccountSafety.StepKeepsReach | internal/auth/identity.go:54-63 | each step keeps it, together with what a pending DELETE may rely on |
| AccountSafety.OverlappingUnlinksLockOut | internal/auth/identity.go:55-62 | two overlapping unlinks that both pass the guard leave a user with no method |
| AccountSafety.LockOutIsReachable | internal/auth/identity.go:55-62 | from the empty database: sign in, link a second provider account, two overlapping unlinks, and no method is left |
| OneAtATime.NobodyIsLockedOut | internal/auth/identity.go:54-63 | when requests run one at a time every user always has a sign-in method |
| AccountSafety.UnlinkLeavesAWayInExactlyWhen | internal/db/queries/identities.sql:24-28 | the DELETE leaves its user a method exactly when two are there at that moment or the identity is not the user's |
| Accounts.StepKeepsInv | internal/auth/oidc.go:46-105 | every statement of register, verify, resend, login, provider sign-in, link and unlink keeps the account invariant |
| Accounts.ReachableInv | internal/auth/oidc.go:46-105 | the invariant holds at the end of every run, and users only grow |
| Accounts.StepGrowsUsers | internal/db/queries/verification_tokens.sql:18-22 | no statement removes a user, changes an address or a password, or changes a verification time that is set |
| VerificationLinks.OneRedeemableLink | internal/auth/register.go:59-109 | with whole requests VerifyEmail accepts exactly the most recently issued link of a still unverified user before it expires, and unused links belong to unverified users and are that link |
| VerificationLinks.HandleRefines | internal/auth/register.go:24-86 | each whole request moves the link table as it moves a board with one current link per user |
| VerificationLinks.ServingRefines | internal/auth/register.go:24-86 | the table refines the board over every run of requests |
| VerificationLinks.VerifyAgreesWithBoard | internal/auth/verifyemail.go:10-25 | a link is consumable exactly when it is the posted one and unexpired |
| VerificationLinks.AtMostOneUnusedLink | internal/db/queries/verification_tokens.sql:27-34 | a user has at most one unused link, and a verified user none |
| VerificationLinks.ResendIsARun | internal/auth/register.go:71-85 | a whole resend is one of the runs of the interleaved machine |
| VerificationLinks.LinkWorksAtMostOnce | internal/db/queries/verification_tokens.sql:9-22 | consuming a link verifies its user, and no interleaved continuation accepts the link again |
| VerificationLinks.OverlappingResendsLeaveTwoLinks | internal/auth/register.go:77-83 | two overlapping resends leave two links that both work |
| VerificationLinks.MailKeepsOneLinkExactlyWhen | internal/auth/register.go:88-103 | issuing a link keeps its user at one unused link exactly when none is left at that moment |
| VerificationLinks.LinkSweepIsInvisible | internal/db/queries/verification_tokens.sql:24-25 | deleting expired links anywhere in an interleaved run changes no answer of VerifyEmail, no user, identity or session |
| VerificationLinks.SweepDropsExactlyTheExpired | internal/db/queries/verification_tokens.sql:24-25 | a sweep drops exactly the links that have expired, and changes no other |
| BrowserFlow.CompletionsAnswerStarts | internal/auth/oidc_web.go:19-82 | under every interleaving completions that reach the provider map injectively to earlier starts with the same provider, nonce, code verifier and redirect target, inside ten minutes |
| BrowserFlow.StateIsSingleUse | internal/auth/oidc_web.go:61-75 | a state that was read is refused in every continuation, whether the exchange succeeded, failed or never happened |
| BrowserFlow.CallbackDecides | internal/auth/oidc_web.go:56-75 | a callback with a state and a code reads a stored unexpired state, which is then gone, and tries the exchange with what the start recorded exactly when the provider is configured; any other callback does nothing |
| BrowserFlow.StateLivesTenMinutes | internal/auth/oidc_web.go:8-11 | a state can be read, and survives a sweep, exactly for 600 seconds from its start |
| BrowserFlow.SpentForever | internal/db/queries/oauth_states.sql:5-11 | a spent state has no row in any continuation |
| BrowserFlow.StateSweepIsInvisible | internal/db/queries/oauth_states.sql:13-14 | deleting expired states anywhere in a run changes no answer of CompleteProviderSignIn |
| BrowserFlow.ReachableInv | internal/auth/oidc_web.go:19-82 | stored states are unspent and carry what their start recorded, at the end of every run |
| RequestRuns.RefreshIsARun | internal/auth/session.go:104-143 | a Refresh run to its end has the effect of its statements in the interleaved machine and leaves nothing in flight; a session answered is stored, unspent, with its user and lifetime, and this request is the spender; a refusal is RefreshInvalid and spends and issues nothing |
| RequestRuns.RefuseIsARun | internal/auth/session.go:118-143 | a refused Refresh revokes the family of a used token and changes no row otherwise |
| RequestRuns.SpendThenInsert | internal/auth/session.go:110-113 | a successful Refresh spends the token and inserts one for the same user and family |
| RequestRuns.LogoutIsARun | internal/auth/session.go:148-163 | a Logout run to its end has exactly the effect of its statements in the interleaved machine |
| RequestRuns.SignInIsARun | internal/auth/oidc.go:46-105 | a provider sign-in run to its end has the effect of its statements, whichever branch it takes; a session answered is stored and backed; a refusal leaves the whole server as it was |
| RequestRuns.LoginIsARun | internal/auth/login.go:23-57 | a login run to its end has the effect of its statements; a session answered is stored and backed; a refusal changes nothing, and EmailNotVerified is only told to those whose password was accepted |
| RequestRuns.UnlinkIsARun | internal/auth/identity.go:54-63 | an unlink run to its end has the effect of its count and its DELETE; LastAuthMethod is answered exactly when the DELETE is not reached, success exactly when that identity has gone, and a refusal changes nothing |
| RequestRuns.RegisterTellsTables | internal/auth/register.go:36-51 | a registration answers with the user exactly when the user is there afterwards, with a link that works if it lives at all, and EmailTaken changes nothing |
| RequestRuns.LinkTellsTables | internal/auth/identity.go:32-47 | authenticated linking answers with the identity exactly when its caller owns it afterwards, and a refusal changes nothing |
| RequestRuns.VerifyTellsTables | internal/auth/verifyemail.go:10-25 | following a link succeeds exactly when a link was burnt, its user is then verified, and a refusal changes nothing |
| Answers.LookupFindsTheOwner | internal/auth/register.go:139-143 | looking an address up in any spelling, by case and blanks around it, finds its one owner, and nobody exactly when there is none |
| Answers.EveryReachableStateIsStored | internal/db/migrations/00001_users.sql:5-7 | in every reachable state addresses are stored clean and each of one user |
| Answers.RefreshOfUsable | internal/auth/session.go:104-113 | a stored, unused, unrevoked, unexpired token is spent now and one successor handed over, in its family, for its user, with the lifetime of the platform; nothing else changes |
| Answers.RefreshOfUnusable | internal/auth/session.go:104-143 | any other token is RefreshInvalid; a used one revokes the unrevoked rows of its family now, and nothing else changes |
| Answers.LogoutEndsTheFamily | internal/auth/session.go:148-163 | a stored token revokes the unrevoked rows of its family now; nothing else changes |
| Answers.LoginOfNobody | internal/auth/login.go:23-33 | an unknown address is InvalidCredentials and changes nothing |
| Answers.LoginOfOwner | internal/auth/login.go:35-56 | no or an empty password hash and a wrong password are InvalidCredentials; a right one is EmailNotVerified for an unproven address and otherwise hands over one session of the owner |
| Answers.LoginIsNoOracle | internal/auth/errors.go:27-32 | an unknown address and a wrong password get equal answers |
| Answers.SignInAnswers | internal/auth/oidc.go:46-105 | ProviderEmailUnverified exactly for unverified claims, ProviderClaimsIncomplete exactly for verified claims without a subject or an address, LinkNeedsVerifiedEmail exactly when an unknown provider account names an unproven address, and a session otherwise; a refusal changes nothing |
| Answers.SignInOfKnownSubject | internal/auth/oidc.go:57-60 | a linked provider account hands over one session of its user and adds nothing else |
| Answers.SignInLinks | internal/auth/oidc.go:96-104 | a new one under a proven address is linked to the owner of the address |
| Answers.SignInCreates | internal/auth/oidc.go:66-80 | a new one under a new address makes one user, verified now, without a password, and one identity |
| Answers.RegisterTaken | internal/auth/store_postgres.go:36-42 | any spelling of a registered address is EmailTaken and changes nothing |
| Answers.RegisterCreates | internal/auth/register.go:36-51 | any other makes one unverified user under a clean spelling and one link that expires after its lifetime |
| Answers.ResendOfNobody | internal/auth/register.go:71-74 | a resend for an unknown or proven address changes nothing |
| Answers.ResendReplaces | internal/auth/register.go:76-103 | any other retires the unused links of the owner now and adds one |
| Answers.VerifyOfWorkingLink | internal/db/queries/verification_tokens.sql:9-22 | an unused unexpired link is burnt now and its user verified now unless it was before |
| Answers.VerifyOfAnyOther | internal/auth/verifyemail.go:10-25 | any other is TokenNotUsable and changes nothing |
| Answers.LinkAnswers | internal/auth/identity.go:32-47 | each refusal of authenticated linking with its exact reason, and otherwise exactly one identity more |
| Answers.UnlinkAnswers | internal/auth/identity.go:54-63 | LastAuthMethod exactly with at most one way in, IdentityNotFound exactly for somebody else's identity with more, and otherwise exactly that identity less |
| Journeys.SignUpJourney | internal/auth/register.go:19-52 | register, follow the link, log in: the account opens exactly for passwords Argon2 takes for the registered one, under any spelling of the address, not before the link was followed, and the link works once |
| Journeys.LoginAfterSignUp | internal/auth/login.go:35-56 | which of the three answers a login gets, and that a wrong password never learns whether the address is verified |
| Journeys.SquatterInheritsNothing | internal/auth/oidc.go:86-94 | however the run goes on after somebody registered an address, while it is unproven a provider sign-in under it never joins that account, and with a provider account nobody has linked it is refused and stores nothing |
| Journeys.UnprovenIsNotJoined | internal/auth/register.go:21-23 | in every reachable state no provider account belongs to a user whose address is unproven |
| Journeys.ProviderAccountJourney | internal/auth/identity.go:49-63 | an account made by a provider cannot drop its only identity; after linking another it can, and then only the other resolves and is itself held |
| Journeys.ReplayJourney | internal/auth/session.go:103-143 | a refresh hands the session to the new token; the old one presented again ends it for both |
| Journeys.LogoutJourney | internal/auth/session.go:145-163 | leaving with any stored token of a session ends all its tokens and touches no other session |
| Store.PostgresStore.constructor | internal/auth/store_postgres.go:26-28 | a new store is empty |
| Store.PostgresStore.CreateUser | internal/auth/store_postgres.go:30-46 | inserts one user unless an address equal without case is there, which is EmailTaken |
| Store.PostgresStore.UserByEmail | internal/auth/store_postgres.go:48-57 | the one user with that address without case, or UserNotFound |
| Store.PostgresStore.ConsumeEmailVerification | internal/auth/store_postgres.go:84-95 | burns an unused unexpired link and verifies its user together, or changes neither table |
| Store.PostgresStore.CreateRefreshToken | internal/auth/store_postgres.go:107-125 | adds one live row, an empty platform being stored as none |
| Store.PostgresStore.UseRefreshToken | internal/auth/store_postgres.go:127-138 | spends an unused, unrevoked, unexpired row and returns its user and family, or changes nothing |
| Store.PostgresStore.RefreshTokenByHash | internal/auth/store_postgres.go:140-149 | family and use of the stored row, or RefreshInvalid |
| Store.PostgresStore.RevokeRefreshFamily | internal/auth/store_postgres.go:151-156 | revokes exactly the unrevoked rows of the family |
| Store.PostgresStore.IdentityByProviderSubject | internal/auth/store_postgres.go:158-173 | the one identity with that provider and subject, or IdentityNotFound |
| Store.PostgresStore.CreateIdentity | internal/auth/store_postgres.go:191-213 | adds the identity unless that provider account is linked, which is IdentityAlreadyLinked |
| Store.PostgresStore.CreateUserWithIdentity | internal/auth/store_postgres.go:215-232 | adds a verified user and its identity together, or neither when either index clashes |
| Store.PostgresStore.DeleteIdentity | internal/auth/store_postgres.go:234-244 | removes the identity only for its own user |
| Store.PostgresStore.CountMethods | internal/auth/store_postgres.go:246-252 | identities of the user plus one for a stored password hash |
| Store.PostgresStore.ConsumeOAuthState | internal/auth/store_postgres.go:282-297 | returns an unexpired state and deletes it in the same statement, or changes nothing |
| Service.AuthService.IssueSession | internal/auth/session.go:76-101 | one new live row in the given family, with the lifetime of the platform, and the session that carries it |
| Service.AuthService.Refresh | internal/auth/session.go:104-120 | the statements of Refresh compute the function whose runs and journeys the lemmas are about |
| Service.AuthService.HandleUnusableRefresh | internal/auth/session.go:125-143 | revokes the family of a stored spent token and does nothing otherwise |
| Service.AuthService.Logout | internal/auth/session.go:148-163 | revokes the family of any stored token and does nothing otherwise |
| Service.AuthService.Login | internal/auth/login.go:11-57 | a login the limiter refuses changes no table; any other computes the login function; the limiter moves by exactly one call under the normalised address |
| Service.ValidateRegistration | internal/auth/register.go:111-137 | reports for each field the first thing wrong with it, and nothing exactly for a valid registration |
| Service.RegistrationBounds | internal/auth/register.go:13-17 | the accepted lengths are 1 to 254 for the address and 12 to 256 for the password |
| Service.BucketsAreByAddress | internal/auth/login.go:14-16 | spellings of one address share a bucket of logins and one of resends, and other addresses, and the two kinds, do not |
| Service.AuthService.Register | internal/auth/register.go:24-52 | an invalid registration is answered with what is wrong and changes nothing; any other computes the registration function |
| Service.AuthService.ResendEmailVerification | internal/auth/register.go:59-86 | a refused resend changes no table; any other computes the resend function |
| Service.AuthService.VerifyEmail | internal/auth/verifyemail.go:10-25 | computes the verification function, the empty token being refused |
| Service.AuthService.SignInWithProvider | internal/auth/oidc.go:46-105 | computes the linking policy, all branches |
| Service.AuthService.LinkProviderToken | internal/auth/identity.go:32-47 | refusals change nothing; otherwise computes the linking function |
| Service.AuthService.UnlinkIdentity | internal/auth/identity.go:54-63 | computes the unlink function |
| Service.AuthService.StartProviderSignIn | internal/auth/oidc_web.go:19-52 | records the state for ten minutes, only for a configured provider |
| Service.AuthService.CompleteProviderSignIn | internal/auth/oidc_web.go:56-82 | spends the state first, whatever follows, then signs in with the recorded provider and returns the recorded redirect target |
| Service.AuthService.SweepExpired | internal/auth/sweep.go:18-29 | the three deletions, refresh tokens with their 30 days of grace |
| AccountTables.UserByEmail | internal/db/queries/users.sql:6-9 | some user with that address without case, and none only if there is none |
| AccountTables.IdentityBySubject | internal/db/queries/identities.sql:7-11 | some identity of that provider account, and none only if there is none |
| RateLimit.EvictionIsInvisibleExactlyWhen | internal/ratelimit/memory.go:58-94 | eviction changes no answer on any ordered sequence of calls if and only if burst <= rate * idleTTL |
| RateLimit.EvictionIsInvisible | internal/ratelimit/memory.go:58-94 | the direction the limiters rely on |
| RateLimit.DrainTwiceTellsApart | internal/ratelimit/memory.go:83-94 | otherwise draining a key, waiting and draining it again gets more through than without eviction |
| RateLimit.DefaultLimitersHideEviction | internal/app/app.go:278-292 | the default limiters satisfy the condition |
| RateLimit.TrackedKeysWereSeenRecently | internal/ratelimit/memory.go:83-94 | after any call every tracked key was seen within idleTTL plus one sweep interval |
| RateLimit.WindowBound | internal/ratelimit/memory.go:42-73 | when burst <= rate * idleTTL, in any run and any interval of length d at most burst + rate * d calls of a key are allowed, whatever other keys do |
| RateLimit.DefaultWindows | internal/config/config.go:187-192 | by default at most 60 requests of a client address in a second, 10 logins of an address in a minute and 6 resends of one in an hour are let through |
| RateLimit.BurstOfNewKey | internal/ratelimit/memory.go:65-68 | a new key gets its burst through at once and not one call more |
| RateLimit.DrainedKeyRefills | internal/ratelimit/memory.go:42-73 | a drained key gets the rate times its waiting through, up to the burst, and not one call more |
| RateLimit.SweepsOnceAMinute | internal/ratelimit/memory.go:83-94 | within 60 seconds of the last sweep nothing is dropped; otherwise exactly the keys idle for longer than idleTTL |
| RateLimit.TrackedKeysWereCalled | internal/ratelimit/memory.go:65-72 | what is remembered of a key, admitted or refused, is when it was last called |
| RateLimit.AllowPaysForItself | internal/ratelimit/memory.go:58-73 | under the same condition an admitted call costs its key one token, time gives back at most the rate, and eviction gives nothing |
| RateLimit.Memory.constructor | internal/ratelimit/memory.go:43-56 | a new limiter tracks nothing |
| RateLimit.Memory.Allow | internal/ratelimit/memory.go:58-73 | sweeps, then answers from the key's bucket, as the specification the theorems are about |
| RateLimit.Memory.SweepLocked | internal/ratelimit/memory.go:83-94 | at most once a minute drops exactly the keys idle for longer than idleTTL |
| RateLimit.Memory.Len | internal/ratelimit/memory.go:77-81 | the number of tracked keys |
| Password.PhcRoundTrip | internal/auth/password.go:32-83 | for all memory and iterations in 32 bits, parallelism in 8 bits, any salt and any key, reading the printed string back gives exactly the parameters, salt and key, if and only if the key has 16 to 64 bytes |
| Password.ParamsRoundTrip | internal/auth/password.go:59-63 | the parameter field is scanned back exactly |
| Password.Base64RoundTrip | internal/auth/password.go:102-112 | strict unpadded base64 decodes what it encoded |
| Password.DecodingIsCanonical | internal/auth/password.go:110-112 | a text without line breaks that decodes strictly is the one text its bytes are printed as |
| Password.AlphabetIsStandard | internal/auth/password.go:102 | the alphabet is that of table 1 of RFC 4648 |
| Password.ThreeAreBigEndian | internal/auth/password.go:102 | three bytes are the four digits of their 24-bit number, most significant first |
| Password.TwoAreBigEndian | internal/auth/password.go:102 | two bytes are the three leading digits of theirs, with zero bits behind them |
| Password.OneIsBigEndian | internal/auth/password.go:102 | one byte is the two leading digits of its |
| Password.FreshHashIsMarked | internal/auth/password.go:15-43 | a fresh hash is "$argon2id$v=19$m=19456,t=2,p=1$", the salt, "$" and the 32-byte key made with that cost |
| Password.OtherTextsAreMalformed | internal/auth/password.go:49-78 | only six parts with this algorithm, this version and a key of 16 to 64 bytes are read |
| Password.OversizedCostIsMalformed | internal/auth/password.go:59-63 | a cost beyond 32 bits, or 8 for the threads, is malformed |
| Password.StoredCostDecides | internal/auth/password.go:46-83 | a hash stored under any cost verifies under that cost: the answer is key equality when Argon2 accepts the cost, and its panic otherwise |
| Password.HashThenVerify | internal/auth/password.go:32-83 | a fresh hash accepts its password, and exactly the passwords Argon2 cannot tell from it |
| Text.DecimalRoundTrip | internal/auth/password.go:40-43 | printing a number in decimal and reading it back |
| Text.SplitFirst | internal/auth/password.go:49 | splitting peels off a first field without the separator |
| Text.SplitLast | internal/appversion/appversion.go:65 | splitting peels off a last field without the separator |
| Text.NormalizeEmailIsIdempotent | internal/auth/register.go:139-143 | normalising twice is normalising once, and lowering the result again changes nothing |
| Text.NormalizedIsClean | internal/auth/register.go:139-143 | a normalised address has no capital letter and no blank at either end, and is a spelling of the address |
| Text.CleanIsUnchanged | internal/auth/register.go:139-143 | an address that is clean already is left as it is |
| Text.NormalizedAlikeExactlyWhenRespelled | internal/auth/register.go:139-143 | two texts are normalised alike exactly when they are equal up to case and blanks around them |
| AppVersion.Compare | internal/appversion/appversion.go:64-76 | the loop computes the order, and its subtraction never leaves 64 bits |
| AppVersion.ComponentIsNonNegative | internal/appversion/appversion.go:78-92 | no component is negative, because signs are cut before parsing |
| AppVersion.AtoiReadsDecimal | internal/appversion/appversion.go:87-90 | a decimal number below 2^63 is read, and a larger one is not |
| AppVersion.AtoiReadsSigned | internal/appversion/appversion.go:87-90 | so is one with a sign, down to -2^63, and a sign alone is not |
| AppVersion.ComponentOfDecimal | internal/appversion/appversion.go:82-91 | of a part that is a decimal number, blanks around it and a suffix from "-" or "+" on are ignored, and a number beyond 63 bits is zero |
| AppVersion.ComponentOfAnythingElse | internal/appversion/appversion.go:78-91 | a missing part and a part that is no number are zero |
| AppVersion.NumbersAreDotted | internal/appversion/appversion.go:64-68 | a version that is a number, a suffix, a dot and a version has that number first and the numbers of the rest after it |
| AppVersion.LastNumber | internal/appversion/appversion.go:64-68 | a version that is one number has zeroes after it |
| AppVersion.OrderIsLexicographic | internal/appversion/appversion.go:60-76 | -1, 0 and 1 are exactly less, equal and greater in the lexicographic order of zero-padded number sequences |
| AppVersion.OrderIsTotalPreorder | internal/appversion/appversion.go:60-76 | reflexive, sign-antisymmetric and transitive |
| AppVersion.LessIsTransitive | internal/appversion/appversion.go:60-76 | the lexicographic order is transitive |
| AppVersion.TrailingZeroIsSameBuild | internal/appversion/appversion.go:60-63 | for every version, appending ".0" gives the same build |
| AppVersion.DecideIsMonotone | internal/appversion/appversion.go:35-47 | the gate never forces a version at or above one it allows |
| AppVersion.EachPlatformHasItsMinimum | internal/appversion/appversion.go:49-58 | "ios" and "android", however capitalised, read their own minimum, and any other platform has none |
| AppVersion.MessageComesWithUpgrade | internal/appversion/appversion.go:35-47 | an upgrade is forced exactly for a non-empty version below a minimum, and the message comes with it and never otherwise |
| AppVersion.ReadsAsZeroIsForcedExactlyWhen | internal/appversion/appversion.go:35-47 | a version whose numbers all read as zero, because they are zero or cannot be read, is forced exactly when it is not empty, its platform has a minimum and that minimum has a number above zero |
| AppVersion.UnparseableIsForcedExactlyWhen | internal/appversion/appversion.go:32-47 | in particular a version no part of which is a number |
| AppVersion.GarbageIsForced | internal/appversion/appversion.go:32-47 | "x", no part of which is a number, is forced on a platform whose minimum is "2" |

## Left out

- RotationSafety.LogoutIsFinal: assumes no INSERT of the family is pending, because a successor inserted after the revoke is not covered by it (SuccessorEscapesRevoke); OneAtATime.LogoutEndsTheSession has no such hypothesis.
- RotationSafety.ReuseIsFinal: assumes no INSERT of the family is pending, for the same reason; OneAtATime.ReplayEndsTheSession has no such hypothesis.
- AccountSweep.SweepIsInvisible: the browser states are on a machine of their own, with BrowserFlow.StateSweepIsInvisible.
- VerificationLinks.OneRedeemableLink: register and resend run whole; everything else interleaves.
- RateLimit.WindowBound: exact reals; the rounding inside the rate library is not modelled.
- Password.PhcRoundTrip: print, then parse; of the parser's behaviour outside the printed image only the skipping of line breaks is modelled, not Sscanf's tolerance of signs and spaces.
- Service.AuthService.Register: whether mail.ParseAddress accepts the address is a parameter, and the wording of the details is left out.
- The mailer and its failure, which changes no table and no answer.
- Service.AuthService.LinkProviderToken: the provider's verdict on the ID token is a parameter.
- Database errors other than no row and unique violation in the methods of Service; the machines stop a request at any statement instead.
- The time a failed login spends on a dummy hash: timing is not a property of states.
- The purpose column of verification tokens: the server only writes one purpose.
- The auth_providers table, the list of sign-in buttons and the foreign key on the provider name.
- The native sign-in with an ID token: the same linking policy after another verdict of the provider.
- JWT signing and parsing, OpenID Connect discovery, SMTP and templates: foreign libraries.
- Cookie attributes, the redirect after a browser sign-in, error-to-HTTP mapping, generated handlers and the precedence of body over cookie in the Logout handler.
- Address length in bytes against characters, Unicode case and citext collation: text is ASCII.
- Configuration, CORS, path matching, client-address choice, logging, health probes, the development console and the calculator: no property to prove or branches too short to say anything.
- The locking of the in-memory limiter: each call is one step.
