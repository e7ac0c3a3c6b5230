# Verified model of authsvc

authsvc issues and rotates refresh sessions, sends one-time codes, signs users in through OAuth providers and
publishes the keys that its SDK caches. This project models the parts of it whose promises hold over whole runs
rather than inside one function, and proves those promises for every run, every reachable state and every
interleaving the model admits.

| file | part of the service |
|---|---|
| `Prelude.dfy` | optional values, ids and the clock |
| `Sessions.dfy`, `SessionRuns.dfy`, `SessionGuarantees.dfy` | the sessions table as a state machine: transactions, invariant, guarantees over runs |
| `SessionStore.dfy`, `SessionHandlers.dfy`, `SessionLifetimes.dfy` | the store as a class; logging out, listing and requireUser over runs; how long a token is good for |
| `RotationRace.dfy`, `RevocationRace.dfy`, `DeadlockRace.dfy` | concurrent `Rotate` calls at the granularity of row locks, and which of them let a row escape a revocation: when calls give up at will, never, or as deadlock victims |
| `LogoutRace.dfy`, `DisablingRace.dfy` | logging out and disabling a user while other requests are under way |
| `Codes.dfy`, `CodeRuns.dfy` | `otp_codes`, the map it refines, and the store as a class |
| `RateLimits.dfy` | fixed windows |
| `Emails.dfy` | email addresses as the handlers hold them, and the keys made of them |
| `GuessBound.dfy`, `GuessOverrun.dfy` | what limiter, attempt cap and lifetime add up to, and for which client ids |
| `OAuthStore.dfy`, `OAuthHandoff.dfy` | flows and auth codes, and the way from flow to code to session |
| `Linking.dfy`, `VerifiedEmails.dfy` | account resolution and why an email is marked verified, interleaved at store calls |
| `Service.dfy` | the whole service: the reply to each request, and what it asks of each store |
| `ServiceRuns.dfy`, `ServicePruning.dfy`, `ServiceReplies.dfy` | runs of requests: where sessions come from, what disabling and pruning do, and when each handler says yes |
| `ServiceSessions.dfy`, `ServiceSignIns.dfy` | which requests end a session, what the tokens of a reply are good for, logging out and listing |
| `ServiceHandoff.dfy`, `ServiceAccounts.dfy`, `ServiceCodes.dfy` | round trips over runs of requests: through a provider and back, accounts from profiles and registrations, links and codes sent to an address |
| `ServiceLimits.dfy` | the rate limits of the handlers, told from the history of requests |
| `Handlers.dfy` | the handlers and the pruning job as methods of a class over the stores |
| `KeyCache.dfy` | the SDK's key cache |
| `Numerals.dfy`, `Base64.dfy`, `Passwords.dfy` | decimal numbers, unpadded base64 and the PHC hash string |

Tables are maps of rows. The specification of each table is a function from a state and an event to the next
state and the reply; the classes hold the table as a field, and each of their methods is proved to do to it what
that function says. The theorems about runs are about the functions. Likewise each handler in `Handlers.dfy`, with its
sequence of store calls, is proved to reply and to leave behind what `Service.ReplyTo` and `Service.Next` say, and
the theorems of the other service files are about these. What those say of durations, limits and fields is written out
in figures and columns, apart from the constants and functions the specification is made of.

## What the model assumes

- Time is an integer number of nanoseconds (`Prelude.Units`) from one clock that never runs backwards, and a store transaction
  reads it once. `consumed_at = now()` in internal/store/otp.go:125 reads the same clock.
- A token and its SHA-256 digest are identified. Ids and random tokens that are minted have never been minted
  before; six-digit login codes may repeat.
- Rows sharing a primary or unique key cannot both exist. Email addresses are already normalized.
- Claims about whole families, whole users and whole tables take each store transaction to be atomic. The SQL
  alone does not give that: the family UPDATE of internal/store/sessions.go:108-110 reaches only the rows its
  snapshot sees, and so do those of lines 141-154. The race files say, over single lock, check, commit and sweep
  steps, for which calls a row escapes. Where calls may give up at any point, a reported replay kills the family
  exactly if nobody presents the exchangeable token (`RevocationRace.FamilyDiesExactly`), and so does a logout
  (`LogoutRace.LogoutKillsExactly`). Where no call gives up, more calls than two undo the escape
  (`RevocationRace.UnabortedFamilyDiesExactly`). But the replays of two rows of a family wait for each other
  (`RevocationRace.SweepersExclude`), and the database picks a victim:
  `DeadlockRace.DeadlockedFamilyDiesExactly` is the condition then. Claims about one presented token do not need
  the assumption: they are proved over single steps, which amount to the atomic transaction when nothing comes
  in between (`RotationRace.AloneIsAtomic`).
- Two IssueCode transactions of one key can overlap in the same way: the superseding UPDATE of
  internal/store/otp.go:71-74 misses a row that is not yet committed. Every issue therefore carries the rows it
  misses. The bounds on guesses and redemptions, and the reasons for the verified flag, hold whatever it misses; only
  the map refinement and "one outstanding code per key" need it to miss nothing
  (`CodeRuns.IssueLeavesOneExactly`, `CodeRuns.OverlappingIssuesLeaveTwo`). Rows of one key are not created at
  the very same instant, or else the query's choice among them is a fixed one.
- Linking, verification, the OAuth handoff and the effect of disabling a user are proved for handlers interleaved at
  every store call. A handler written as a method, or taken as a request of `Service`, runs undisturbed, at one
  instant.
- `OtpIdentifier` tells clients and addresses apart exactly when no client id goes on, after a `|`, where another one
  ends, with something that can begin a normalized address: the ids are then apart. Ids without a `|` are the plain case. Client creation
  does not enforce that. What rests on it is proved for such ids, and for no others: see the rows ending in "if
  and only if the client ids are pairwise apart". The guess bound needs a little less (`GuessOverrun.BoundedExactly`): that the
  ids crowd no address, where a crowding one goes on, after the `|`, with what can begin an address a code is sent
  to, or with what another id goes on with, a `|`, and then that.
- Of addresses only ASCII is normalized: a letter outside ASCII counts as lower case, and no character outside it as
  a blank.
- The hourly guess bound takes a parameter `k`: codes expire within `k` hours of the limiter's yes. With the
  10-minute lifetime, `k` is 1 for requests that take at most 50 minutes to store the code.
- Key derivation is an uninterpreted function that yields keys of the requested length. Strings are sequences of
  bytes.

## Where the code and its documentation differ

The model follows the code. README.md:122-124 of the service says that `disabled_at` takes effect on access tokens
at once; internal/httpapi/middleware.go:43-56 looks only at whether the session exists and is revoked.
`ServiceSessions.AccessExactly` says what does end an access token, and `ServiceRuns.DisablingEndsNothing` that
disabling does not. internal/store/otp.go:88-90 says that exceeding the attempt limit burns a code; the fifth
miss already does. internal/store/otp.go:181 and internal/store/oauth.go:118 speak of dropping spent rows; only
the expiry decides. `parent_id` is not a foreign key: parents are pruned before their successors.

## Model

| member | source | states |
|---|---|---|
| Sessions.StepKeepsInv | internal/store/sessions.go:44-154 | Every transaction (create, rotate, either revocation, prune) keeps the family invariant: each family is one chain, a row is spent exactly when it has a successor, expiry never decreases along the chain, pruning is a cut by expiry. |
| Sessions.RotateKeepsLink | internal/store/sessions.go:125-133 | Spending a row and inserting its successor keeps "spent if and only if not last of its chain". |
| SessionRuns.AtMostOneSuccessor | internal/store/sessions.go:81-82 | In every reachable table no row ever has two successors, rows already pruned included. |
| SessionRuns.ExactlyOneUnspent | internal/store/sessions.go:106-137 | While any row of a family is left, exactly one of its rows is unspent, and that row expires last of all the family ever had. |
| SessionRuns.ReplayKills | internal/store/sessions.go:106-117 | Presenting a spent token reports reuse and revokes every row of its family. |
| SessionRuns.DeadFamilyStaysDead | internal/store/sessions.go:106-130 | Once every row of a family is revoked, every continuation of the run keeps it so and adds no row to the family. |
| SessionRuns.StampsAreWriteOnce | internal/store/sessions.go:108-151 | Over every run, used_at and revoked_at never change once set, no other column changes, and no deleted row returns. |
| SessionGuarantees.RotationOutcome | internal/store/sessions.go:97-137 | A rotation succeeds if and only if the one row holding the token is unspent, unrevoked and unexpired, reports reuse if and only if it is spent, and the new row carries user, client and family over. |
| SessionGuarantees.NotFoundExactly | internal/store/sessions.go:97-123 | A token is not found, and nothing changes, if and only if it was never minted, its row is pruned, or the row is unspent and revoked or expired. |
| SessionLifetimes.RotationIssues | internal/store/sessions.go:125-137 | The row a rotation inserts, column by column: user, client and family of the old row, the metadata of the request, thirty days from now. |
| SessionLifetimes.IssuedIsExchangedExactly | internal/store/sessions.go:14-57 | From any reachable table, a token issued by a login or a rotation is exchanged after any run if and only if that is within thirty days, no transaction of the run ended its session, and none presented it. |
| SessionGuarantees.DeadFamilyNeverRotates | internal/store/sessions.go:118-120 | After a family has died, no token ever minted for it is exchanged at any later point of any run. |
| SessionGuarantees.PruningRemovesAPrefix | internal/store/sessions.go:239-245 | In every reachable state, what pruning has left of a chain is an unbroken run of its newest rows. |
| SessionGuarantees.PruningSparesRotatable | internal/store/sessions.go:239-245 | Pruning never removes a row that could be exchanged then or later. |
| SessionGuarantees.ReplayStillTrips | cmd/authsvc/main.go:176-184 | Whatever happens in between, replaying a spent token at any moment up to its expiry plus the grace still reports reuse and kills the family. |
| Sessions.InsertKeepsOrder | internal/store/sessions.go:49-69 | A row inserted now expires no earlier than any row before it in its family's chain. |
| SessionStores.SessionStore.CreateSession | internal/store/sessions.go:44-47 | Starts a family of its own, without a parent, and leaves the table in a reachable state. |
| SessionStores.SessionStore.Rotate | internal/store/sessions.go:85-138 | Reuse revokes exactly the family; success spends exactly the presented row and inserts one successor for the same user, client and family; anything else changes nothing; each reply exactly when the row says so. |
| SessionStores.SessionStore.RevokeFamily | internal/store/sessions.go:141-146 | Stamps the unrevoked rows of the family and changes nothing else. |
| SessionStores.SessionStore.RevokeAllForUser | internal/store/sessions.go:149-154 | Stamps the unrevoked rows of the user and changes nothing else. |
| SessionStores.SessionStore.RevokeByToken | internal/store/sessions.go:158-166 | Revokes the family of the row holding the token, of whatever state; an unknown token changes nothing. |
| SessionStores.SessionStore.PruneSessions | internal/store/sessions.go:239-245 | Deletes exactly the rows expired for longer than the grace, counts them, and changes no other. |
| SessionStores.SessionStore.ActiveSessionsForUser | internal/store/sessions.go:214-236 | Returns each live row of the user exactly once and no other, newest first. |
| SessionStores.SessionStore.Scan | internal/store/sessions.go:226-235 | The scan yields each selected row once, in descending order of issue. |
| SessionHandlers.LoginCarriesOver | internal/store/sessions.go:129-130 | All rows of a family, pruned or not, share user and client, so a refreshed token keeps the audience of the login. |
| SessionHandlers.RevokingAFamilySparesOthers | internal/httpapi/sessions.go:151-175 | Revoking the family of one row leaves the rows of every other family, and so of every other user, as they were. |
| SessionHandlers.LogoutAllIsFinal | internal/httpapi/middleware.go:25-56 | After RevokeAllForUser, no session the user had is admitted by requireUser or exchanged by Rotate, at any later point of any run. |
| SessionHandlers.LogoutIsFinal | internal/httpapi/sessions.go:83-98 | After the family of one session is revoked, no token ever minted for the family is exchanged and no session id of it admitted, at any later point of any run. |
| SessionHandlers.DeadFamilyIsShutOut | internal/store/sessions.go:83-84 | The same for a family that died in any way, replay included. |
| SessionHandlers.AdmittedExactly | internal/httpapi/middleware.go:43-56 | A session admitted now is admitted after any run if and only if no transaction of the run revoked its family or its user, replayed a spent token of its family, or pruned it. |
| SessionHandlers.OneListedPerFamily | internal/store/sessions.go:215-220 | The list of active sessions has at most one row per family. |
| SessionHandlers.ListAgreesWithRotate | internal/store/sessions.go:215-220 | A row is listed if and only if its token would be exchanged at that instant, except at the instant it expires. |
| RotationRace.AloneIsAtomic | internal/store/sessions.go:85-138 | The lock, check and commit or sweep steps of a call that runs alone end in the table and the outcome of the rotation transaction. |
| RotationRace.RaceKeepsInv | internal/store/sessions.go:77-84 | Every interleaving of lock, check, commit, sweep, abort, revocation and login steps keeps the family invariant and the lock discipline. |
| RotationRace.RacesKeepFamiliesLinear | internal/store/sessions.go:79-84 | Under any interleaving of any number of calls no row gets two successors and every family left has exactly one unspent row. |
| RotationRace.ExactlyOneWins | internal/store/sessions.go:79-84 | Of any number of calls presenting one live token and run to the end in any interleaving, exactly one exchanges it and all the others report reuse. |
| RevocationRace.FamilyDiesExactly | internal/store/sessions.go:106-117 | When a call presents a spent token of a family, every race, in which any calls may give up at any point, that brings all calls to their ends and has this one report reuse leaves the family dead, if and only if no call presents the exchangeable token. |
| RevocationRace.ReportedReplayKills | internal/store/sessions.go:106-117 | Without such a call, a replay that has been reported has killed the family, at every later point of every race, finished or not. |
| RevocationRace.ReportedEscape | internal/store/sessions.go:106-137 | With such a call there is a race in which the replay is reported and a row stays live. |
| RevocationRace.UnabortedFamilyDiesExactly | internal/store/sessions.go:77-117 | If no call gives up, all interleavings that run all calls to their ends leave the family dead if and only if it is not so that exactly one call presents a spent token, exactly one the exchangeable one, and none any other of the family. |
| RevocationRace.EscapeRun | internal/store/sessions.go:106-137 | For two such calls there is a run, from the table with no locks held, in which a live row remains: the snapshot is taken, the rotation commits, the UPDATE lands. |
| RevocationRace.SurvivorEscaped | internal/store/sessions.go:106-117 | Conversely, if no call has given up, a family that is alive when all calls are through was presented by just those two. |
| RevocationRace.SweepersExclude | internal/store/sessions.go:108-111 | Of two calls about to revoke one family neither can: each waits for the row the other has locked. |
| DeadlockRace.DeadlockedFamilyDiesExactly | internal/store/sessions.go:77-117 | If calls give up only as deadlock victims, every race that has the replay report reuse leaves the family dead, if and only if no call presents the exchangeable token, or no other spent token than the replayed one is presented and that one twice or more. |
| DeadlockRace.ForcedEscape | internal/store/sessions.go:106-137 | Otherwise there is a race, whoever else presents what, in which all other replays and rotations become victims, this replay is reported, and a row stays live. |
| DeadlockRace.TwinsKill | internal/store/sessions.go:92-117 | A token replayed twice, and no other of the family, leaves the family dead whatever the deadlocks: after the rotation some call is always left that will see the new row. |
| LogoutRace.LogoutKillsExactly | internal/store/sessions.go:141-154 | Whatever runs before, between and after the snapshot and the landing of the UPDATE, the family, or all the families of the user, are dead in the end, if and only if no call presents an exchangeable token of one of them. |
| LogoutRace.LogoutMissed | internal/store/sessions.go:141-154 | A rotation past its check leaves a live row behind when it commits in between. |
| Codes.CurrentIsSlot | internal/store/otp.go:104-112 | The row ORDER BY and LIMIT 1 select is the current code of the abstract map, and none when it has none left. |
| Codes.GuessRefines | internal/store/otp.go:91-146 | Guessing on the table does and replies what it does on the map, expiry, misses and the fifth miss included. |
| Codes.RedeemRefines | internal/store/otp.go:150-179 | Redeeming an emailed token on the table does and replies what it does on the map. |
| Codes.StepRefines | internal/store/otp.go:63-188 | Every operation simulates the map from (identifier, purpose) to one current code; pruning does nothing to the map. |
| CodeRuns.RunRefines | internal/store/otp.go:61-188 | Over every run the table's replies are the map's. |
| CodeRuns.PruningIsInvisible | internal/store/otp.go:181-188 | Pruning at any points of any run, with any grace, changes no later reply. |
| CodeRuns.AtMostOneOutstanding | internal/store/otp.go:61-76 | A key never has two outstanding rows, so the query never chooses. |
| CodeRuns.IssueLeavesOneExactly | internal/store/otp.go:71-83 | Issuing leaves one outstanding row for its key if and only if its UPDATE missed no outstanding row of the key. |
| CodeRuns.OverlappingIssuesLeaveTwo | internal/store/otp.go:71-83 | Two codes asked for a moment apart, overlapping, are both redeemed by the two guesses that follow. |
| CodeRuns.OutstandingHasAttemptsLeft | internal/store/otp.go:117-119 | An outstanding row has attempts below the cap: the early return is unreachable. |
| CodeRuns.FiveGuessesOneRedemption | internal/store/otp.go:114-145 | Over every run, overlapping issues included, a code is compared with a guess at most five times and redeemed at most once. |
| CodeRuns.TokenFindsOneRow | internal/store/otp.go:161-165 | An emailed token finds at most one outstanding row. |
| CodeRuns.RedeemedIsSpent | internal/store/otp.go:148-178 | After an emailed token is redeemed, no outstanding row holds it. |
| CodeRuns.CodeStore.IssueCode | internal/store/otp.go:63-84 | The new row is the only outstanding one of its key, with no attempts and the given lifetime; rows of other keys stay. |
| CodeRuns.CodeStore.ConsumeCode | internal/store/otp.go:91-146 | Accepts if and only if some outstanding row of the key holds the code and has not expired; new table and reply are the transaction's. |
| CodeRuns.CodeStore.ConsumeToken | internal/store/otp.go:150-179 | Redeems if and only if an unexpired outstanding row holds the token, names that row's identifier, and consumes that row alone. |
| CodeRuns.CodeStore.PruneCodes | internal/store/otp.go:182-188 | Deletes exactly the codes expired for longer than the grace, counts them, and changes no other. |
| Numerals.PaddedCode | internal/store/otp.go:38-49 | The padded code is the one string of n digits with the drawn value, so different draws give different codes. |
| RateLimits.WindowGrantsExactly | internal/store/ratelimit.go:14-27 | In each aligned window exactly the smaller of calls and remaining limit is granted, whatever the mix of denied calls and of pruning. |
| RateLimits.StretchBound | internal/store/ratelimit.go:14-27 | Calls within k windows' length of each other see at most (k + 1) times the limit granted. |
| RateLimits.PruningIsInvisible | internal/store/ratelimit.go:29-36 | Pruning only windows that no window in use can still be running in changes no reply of any run. |
| RateLimits.PruningEarlyForgetsCalls | internal/store/ratelimit.go:29-36 | Pruning a window that is still running turns a denial into a grant, for every limit and window. |
| RateLimits.PruningUnnoticedExactly | internal/store/ratelimit.go:29-36 | For windows of one length, pruning goes unnoticed in all runs if and only if it spares windows that started less than that length ago. |
| RateLimits.RateLimiter.Allow | internal/store/ratelimit.go:14-27 | Counts the call in its aligned window and allows it if and only if the new count is within the limit. |
| RateLimits.RateLimiter.PruneRateLimits | internal/store/ratelimit.go:30-36 | Deletes exactly the windows that started longer ago than asked, counts them, and leaves the count of every window that is still running and no longer than that. |
| ServiceLimits.LimitedExactly | internal/httpapi/middleware.go:96-110 | Over every run of the service, a request is refused by the limiter if and only if one of its meters, among thirteen with their limits and windows, has counted its limit of earlier requests for that address in the aligned window. |
| ServiceLimits.BucketsApart | internal/httpapi/auth.go:95-100 | No two meters, and no two addresses, share a bucket. |
| Emails.NormalizedExactly | internal/httpapi/respond.go:66 | The strings normalizing can result in are those it leaves alone: in lower case and without blanks at either end. |
| Emails.NormalizesAsExpected | internal/httpapi/respond.go:66 | Examples: blanks go at the ends only, and letters become lower case. |
| Emails.ValidEmailExactly | internal/httpapi/respond.go:70-79 | Valid are the strings without blanks that have something before the first at-sign and a dot somewhere after it, but do not end in it. |
| OtpIdentifiers.SeparateExactly | internal/httpapi/otp.go:12-14 | The identifiers of two clients differ, whatever the strings taken for addresses, if and only if neither id goes on after a pipe where the other ends. |
| OtpIdentifiers.ApartExactly | internal/httpapi/otp.go:12-14 | They differ for all normalized addresses if and only if neither id goes on after a pipe where the other ends, or it goes on with an upper-case letter in it or a blank in front. |
| OtpIdentifiers.IdentifiesExactly | internal/httpapi/otp.go:12-14 | For normalized addresses, the identifier determines client and address if and only if the client ids are pairwise apart. |
| OtpIdentifiers.MeetingCollides | internal/httpapi/otp.go:26-29 | Otherwise every accepted address of the longer id has the identifier of another string under the shorter, which is a normalized address exactly if the ids meet, and an accepted one exactly if what comes after the pipe has no blank and no leading at-sign, too. |
| OtpIdentifiers.OneSource | internal/httpapi/otp.go:69-80 | Where the client ids crowd no address, all codes that can be guessed at one address were asked for at one. |
| OtpIdentifiers.ApartIsUncrowded | internal/httpapi/otp.go:12-14 | Ids that are pairwise apart crowd no address. |
| OtpIdentifiers.UnaskableTailsCrowd | internal/httpapi/otp.go:26-29 | An example of ids that crowd an address although no code can be asked for at what any two of them share. |
| GuessBound.FiveCodesPerHour | internal/httpapi/otp.go:35-37 | At most five login codes are asked for per email and aligned hour, over every run and all clients. |
| GuessBound.GuessesPerHour | internal/httpapi/otp.go:31-80 | If codes expire within k hours of the limiter's yes and the client ids crowd no address, at most 25 (k + 1) guesses per address and aligned hour are compared with a code, over all clients, overlapping issues included. |
| GuessBound.FiftyGuessesPerHour | internal/httpapi/api.go:23-28 | With ten-minute codes and requests of at most 50 minutes: at most 50 guesses an hour. |
| GuessOverrun.FiftyFiveGuesses | internal/httpapi/otp.go:31-80 | Two accepted addresses whose codes can be guessed at one address allow a run with 55 guesses there in an hour. |
| GuessOverrun.BoundedExactly | internal/httpapi/otp.go:12-37 | The bound holds over all runs, addresses and hours if and only if the client ids crowd no address. |
| OAuthStores.PruningIsInvisible | internal/store/oauth.go:118-126 | Pruning flows and codes at any points of any run changes no reply. |
| OAuthStores.OAuthStore.CreateOAuthFlow | internal/store/oauth.go:25-34 | Stores a flow that is usable up to its lifetime and not a moment longer; a taken state value is refused. |
| OAuthStores.OAuthStore.ConsumeOAuthFlow | internal/store/oauth.go:38-66 | Returns the flow if and only if it is stored, unconsumed and unexpired, and never again afterwards. |
| OAuthStores.OAuthStore.CreateAuthCode | internal/store/oauth.go:78-85 | Stores a code that is usable up to its lifetime and not a moment longer; a taken code is refused. |
| OAuthStores.OAuthStore.ConsumeAuthCode | internal/store/oauth.go:88-116 | Returns the code if and only if it is stored, unconsumed and unexpired, and never again afterwards. |
| OAuthStores.OAuthStore.PruneOAuth | internal/store/oauth.go:119-126 | Deletes exactly the flows and codes expired for more than an hour. |
| OAuthHandoff.StepKeepsInv | internal/httpapi/oauth.go:75-261 | Every store call of any number of interleaved starts, callbacks and exchanges keeps the provenance invariant. |
| OAuthHandoff.SessionProvenance | internal/httpapi/oauth.go:104-261 | Every session made by token exchange goes back to a code redeemed within 60 seconds by the same client, and that to a flow redeemed within 10 minutes, with a redirect URI registered for the client; a linking flow leads to the linking user. |
| OAuthHandoff.OneSessionPerFlow | internal/httpapi/oauth.go:100-261 | Sessions map injectively to codes and codes to flows, replays and races included. |
| OAuthHandoff.WrongClientBurns | internal/httpapi/oauth.go:229-238 | A code presented by a client it was not issued to is spent without a session. |
| OAuthHandoff.BurnedForGood | internal/httpapi/oauth.go:229-238 | A code so burned never becomes a session in any continuation of the run. |
| OAuthHandoff.HandoffCompletes | internal/httpapi/oauth.go:75-261 | There is a run from a registered client to a session, for every client, flow and user within the time limits. |
| Accounts.Resolve | internal/linking/linking.go:77-133 | The whole decision table: known identity, free address, safe link, manual link required, conflict, and what each leaves in the tables. |
| Accounts.CreatedExactly | internal/store/identities.go:75-108 | Resolving makes a user exactly for an unknown account with a free address; the user has the address and is verified exactly if the provider vouches, the identity has the profile's data, and nothing else has changed. |
| Accounts.LinkedExactly | internal/linking/linking.go:99-132 | For an address with an owner it links exactly if the provider vouches and the owner has proved the address, and is refused otherwise. |
| Accounts.LinkToUser | internal/linking/linking.go:142-161 | The whole decision table of linking to a signed-in user. |
| Accounts.Directory.CreateUser | internal/store/users.go:22-32 | Inserts the user if and only if the address is free. |
| Accounts.Directory.CreateIdentity | internal/store/identities.go:58-71 | Inserts the identity if and only if the pair is free and the user exists. |
| Accounts.Directory.CreateUserWithIdentity | internal/store/identities.go:75-108 | Inserts both rows or, losing on either unique key, neither. |
| Accounts.Directory.MarkEmailVerified | internal/store/users.go:54-59 | Afterwards that user and those verified before are verified and nobody else; earlier stamps, addresses and identities are unchanged. |
| LinkingRace.AloneResolves | internal/linking/linking.go:77-133 | The store-call steps of a call that runs alone end in the tables and the result of the decision table. |
| LinkingRace.AloneLinks | internal/linking/linking.go:142-161 | The store-call steps of a LinkToUser that runs alone end in the tables and the result of its decision table. |
| LinkingRace.LinksByEmailAreSafe | internal/linking/linking.go:99-132 | However calls interleave, when an identity is attached by email the provider vouches for the address and its owner is verified at that moment. |
| LinkingRace.LinkedIdentitiesStaySafe | internal/linking/linking.go:123-132 | In every reachable state, identities attached by email belong to a verified user with that very address. |
| LinkingRace.PairNamesOneUser | internal/linking/linking.go:84-94 | Two successful calls for the same provider and subject, at any two moments of any run, name the same user. |
| LinkingRace.NoOrphans | internal/store/identities.go:73-108 | A user created with an identity keeps that identity in every reachable state. |
| LinkingRace.WritesAsReported | internal/linking/linking.go:87-132 | Over every run and interleaving a call writes to the tables once if it reports a user created or an identity attached, and otherwise never. |
| LinkingRace.LosersChangeNothing | internal/linking/linking.go:113-131 | A call that ends refused has changed neither table at any of its steps, over the whole run. |
| VerifiedEmails.VerifiedIsJustified | internal/httpapi/auth.go:153-166 | Over every run, a user marked verified redeemed a token issued to them, or a login code for their address was redeemed, or they were created from an address the provider vouched for. |
| VerifiedEmails.ReasonsMark | internal/httpapi/auth.go:144-167 | Each of the reasons does lead to the mark. |
| VerifiedEmails.CollidingClientsMisverify | internal/httpapi/otp.go:80-112 | With two ids that meet there is, for every accepted address of the longer, a run that verifies a normalized address for which no code was ever issued. |
| VerifiedEmails.JustifiedExactly | internal/httpapi/otp.go:12-14 | Every verified mark is justified, over all runs, if and only if the client ids are pairwise apart. |
| VerifiedEmails.LinkProves | internal/httpapi/auth.go:277-285 | A redeemed verification token was issued to the user it names. |
| VerifiedEmails.OtpProves | internal/httpapi/otp.go:80-112 | Where client ids are apart, a redeemed login code was issued for that client and that address. |
| ServiceRuns.StepKeepsOk | internal/httpapi/api.go:71-107 | Every request of the service leaves each store in a state its own transactions reach, and the stores agreeing with each other. |
| ServiceRuns.SessionOrigin | internal/httpapi/api.go:109-121 | Over every run, each session family was opened by one request that proved its user and its client: a code exchanged with the client's secret, the address's login code, the password, or a registration, of a user not disabled. |
| ServiceRuns.CodeOrigin | internal/httpapi/oauth.go:176-186 | Over every run, each auth code was minted by a callback, for the user it settled on and with the client and redirect URI of the flow it recovered. |
| ServiceRuns.CodeOpensOnce | internal/httpapi/oauth.go:229-253 | Of two exchanges of one code in a run, the later opens nothing. |
| ServiceRuns.DisabledStaysOut | internal/httpapi/sessions.go:43-53 | Over every run of requests, one at a time, in which a user stays disabled, the user's live sessions are among those live at its beginning. |
| DisablingRace.LiveWhileDisabled | internal/httpapi/sessions.go:26-53 | With requests interleaved at their store calls, a live session of a disabled user was live when the run began, or was opened by a sign-in that had read disabled_at before, or was issued to a refresh that has yet to look at the user or to revoke. |
| DisablingRace.DisablingHoldsExactly | internal/httpapi/auth.go:108-133 | Apart from what such refreshes hold, no run gives a disabled user a session if and only if no sign-in of the user is past its check at the beginning. |
| ServiceSessions.RequestEndsExactly | internal/httpapi/sessions.go:43-175 | A request ends a session if and only if it logs out of its family, logs its user out everywhere, deletes one of its family as its user, replays a spent token of its family, refreshes as its user when disabled, resets its user's password, or is the pruning job more than 30 days after its expiry. |
| ServiceSessions.AccessExactly | internal/httpapi/middleware.go:43-56 | Over every run of requests, an access token stays admitted if and only if none of them was one that ends its session. |
| ServiceSessions.ExchangeableExactly | internal/store/sessions.go:97-137 | Over every run of requests, a live session can be exchanged at the end if and only if it has not expired, none of them was one that ends it, and none has presented its token. |
| ServiceSignIns.SignInOpens | internal/httpapi/api.go:109-121 | A sign-in that hands out tokens opens one session, given column by column, for thirty days, and its reply names that session and token and the client's audience. |
| ServiceSignIns.RefreshOpens | internal/httpapi/sessions.go:21-66 | A refresh that hands out tokens spends the row it was shown and opens its successor, column by column, for the same user and client. |
| ServiceSignIns.TokensRefreshExactly | internal/httpapi/sessions.go:21-66 | Whatever requests come in between, the refresh token of a reply refreshes, for the same user and audience, if and only if that is within thirty days, nothing has ended the session or presented the token, and the user is not disabled. |
| ServiceSignIns.TokensAdmitExactly | internal/httpapi/middleware.go:43-56 | The access token of a reply is admitted for exactly as long as no request ends its session. |
| ServiceSignIns.AccessReplies | internal/httpapi/middleware.go:43-56 | A token without a session id passes; otherwise the three answers tell apart a row that stands, one that is revoked, and none. |
| ServiceSignIns.LogoutIsFinal | internal/httpapi/sessions.go:83-98 | Logging out kills the family of the session and changes no other row; no session id of the family is admitted and no token of it exchanged at any later point of any run. |
| ServiceSignIns.LogoutOfNothing | internal/httpapi/sessions.go:83-98 | A logout without a session, or of one that is gone, changes no session. |
| ServiceSignIns.LogoutAllIsFinal | internal/httpapi/sessions.go:100-108 | Logging out everywhere does so to every session the user ever had, and changes no row of another user. |
| ServiceSignIns.ListExactly | internal/httpapi/sessions.go:134-149 | The list has exactly the user's rows that could be exchanged now and a moment later. |
| ServiceRuns.DisablingEndsNothing | internal/httpapi/middleware.go:43-56 | A disabled user's access token with a live session is still admitted. |
| ServicePruning.PruneOnceIsInvisible | cmd/authsvc/main.go:176-200 | Running the pruning job with its own graces at any moments of any run changes no reply of the service, so long as no session row is asked for more than 30 days after its expiry. |
| ServicePruning.PruneOnceForgetsOldReplays | cmd/authsvc/main.go:176-184 | Later than that, a replay is reported as reuse before the job has run and as unknown after it. |
| ServicePruning.PruneOnceDeletesExactly | cmd/authsvc/main.go:176-200 | The job deletes sessions expired for more than thirty days, codes for more than a day, flows and auth codes for more than an hour and windows begun more than a day ago, and changes nothing else. |
| ServiceHandoff.StartedReturns | internal/httpapi/oauth.go:75-121 | Whatever requests come in between, pruning included, the first callback with the state of a begun flow recovers it if and only if it names the provider and comes within ten minutes; provider, client, app state, verifier and linking user are those of the start, and the redirect URI is the one asked for or the client's only one. |
| ServiceReplies.CallbackSpendsState | internal/httpapi/oauth.go:114-121 | The state value is spent by any callback, whatever comes of it. |
| ServiceHandoff.MintedExchanges | internal/httpapi/oauth.go:176-261 | Whatever requests come in between, the first exchange of a minted code with the secret of some client signs in the user the callback settled on, or finds that user disabled, if and only if the client is the flow's and the minute is not over. |
| ServiceAccounts.VouchedProfilesMeet | internal/httpapi/oauth.go:147-186 | A vouched profile made a user; whatever requests come in between, a vouched profile of another account with the same address is linked to that user. |
| ServiceAccounts.ProfileLinks | internal/httpapi/oauth.go:158-174 | A profile whose address has an owner is linked exactly if the provider vouches and the owner has proved it; otherwise the browser goes back to the app and nothing has changed. |
| ServiceAccounts.ProfileReturns | internal/httpapi/oauth.go:158-174 | A known account signs in its user unless disabled, and changes nothing. |
| ServiceAccounts.ProfileAttaches | internal/httpapi/oauth.go:147-157 | A linking flow attaches an unknown account to the linking user and goes back to the app if it is another user's. |
| ServiceAccounts.RegisterExactly | internal/httpapi/auth.go:30-78 | The whole answer to a registration, and what it leaves: an unverified user with the address, and a hash whose text begins with the default parameters. |
| ServiceAccounts.LoginAnswers | internal/httpapi/auth.go:95-138 | One and the same answer for an unknown address, an account without a password and a wrong password; only who knows the password learns that the account is disabled. |
| ServiceAccounts.CreateClientExactly | internal/httpapi/admin.go:28-73 | Past the checks of its name and redirect URIs, a client is created if and only if its id is new and not empty; it is what was asked for, and no other has changed. |
| ServiceAccounts.SetDisabledExactly | internal/store/migrations/00001_init.sql:13 | Setting or clearing disabled_at concerns the one user. |
| ServiceCodes.ForgotSends | internal/httpapi/auth.go:173-205 | Done for every address; a registered one gets a token for its user, good for an hour, and an unknown one nothing. |
| ServiceCodes.ForgotThenReset | internal/httpapi/auth.go:213-253 | Whatever requests come in between that neither send a newer link nor use this one, the token resets the password of the user of the address and ends the user's sessions, if and only if that is within the hour. |
| ServiceCodes.SentThenVerified | internal/httpapi/auth.go:144-167 | The verification link verifies its user if and only if it is used within a day. |
| ServiceCodes.OtpThenVerify | internal/httpapi/otp.go:39-123 | Whatever requests come in between, with no newer code and at most four wrong guesses, the right code signs in the user of the address if and only if it comes within ten minutes, and a wrong one is told to be the last exactly if four were wrong before. |
| ServiceReplies.ExchangeSpendsCode | internal/httpapi/oauth.go:217-238 | The right secret spends the code, whoever's it is; without it the code stays as it was. |
| ServiceReplies.ExchangeRefusals | internal/httpapi/oauth.go:217-238 | A wrong secret or an unknown client is told so whatever the code, and only the right secret learns whether the code is usable. |
| ServiceReplies.RegisteredCanLogIn | internal/httpapi/auth.go:47-78 | Who has registered can log in, with that password or one that derives the same key. |
| ServiceReplies.VerifyEmailExactly | internal/httpapi/auth.go:144-167 | A link verifies if and only if it is redeemable and within the limit; then exactly the user it was issued to is marked. |
| ServiceReplies.ResetExactly | internal/httpapi/auth.go:213-253 | A reset succeeds if and only if the password is long enough, the limit admits it and the token is redeemable. |
| ServiceReplies.ResetTakesEffect | internal/httpapi/auth.go:238-252 | Afterwards the new password matches, nobody else's has changed, no session of the user is live and no row holds the token. |
| ServiceReplies.OtpRequestExactly | internal/httpapi/otp.go:31-57 | A login code is sent if and only if both limits admit it and the client is known, and is then the only outstanding one of its client and address. |
| ServiceReplies.OtpVerifyExactly | internal/httpapi/otp.go:66-123 | A login code signs in, or meets a disabled account, if and only if it is the right one, within the limit and for a known client. |
| ServiceReplies.OtpVerifyProvesAddress | internal/httpapi/otp.go:93-112 | The right code leaves the address with a verified user, a wrong one changes no user, and neither touches users of other addresses. |
| ServiceReplies.RefreshExactly | internal/httpapi/sessions.go:21-66 | A refresh hands out tokens if and only if the row can be exchanged and its user, enabled, and client are known; reuse is reported if and only if the row is spent. |
| ServiceReplies.DisabledRefreshRevokes | internal/httpapi/sessions.go:48-53 | A disabled user who refreshes is left without a live session, and other users' rows as they were. |
| ServiceReplies.DeleteSessionExactly | internal/httpapi/sessions.go:151-175 | A session is deleted if and only if it is the caller's own; its family is then dead and no other user's row has changed. |
| ServiceReplies.DeadForGood | internal/httpapi/middleware.go:25-56 | Over every later run of requests, no session of a dead family is admitted and none of its tokens exchanged. |
| Handlers.AllowsRedirect | internal/store/users.go:95-102 | Accepts exactly the registered URIs. |
| Handlers.ProveAddress | internal/httpapi/otp.go:93-112 | Finds or creates the user of the address and leaves it verified, and touches no other user. |
| Handlers.Api.SettleUser | internal/httpapi/oauth.go:147-174 | Settles on the linking user once linked, or on the enabled user the profile resolves to. |
| Handlers.Api.HandleStart | internal/httpapi/oauth.go:18-98 | Replies and leaves behind what the service's step does; begins a flow exactly for an admitted request of a known client with a registered URI. |
| Handlers.Api.HandleOAuthCallback | internal/httpapi/oauth.go:104-191 | Replies and leaves behind what the service's step does; mints a code for exactly the user settled on. |
| Handlers.Api.HandleTokenExchange | internal/httpapi/oauth.go:207-262 | Replies and leaves behind what the service's step does; hands out tokens exactly for a usable code of this client and the right secret. |
| Handlers.Api.HandleLogin | internal/httpapi/auth.go:86-138 | Replies and leaves behind what the service's step does, the dummy hash included; hands out tokens exactly for a matching password. |
| Handlers.Api.HandleEmailVerify | internal/httpapi/auth.go:144-167 | Replies and leaves behind what the service's step does; verifies exactly for a redeemable token. |
| Handlers.Api.HandlePasswordReset | internal/httpapi/auth.go:213-254 | Replies and leaves behind what the service's step does; resets exactly for a redeemable token and a password long enough. |
| Handlers.Api.HandleOTPRequest | internal/httpapi/otp.go:21-58 | Replies and leaves behind what the service's step does, charging both windows before the client is looked up. |
| Handlers.Api.HandleOTPVerify | internal/httpapi/otp.go:66-124 | Replies and leaves behind what the service's step does; gets past the code exactly for the right one. |
| Handlers.Api.HandleRefresh | internal/httpapi/sessions.go:11-67 | Replies and leaves behind what the service's step does; hands out tokens exactly for an exchangeable row whose user may sign in. |
| KeyCaches.KeyCache.Get | sdk/go/keys.go:38-62 | Hands out the cached keys if and only if there are some and a positive limit is not exceeded; asks for a refresh when cold or past the refresh age. |
| KeyCaches.KeyCache.Fetch | sdk/go/keys.go:100-129 | Replaces the keys if and only if the answer, after failover, parsed to a non-empty set; a failure keeps keys and timestamp. |
| KeyCaches.KeyCache.Refresh | sdk/go/keys.go:86-98 | Fetches unless another refresh is running, and releases the guard. |
| RefreshLock.OneRefreshAtATime | sdk/go/keys.go:26-28 | However refreshes overlap, at most one fetches at a time, and one that finds none fetching gets to. |
| RefreshLock.OverlapsKeepKeys | sdk/go/keys.go:86-129 | Overlapping fetches, warm-ups included, never empty a warm cache, and failing ones change neither keys nor timestamp. |
| KeyTrust.FailuresKeepKeys | sdk/go/keys.go:100-122 | No run of failed, unparsable or empty fetches changes the keys or their timestamp. |
| KeyTrust.NeverEmptyAgain | sdk/go/keys.go:114-121 | Once warm, the cache holds a non-empty set for ever. |
| KeyTrust.HandedOutIsRecent | sdk/go/keys.go:53-61 | With a positive limit, keys handed out were stored by a successful fetch no longer ago than the limit. |
| KeyCaches.FetchedExactly | sdk/go/keys.go:100-160 | A fetch stores keys if and only if they are some and were parsed from the primary, or from the fallback when the primary did not respond or responded with a status of 500 or more. |
| KeyTrust.LastFetchServes | sdk/go/keys.go:38-62 | What the last successful fetch of a run yielded is handed out at every later moment, until the limit if there is one. |
| KeyTrust.ColdUntilFetched | sdk/go/keys.go:44-51 | Before any has succeeded there are no keys. |
| KeyTrust.WithdrawnKeyExpires | sdk/go/keys.go:86-129 | A key withdrawn at some time is not handed out after that time plus the fetch duration plus the limit, over every run. |
| KeyTrust.NoLimitNoExpiry | sdk/go/keys.go:57-61 | Without a positive limit there is no such bound: cached keys survive any run of failures. |
| Base64.DecodesExactly | internal/password/password.go:46-48 | Strict decoding accepts a text if and only if, line breaks apart, it is the encoding of the result (sections 3.5 and 4 of RFC 4648). |
| Base64.RoundTrip | internal/password/password.go:46-48 | Decoding an encoding gives the bytes back. |
| Base64.SextetsExactly | internal/password/password.go:46-48 | A group of three bytes and its four characters are the same number of 24 bits (section 4 of RFC 4648). |
| Base64.Alphabet | internal/password/password.go:46-48 | The alphabet is that of table 1 of RFC 4648. |
| Base64.TestVectors | internal/password/password.go:46-48 | Test vectors of section 10 of RFC 4648. |
| Numerals.PrintValue | internal/password/password.go:47-48 | A printed number consists of digits and reads back as itself. |
| Numerals.ScanPrinted | internal/password/password.go:58-67 | Scanning a printed number that fits gives it back and stops right after it. |
| Passwords.PartsOf | internal/password/password.go:52-54 | Splitting a printed hash at the dollar signs gives its six fields back. |
| Passwords.ParseEncoded | internal/password/password.go:39-75 | Parsing a printed hash recovers parameters, salt and key. |
| Passwords.HashRoundTrip | internal/password/password.go:39-82 | A password matches its own hash, and any other guess matches if and only if it derives the same key. |
| Passwords.OthersAreInvalid | internal/password/password.go:52-62 | A hash of another algorithm or of another version is not a valid one. |
| Passwords.DefaultText | internal/password/password.go:26-48 | How the text of a hash with the default parameters begins. |
| Passwords.EncodedInjective | internal/password/password.go:47-48 | Two printed hashes are equal only if parameters, salt and key are. |

## Left out

- HTTP: request decoding, cookies, headers, routing, error wording, `pickEmail`, `validRedirect` and URL building.
- Cryptography: digests, signatures, JWT parsing and randomness; argon2id is uninterpreted, and its panics on a zero time or parallelism are not part of the model.
- The Postgres engine, connection failures in the middle of a handler, and the goose migrations. Failed calls appear only as the abort steps of `RotationRace`; handleRefresh ignores a failure of the revocation in internal/httpapi/sessions.go:49.
- The order in which an UPDATE of many rows takes its row locks: it lands at one instant, when all its rows are free. Those of RevokeFamily and RevokeAllForUser are not a party to the deadlocks of `DeadlockRace`.
- Provider and mail traffic: an exchange with a provider is an optional profile, a sent mail is nothing.
- User deletion and cascades, which no code path performs; updates of `updated_at`; raw profiles.
- The admin endpoints as methods; creating a client and disabling a user are requests of `Service`.
- The address check and normalization of a request are past when `Service` sees it.
- The memory model of the key cache's goroutines: `RefreshLock` takes each fetch to start and to end at one instant. The SDK's failover re-presents a refresh token, and nothing is claimed about that.
- The Rust SDK, whose cache has the same shape as the Go one.
- Skipping of Unicode blanks outside ASCII by `Sscanf` in a stored hash.
- Passwords.HashRoundTrip: the salt is a parameter of any length, where the code draws `SaltLen` random bytes.
- CodeRuns.CodeStore.ConsumeToken: only for the purposes of emailed links, the only ones it is called with; login codes are not unique across keys.
- KeyCaches.KeyCache.Refresh: one undisturbed step; overlapping refreshes are the subject of `RefreshLock`, and fetches that overlap with reads of `KeyTrust`.
