# A verified model of the contractor marketplace backend

This project models, in Dafny 4.11, the parts of the marketplace where correctness
is a matter of protocol or algorithm, and proves what those parts promise. Each
file is one component:

| file | what it models |
|---|---|
| `WorkQueue.dfy` | the email outbox and the geocode queue as a protocol over shared rows: any number of workers, crashes, stale-lock recovery, unguarded marks |
| `WorkHistory.dfy` | what moves a queued row, and how every finished message came to be finished |
| `WorkerPass.dfy` | one worker's pass as it runs, the time at which it marks each message, and what that timing means for the protocol |
| `JobBoard.dfy` | keyset pagination of the job board under SQL's three-valued conditions |
| `Facets.dfy` | the board's facet counts read back from one `GROUPING SETS` query |
| `EditDistance.dfy`, `Matching.dfy`, `Words.dfy` | the two-row edit distance loop, name similarity and the match verdict |
| `Pairing.dfy` | the greedy assignment of places to contractors |
| `AuthTokens.dfy` | single-use links and attempt-capped login codes, with overlapping issues |
| `TokenHistory.dfy` | what is answered to a guess, where each token comes from, and what spends it |
| `Passwords.dfy` | registration, three-phase login and password change, hash upgrade, reset, emailed codes and sessions, interleaved |
| `SignIns.dfy` | what moves an account, a session and a code, and what every session and every stored hash goes back to |
| `CodeSessions.dfy` | sessions granted by an emailed code, and the password their login verified |
| `Lockout.dfy`, `LockoutReached.dfy` | how many wrong guesses the lockout lets through, and that so many do get through |
| `Claims.dfy` | claims, ownership and the verified badge, with all-or-nothing transactions |
| `ClaimHistory.dfy` | each operation's answer in terms of the state, who was given a listing, and why it carries a badge |
| `Photos.dfy` | photo rows and stored objects with a crash possible between any two writes |
| `PhotoHistory.dfy` | where the photo at a place came from, and what may be deleted |
| `Location.dfy` | the published point of a listing, and what the history of requests says of it |
| `KeyCache.dfy` | the cache of sign-in verification keys, one call at a time and interleaved |
| `LicenceImport.dfy`, `ContentHash.dfy` | the batched licence import and the bytes its change detection hashes |
| `Quality.dfy` | the ranking score, and the paged recompute of scores and badges |
| `TextCodecs.dfy` | the JSON and HTML escapers, slugs and search cursors |

A protocol is a state, a step datatype, and a run: a sequence of states each
reached by an enabled step. Its results hold in every state of every run. Code
that changes a table or an object in place is a class or a method with a loop,
proved equal to a specification function, and the lemmas are about that function.

Where the code does not keep a promise, the model follows the code and says exactly
when the promise is kept:

- A claimed message marked one millisecond after `stale_after_secs` can be taken
  back out of `sent`, because the marks are guarded by id alone
  (`WorkQueue.OneMillisecondLateUnsends`). Settled rows stay settled in every run of
  workers that pace themselves like the loop if and only if the worst case of a batch
  fits in the limit (`WorkerPass.SafeIffFits`). The default mail batch of 25 does not,
  however fast the database is; 19 is the largest that can (`WorkerPass.DefaultBatches`).
- Sorting by budget, the page walk never reaches the jobs without a budget once the
  budgeted ones fill the first page. `JobBoard.WalkIsCompleteIff` is the exact
  condition and `JobBoard.UnbudgetedJobIsNeverReached` the smallest failing board.
- "At most one is ever live per user and purpose" holds if and only if issues of the
  same user and purpose do not overlap; `k` of them overlapping leave up to `k`
  (`AuthTokens.OpenTokensIff`).
  That is so even if they overlap only while a challenge is live, as the resends of a
  login code do.
- Removing a profile photo never deletes its object: `UPDATE … RETURNING` is read off
  the row just written, so the caller is given NULL (`Photos.WhatUpdatesReturn`,
  `Photos.ClearedProfileLeaks`). Replacing one returns the key its statement saw when it
  started, so each replacement deletes what it displaces if and only if replacements of
  the photo do not overlap (`Photos.AlwaysDroppedIff`).
- The photo limits hold if and only if at most one upload is in flight; with `k` the
  most there can be is one short of the limit plus `k` (`Photos.PhotoLimitIff`).
- What a call reads back after fetching signing keys is handed out unchecked. Keys are
  younger than their life and a day if and only if twice the longest delay of a call is
  under a day: one call that takes twelve hours to write what it fetched, and as long to
  read it back, breaks it alone (`KeyCache.KeysAreYoungIff`). Apart from that, a slow
  fetch may overwrite a newer set; the cache never goes back in time if and only if
  fetches do not overlap (`KeyCache.AlwaysForwardIff`).
- A password change or reset revokes the sessions there are. One granted later by a code
  that was emailed before outlives it: exactly if the password changed between sending
  the code and entering it (`CodeSessions.CodeSessionOutlivesIff`).
- Eight wrong guesses lock an account, but guesses under way are still counted and a lock
  that has run out may be cleared late. With at most `k` logins under way and nobody
  getting in, less than a lockout sees at most `(k + 1)(k + 7)` wrong guesses, and no
  smaller number will do (`LockoutReached.GuessesIff`).

Assumptions, each visible in the definitions: a database transaction is one step,
except in the photo flows, where a statement's snapshot is a step too, in issuing a
token and in the login pre-check; password
hashes and token hashes are fresh each time one is made; the clock, the network and
the hash functions are parameters; the score and the similarity ratios are computed
over the reals.

## Model

| member | source | states |
|---|---|---|
| `WorkQueue.BackoffMillis` | crates/cm-domain/src/mail_worker.rs:61-66 | every wait is between 30 seconds and an hour, whatever count it is given |
| `WorkQueue.BackoffDoubles` | crates/cm-domain/src/geocode_worker.rs:63-68 | each wait is twice the one before until the hour is reached; both queues use the same rule |
| `WorkQueue.ClaimKeepsInv` | crates/cm-db/src/repo/email_outbox.rs:118-143 | a claim keeps every row's lock, schedule and attempts consistent and gives no message a second holder |
| `WorkQueue.MarkKeepsInv` | crates/cm-db/src/repo/email_outbox.rs:145-201 | a mark in time hits a row that is still locked by exactly that pass, and keeps the invariant although the update has no guard |
| `WorkQueue.StepKeepsInv` | crates/cm-db/src/repo/email_outbox.rs:91-219 | every step, including recovery, crash and prune, keeps the invariant |
| `WorkQueue.RunKeepsInv` | crates/cm-db/src/repo/geocode.rs:53-203 | the invariant holds in every state of every timely run, for either queue |
| `WorkQueue.SafeUnderTiming` | crates/cm-db/src/repo/email_outbox.rs:118-219 | if no mark comes later than `stale_after_secs` after its claim, no message is held by two workers, held messages are in progress, and attempts reach the maximum exactly for failed rows |
| `WorkQueue.FinalIsForever` | crates/cm-db/src/repo/email_outbox.rs:145-219 | sent, failed and skipped rows never change again in a timely run, and a pruned id never comes back |
| `WorkQueue.SentMeansAccepted` | crates/cm-domain/src/mail_worker.rs:92-134 | in every run, timely or not, a row says sent only if the provider accepted the message |
| `WorkQueue.StepKeepsOwing` | crates/cm-domain/src/mail_worker.rs:92-134 | each claim of a message is one provider call, made or still owed by the pass that claimed it |
| `WorkQueue.StepKeepsCharge` | crates/cm-db/src/repo/email_outbox.rs:118-219 | each claim of a message is charged to an attempt, to a recovery, or to its being out or sent |
| `WorkQueue.CallsAreAccountedFor` | crates/cm-domain/src/mail_worker.rs:92-134 | in every run the provider has been called for a message at most as often as it has attempts and recoveries, and once more while it is out or when it is sent |
| `WorkQueue.TimelyCallsAreCapped` | crates/cm-domain/src/mail_worker.rs:69-137 | in a timely run that is at most the maximum of attempts plus the recoveries |
| `WorkQueue.LateMarkUnsends` | crates/cm-db/src/repo/email_outbox.rs:145-219 | from any state in which a pass that holds no answer yet is overdue for the message at its head, still locked as it claimed it, a pass with an unused id can, for any batch of at least one, recover and send it, and the first then takes it back out of sent with one attempt more |
| `WorkQueue.OneMillisecondLateUnsends` | crates/cm-db/src/repo/email_outbox.rs:166-201 | for every configuration there is a run, late by one millisecond in its last step only, in which a sent row leaves sent |
| `WorkQueue.NeverStuck` | crates/cm-db/src/repo/email_outbox.rs:203-219 | from every state a timely run reaches, each unsettled row has a timely continuation in which it is sent |
| `WorkHistory.RowMoves` | crates/cm-db/src/repo/email_outbox.rs:118-219 | what each step does to a row, on its columns: a claim locks one that is due, recovery puts back one locked too long with its attempts and schedule, a mark makes it sent or skipped, or after an error counts an attempt, fails it at the maximum and otherwise puts it off by the backoff; it leaves only by a prune once settled, and nothing else touches it |
| `WorkHistory.RowArrives` | crates/cm-db/src/repo/email_outbox.rs:91-112 | a row comes into being by being enqueued under an unused id: queued, no attempts, due at once |
| `WorkHistory.PassMoves` | crates/cm-domain/src/mail_worker.rs:92-134 | a pass works through what it claimed in order, one answer and one mark to each message; it ends by a crash, or when a message that failed is gone |
| `WorkHistory.PassStarts` | crates/cm-db/src/repo/email_outbox.rs:118-143 | a pass begins with a claim of at most a batch of due rows, each once, with the attempts they had |
| `WorkHistory.AcceptedMoves` | crates/cm-domain/src/mail_worker.rs:92-134 | the provider takes a message exactly when it says so, or fails having taken it, and then the one at the head of the pass |
| `WorkHistory.HowItWasFinished` | crates/cm-domain/src/mail_worker.rs:69-137 | in every run, timely or not, a settled message was claimed by a pass when it was queued and due, then the provider was asked about it by that pass, then that pass marked it, and the answer is the one its status reports |
| `WorkerPass.MarkTimeBound` | crates/cm-domain/src/mail_worker.rs:90-134 | the i-th item is marked within i timeouts, i-1 gaps and the database time so far, and after exactly that time when every call takes its whole timeout and every sleep its whole gap |
| `WorkerPass.FittingBatch` | crates/cm-domain/src/geocode_worker.rs:92-160 | if the worst case of a batch fits in the stale limit, every mark of every such batch is in time, whichever items sleep the gap, a part of it or, like a listing without an address, not at all |
| `WorkerPass.SlowestCalls` | crates/cm-domain/src/mail_worker.rs:90-134 | if it does not fit, there are calls, each within its timeout, whose marks are late |
| `WorkerPass.BatchFitsIff` | crates/cm-domain/src/mail_worker.rs:69-137 | a batch is sure to be marked in time if and only if its worst case fits |
| `WorkerPass.FittingBatchesAreSafe` | crates/cm-domain/src/mail_worker.rs:69-137 | over every run of workers whose marks come when the loop makes them, with a batch that fits, the queue invariant holds and settled rows stay settled |
| `WorkerPass.OverrunUnsends` | crates/cm-domain/src/mail_worker.rs:69-137 | with a batch that does not fit there is such a run, every call within its timeout, in which a sent row leaves sent |
| `WorkerPass.SafeIffFits` | crates/cm-domain/src/mail_worker.rs:69-137 | settled rows stay settled in all such runs if and only if the worst case of a batch fits |
| `WorkerPass.PassSteps` | crates/cm-domain/src/mail_worker.rs:92-134 | the loop over a claimed batch is a sequence of protocol steps whose marks come at the times the calls give them |
| `WorkerPass.DefaultBatches` | crates/cm-domain/src/mail_worker.rs:39-49 | with the defaults, geocoding is in time exactly while the database spends at most 88 seconds on a batch, and a mail batch exactly while 30.5 seconds for each message and the database time stay within 600.5; so never for more than 19 |
| `WorkerPass.Earliest` | crates/cm-db/src/repo/email_outbox.rs:118-143 | finds a most overdue row of a set |
| `WorkerPass.Outbox.Enqueue` | crates/cm-db/src/repo/email_outbox.rs:91-112 | one queued row is added, due at once, with no attempts |
| `WorkerPass.Outbox.RequeueStalled` | crates/cm-db/src/repo/email_outbox.rs:203-219 | exactly the rows locked longer than the limit go back to the queue, and they are counted |
| `WorkerPass.Outbox.Claim` | crates/cm-db/src/repo/email_outbox.rs:118-143 | up to the limit of due rows are locked, each once and in any order; none is less overdue than one left out, and none is left out while there is room |
| `WorkerPass.Outbox.MarkDone` | crates/cm-db/src/repo/email_outbox.rs:145-164 | the row becomes sent and unlocked whatever it was; an unknown id changes nothing |
| `WorkerPass.Outbox.MarkSkipped` | crates/cm-db/src/repo/geocode.rs:163-185 | the row becomes skipped and unlocked whatever it was; an unknown id changes nothing |
| `WorkerPass.Outbox.MarkFailed` | crates/cm-db/src/repo/email_outbox.rs:166-201 | one more attempt, failed at the maximum and queued with the backoff otherwise; an unknown id is an error and writes nothing |
| `WorkerPass.Outbox.Settle` | crates/cm-domain/src/mail_worker.rs:103-131 | exactly the message's row is rewritten, as the provider's answer says |
| `WorkerPass.Outbox.WorkThrough` | crates/cm-domain/src/mail_worker.rs:92-134 | the i-th row ends as the i-th answer says, stamped with the i-th mark time; no other row changes; messages sent, skipped and failed are counted by their answers |
| `WorkerPass.Outbox.RunOnce` | crates/cm-domain/src/mail_worker.rs:69-137 | a whole pass: recovery, claim, one settlement per claimed row, everything else as recovery left it, statistics that agree; and, from any protocol state with those rows, a path of protocol steps with its marks on schedule |
| `JobBoard.ResumeIff` | crates/cm-db/src/repo/jobs.rs:530-562 | the generated resume condition admits exactly the rows after the cursor's row, except that a non-NULL key never admits a NULL one |
| `JobBoard.ResumeShrinks` | crates/cm-db/src/repo/jobs.rs:530-562 | a later cursor admits only rows an earlier one admitted |
| `JobBoard.OrderByIsSorted` | crates/cm-db/src/repo/jobs.rs:479-492 | the ORDER BY list holds exactly the matching rows, each before the next |
| `JobBoard.SortedUnique` | crates/cm-db/src/repo/jobs.rs:479-492 | there is only one such list: key, creation time and id decide every tie |
| `JobBoard.Clamped` | crates/cm-db/src/repo/jobs.rs:564-632 | the page size used is the one asked for if it is between 1 and 50, and otherwise the nearer of the two |
| `JobBoard.ThreeValues` | crates/cm-db/src/repo/jobs.rs:530-562 | the conditions combine as SQL's do: when AND and OR are true and when they are false, and unknown otherwise |
| `JobBoard.TakeNext` | crates/cm-db/src/repo/jobs.rs:837-844 | the extra row is dropped, and there is a cursor, at the last row kept, exactly when there was one |
| `JobBoard.WalkRest` | crates/cm-db/src/repo/jobs.rs:564-632 | from a row whose cursor is safe the walk returns the whole rest of the list, in order |
| `JobBoard.KeyedIsPrefix` | crates/cm-db/src/repo/jobs.rs:479-492 | the rows with a leading key are a prefix of the list, NULLs last |
| `JobBoard.WalkIgnoresUnkeyed` | crates/cm-db/src/repo/jobs.rs:530-562 | a cursor with a key walks the keyed rows only |
| `JobBoard.WalkIsComplete` | crates/cm-db/src/repo/jobs.rs:464-632 | with no leading key, or no NULL one, walking page by page with any page size yields exactly the full list: no gap, no repeat |
| `JobBoard.WalkWithUnkeyed` | crates/cm-db/src/repo/jobs.rs:464-632 | with NULL keys present, the walk is the full list if the keyed rows are fewer than a page, and otherwise exactly the keyed prefix |
| `JobBoard.WalkIsCompleteIff` | crates/cm-db/src/repo/jobs.rs:464-632 | the exact condition under which the walk is complete |
| `JobBoard.UnbudgetedJobIsNeverReached` | crates/cm-db/src/repo/jobs.rs:494-528 | the smallest failing board: one budgeted job, one without, pages of one |
| `JobBoard.BeforeIsAsAsked` | crates/cm-db/src/repo/jobs.rs:494-528 | the chosen ordering puts a row first exactly when the request would: biggest budget, nearest, most relevant or best fit, missing values last, newest on ties and when there is nothing to sort on |
| `JobBoard.WalkIsAsAsked` | crates/cm-db/src/repo/jobs.rs:494-632 | that holds between any two rows of the whole walk, across its pages |
| `Facets.CountFacets` | crates/cm-db/src/repo/jobs.rs:695-719 | the reading loop computes the specified fold of the result rows |
| `Facets.FacetsAreTheGroups` | crates/cm-db/src/repo/jobs.rs:695-719 | each group of the query becomes one facet of its own kind with its own name and size, and nothing else does |
| `Facets.TotalIsEverything` | crates/cm-db/src/repo/jobs.rs:664-719 | the total is the grand-total row's, never that of the jobs without a trade |
| `Facets.OneJobMore` | crates/cm-db/src/repo/jobs.rs:664-686 | one more job is counted in exactly one group of each kind |
| `Facets.GroupsPartition` | crates/cm-db/src/repo/jobs.rs:664-686 | the groups of one kind together count every matching job once |
| `Facets.FacetsAgreeWithTheBoard` | crates/cm-db/src/repo/jobs.rs:664-719 | in whatever order the rows come back, the total is the number of matching jobs and each of the three groups sums to it |
| `EditDistance.NextRow` | tools/gmaps-enrichment/matching.py:121-131 | from one row of distances of prefixes, the inner loop makes the next |
| `EditDistance.Levenshtein` | tools/gmaps-enrichment/matching.py:111-132 | the two-row loop computes the recursive distance |
| `EditDistance.Cheapest` | tools/gmaps-enrichment/matching.py:111-132 | there is an edit script from one string to the other that costs the distance |
| `EditDistance.DistanceIsLeast` | tools/gmaps-enrichment/matching.py:111-132 | no edit script costs less |
| `EditDistance.DistanceIsCheapest` | tools/gmaps-enrichment/matching.py:111-132 | the distance is the cost of the cheapest edit script |
| `EditDistance.Symmetric` | tools/gmaps-enrichment/matching.py:111-132 | the distance is the same both ways |
| `EditDistance.Bounds` | tools/gmaps-enrichment/matching.py:111-132 | it lies between the difference of the lengths and the longer length |
| `EditDistance.ZeroIff` | tools/gmaps-enrichment/matching.py:111-132 | it is zero exactly for equal strings |
| `EditDistance.ComposedIsRight` | tools/gmaps-enrichment/matching.py:111-132 | two scripts that meet compose into one that costs no more than both |
| `EditDistance.TriangleInequality` | tools/gmaps-enrichment/matching.py:111-132 | going by way of a third string is never shorter |
| `Matching.RatioRange` | tools/gmaps-enrichment/matching.py:135-139 | the ratio is in 0..1, symmetric, and 1 exactly for equal non-empty strings |
| `Matching.RatioIs` | tools/gmaps-enrichment/matching.py:135-139 | the ratio is the part of the longer string that no edit touches |
| `Matching.DistanceToLonger` | tools/gmaps-enrichment/matching.py:111-132 | what is written after a string is exactly what sets the longer one apart |
| `Matching.TokenSetOfSpaced` | tools/gmaps-enrichment/matching.py:150-156 | the tokens of words with single spaces between them are those words, all of them |
| `Matching.PrecedesIff` | tools/gmaps-enrichment/matching.py:150-156 | the order the tokens are sorted in is the dictionary's |
| `Matching.SortedWordsAreSorted` | tools/gmaps-enrichment/matching.py:150-156 | the sorted tokens are in that order, each once |
| `Matching.TokenSetRatioOneIff` | tools/gmaps-enrichment/matching.py:142-168 | the token-set ratio is in 0..1, and 1 exactly when one non-empty token set contains the other |
| `Matching.TokenSetRatioIs` | tools/gmaps-enrichment/matching.py:142-168 | the token-set ratio is the best of three: what part of either name the shared words are, and how alike the names are with those first; without a shared word only the last counts |
| `Matching.TokenSetRatioSymmetric` | tools/gmaps-enrichment/matching.py:142-168 | it is symmetric |
| `Matching.NameSimilarityOneIff` | tools/gmaps-enrichment/matching.py:171-181 | name similarity of normalised names is in 0..1, symmetric, and 1 exactly for equal names or contained token sets |
| `Matching.RoundNear` | tools/gmaps-enrichment/matching.py:307-384 | rounding gives the nearest multiple of a ten-thousandth, and of two that are as near the even one |
| `Matching.RoundMonotone` | tools/gmaps-enrichment/matching.py:307-384 | rounding never reorders scores |
| `Matching.TotalRange` | tools/gmaps-enrichment/matching.py:307-384 | every match score is in 0..1 |
| `Matching.ClassifyMonotone` | tools/gmaps-enrichment/matching.py:307-384 | more evidence never lowers the score or the verdict |
| `Matching.VerdictMeans` | tools/gmaps-enrichment/matching.py:307-384 | what each verdict says about state, city, category and name similarity, whatever was added up to reach it |
| `Matching.EvidenceIsWorth` | tools/gmaps-enrichment/matching.py:307-384 | what each piece of evidence adds to the rounded total, to the last digit: three tenths for the city, two for the state, one for the category |
| `Matching.NameIsWorth` | tools/gmaps-enrichment/matching.py:307-384 | and four tenths of the similarity for the name |
| `Matching.VerdictIs` | tools/gmaps-enrichment/matching.py:307-384 | the verdict on the evidence alone, both directions: with the state, and with city or category or neither, the exact name similarities from which a place is confirmed, and from which it needs review; every other place is rejected |
| `Words.JoinInjective` | tools/gmaps-enrichment/matching.py:142-168 | joining non-empty words free of the separator loses nothing |
| `Words.JoinAppend` | tools/gmaps-enrichment/matching.py:142-168 | joining two lists of words is joining their joins |
| `Pairing.ScoreAll` | tools/gmaps-enrichment/ingest.py:209-219 | every place is scored against every contractor, and nothing else |
| `Pairing.SortIsSorted` | tools/gmaps-enrichment/ingest.py:221-222 | sorting puts the best score first and keeps exactly the candidates |
| `Pairing.SortIsStable` | tools/gmaps-enrichment/ingest.py:221-222 | candidates of equal score keep their order |
| `Pairing.TakeGreedily` | tools/gmaps-enrichment/ingest.py:224-235 | the loop with its two taken-sets is the greedy choice |
| `Pairing.GreedyIsJustified` | tools/gmaps-enrichment/ingest.py:224-235 | the choice is one-to-one, and every candidate not taken lost to a taken one that shares a side with it and scores at least as much |
| `Pairing.PairPlaces` | tools/gmaps-enrichment/ingest.py:196-235 | the whole operation returns such a pairing of the scored candidates |
| `Pairing.NoBlockingPair` | tools/gmaps-enrichment/ingest.py:196-235 | no place and contractor would both score strictly higher with each other |
| `Pairing.PairsAsManyAsPossible` | tools/gmaps-enrichment/ingest.py:196-235 | the pairing has exactly as many pairs as the shorter side |
| `Pairing.AtLeastHalfOfAny` | tools/gmaps-enrichment/ingest.py:196-235 | its total score is at least half that of any one-to-one assignment |
| `Pairing.AtLeastHalfByEvidence` | tools/gmaps-enrichment/ingest.py:209-235 | that holds of the scores the matcher gives, which are never negative |
| `AuthTokens.RunKeepsInv` | crates/cm-db/src/repo/auth_tokens.rs:39-205 | over every run of issue transactions that begin, commit or abort and of verify, consume, prune and clock steps the token table and its history stay consistent |
| `AuthTokens.TokensAreSafe` | crates/cm-db/src/repo/auth_tokens.rs:89-121 | however issues overlap, an open token has fewer than five attempts, at most five guesses are ever evaluated on it and it is matched at most once |
| `AuthTokens.ConsumedStaysConsumed` | crates/cm-db/src/repo/auth_tokens.rs:89-181 | a consumed token is never live again, is guessed at no more and wins no more |
| `AuthTokens.LinkKeepsItsUser` | crates/cm-db/src/repo/auth_tokens.rs:144-181 | between looking at a link and consuming it, it cannot come to belong to another user |
| `AuthTokens.StepKeepsSlot` | crates/cm-db/src/repo/auth_tokens.rs:39-71 | the open tokens committed since a given one, and the issues under way that did not see it, never outnumber the issues that may overlap |
| `AuthTokens.OpenTokensBounded` | crates/cm-db/src/repo/auth_tokens.rs:33-71 | with at most k issues of one user and purpose under way, at most k of their tokens are open |
| `AuthTokens.OverlappingIssuesAllLive` | crates/cm-db/src/repo/auth_tokens.rs:39-71 | for every k a run from the empty table reaches k live tokens, and does it with resends of a live challenge alone |
| `AuthTokens.OpenTokensIff` | crates/cm-db/src/repo/auth_tokens.rs:33-71 | at most one token is open in all runs with at most k issues under way if and only if k is at most one; likewise for any other number, and for the runs in which only resends of a live challenge overlap |
| `AuthTokens.GuessesPerSlot` | crates/cm-db/src/repo/auth_tokens.rs:84-121 | all the guesses ever evaluated on the tokens open at one moment are at most five for each issue that may overlap |
| `AuthTokens.AloneIsIssued` | crates/cm-db/src/repo/auth_tokens.rs:39-71 | an issue that nothing overlaps does what its two statements do on their own |
| `AuthTokens.TokenTable.Issue` | crates/cm-db/src/repo/auth_tokens.rs:39-71 | earlier open tokens of the same user and purpose are spent and one live token is added |
| `AuthTokens.TokenTable.VerifyCode` | crates/cm-db/src/repo/auth_tokens.rs:89-121 | a guess costs an attempt on a live challenge only, a match or the last attempt spends it; the answer is the user of the old row exactly when it was live, of that purpose and with that digest, wrong when it was live with another, and nothing otherwise |
| `AuthTokens.TokenTable.ConsumeLink` | crates/cm-db/src/repo/auth_tokens.rs:164-181 | a live link is spent and names its user, and none is left behind; otherwise nothing is found and nothing changes |
| `TokenHistory.AnswerIs` | crates/cm-db/src/repo/auth_tokens.rs:89-121 | the answer to a guess, on the fields of the row: nothing exactly if it is not an open challenge of that purpose with time left, wrong exactly if it is one with another digest, and otherwise its user |
| `TokenHistory.MatchedIsWhoseCode` | crates/cm-db/src/repo/auth_tokens.rs:39-121 | over every run, the user a guess signs in is the user named by the step that began issuing that token with that digest, less than its life ago, and nobody was signed in by it before |
| `TokenHistory.LinkIsWhoseLink` | crates/cm-db/src/repo/auth_tokens.rs:39-181 | likewise a link acts for the user it was issued for, in its time, and once |
| `TokenHistory.TokenWasIssued` | crates/cm-db/src/repo/auth_tokens.rs:39-71 | every token in the table goes back to two steps, the one that began its issue with its user, purpose and digest and the commit, and ends its life the time to live after the first |
| `TokenHistory.TokenMoves` | crates/cm-db/src/repo/auth_tokens.rs:39-205 | a token keeps its user, purpose, digest and end, counts exactly the guesses at it while it is open and in time, is spent by exactly a right or a fifth guess, its own link, or an issue that saw it open, is never unspent, and is pruned only long after its end |
| `TokenHistory.TokenArrives` | crates/cm-db/src/repo/auth_tokens.rs:39-71 | a token appears, fresh, exactly when its issue commits |
| `TokenHistory.IssueMoves` | crates/cm-db/src/repo/auth_tokens.rs:39-71 | an issue begins by looking which tokens of its user and purpose are open, and ends by a commit or not at all |
| `TokenHistory.HistoryMoves` | crates/cm-db/src/repo/auth_tokens.rs:89-181 | the history the bounds are about counts exactly the guesses evaluated and the tokens accepted |
| `TokenHistory.SpentByItsOwn` | crates/cm-db/src/repo/auth_tokens.rs:39-181 | over every run, a token is spent only by its own code or link, its fifth guess, or another token issued for the same user and purpose |
| `Passwords.RunKeepsInv` | crates/cm-auth/src/service.rs:544-694 | over every interleaving of registrations, logins, codes, changes, upgrades, resets, deactivations and clock steps the hashes, flows, sessions and history stay consistent |
| `Passwords.OneChangePerHash` | crates/cm-auth/src/service.rs:1253-1353 | at most one change that verified a given stored hash ever commits |
| `Passwords.MintedOnTheVerifiedHash` | crates/cm-auth/src/service.rs:544-694 | a session login mints was earned by that same login, under way all the while, which began for an active account, looked it up with no lock in force, read its hash and verified it, in that order; when it is minted the account has that same hash and password and is active and unlocked |
| `Passwords.SessionsDieWithThePassword` | crates/cm-db/src/repo/sessions.rs:180-198 | every live session was granted under the password the account has now; one minted by login or by a change was verified with that password too |
| `SignIns.LoginGives` | crates/cm-auth/src/service.rs:544-694 | what finishing a login does: if its check no longer holds, nothing; on a remembered browser a live session of the login's user and no code; on any other browser a code for that user and no session |
| `SignIns.FlowMoves` | crates/cm-auth/src/service.rs:544-1353 | a flow is at a stage exactly if its own last step led it there or it was there and the step is another's: a step that can lead on does, and none else moves it |
| `SignIns.PasswordMoves` | crates/cm-auth/src/service.rs:1077-1353 | the stored hash is replaced by exactly a change whose check still holds, a reset, or an upgrade that finds the hash it verified, with the hash each brings; only the first two are a new password |
| `SignIns.CounterMoves` | crates/cm-db/src/repo/passwords.rs:131-190 | the failure counter and the lock restart with exactly a login that gets in, a new password or the clearing of a lock; a wrong guess adds one, and from the eighth on locks for fifteen minutes; nothing else moves either |
| `SignIns.SessionMoves` | crates/cm-db/src/repo/sessions.rs:180-198 | a session is ended by exactly its logout or a new password of its user, and nothing else about it ever changes |
| `SignIns.SessionArrives` | crates/cm-auth/src/service.rs:544-787 | a session begins exactly with a login that gets in on a remembered browser, a change that takes effect, or a code entered for an active account, and is that user's |
| `SignIns.ChallengeMoves` | crates/cm-auth/src/service.rs:704-839 | a code may be entered until exactly it is entered, lapses or is replaced, and stands for the same login throughout |
| `SignIns.ChallengeArrives` | crates/cm-auth/src/service.rs:292-342 | a code is sent by a registration, by a login that gets in on a browser not remembered, or again for one already out |
| `SignIns.TwoWaysIn` | crates/cm-auth/src/service.rs:544-787 | over every run, every direct session goes back to a login on a remembered browser or a change, by a flow that had read the hash of that very account and verified the password against it, and the account still had that hash and was active and unlocked when the session began; every other session goes back to a code out for that user, entered while the account was active; there is no third way |
| `SignIns.HashMovedByItsOwner` | crates/cm-auth/src/service.rs:912-1353 | over every run, a stored hash moves only by a change or an upgrade of a flow that had verified the hash it replaces, or by a reset prepared for that user |
| `SignIns.OneSessionPerCode` | crates/cm-auth/src/service.rs:704-839 | over every run, the sessions granted by code, the codes entered and the codes still out are together no more than the codes sent |
| `CodeSessions.EpochCounts` | crates/cm-auth/src/service.rs:1077-1353 | between two moments an account's password is renewed exactly as often as changes and resets of it take effect; hash upgrades are none |
| `CodeSessions.CodeSessionOutlivesIff` | crates/cm-auth/src/service.rs:704-839 | a session granted by a code goes back to a login or registration that sent a code earlier, through any resends, and outlives the password verified then if and only if a change or reset took effect between |
| `CodeSessions.ResetBeforeTheCode` | crates/cm-auth/src/service.rs:704-787 | the smallest such run: log in, reset the password, enter the code |
| `Lockout.WrongGuessesAreBounded` | crates/cm-db/src/repo/passwords.rs:131-174 | eight counted failures always mean a lock, and with k guesses under way an account never counts more than 7 + k |
| `Lockout.GuessesPerLockout` | crates/cm-auth/src/service.rs:841-873 | in less than one lockout, with at most k logins under way and nobody getting in, at most (k + 1)(k + 7) wrong guesses are evaluated, although a lock may be cleared late |
| `LockoutReached.BoundsAreReached` | crates/cm-db/src/repo/passwords.rs:131-174 | for every k of at least one there is a run in which 7 + k failures are counted and (k + 1)(k + 7) wrong guesses are evaluated without time passing |
| `LockoutReached.GuessesIff` | crates/cm-auth/src/service.rs:544-694 | so that number is the least that bounds the wrong guesses of every such stretch |
| `Claims.ApprovalImpliesFree` | crates/cm-db/src/repo/claims.rs:181-211 | once the unique indexes let an approval through, nobody owns the listing and the claimant owns nothing |
| `Claims.RunKeepsInv` | crates/cm-domain/src/claims.rs:31-276 | ownership, approval, roles and badge stay consistent over every run |
| `Claims.OwnershipIsApproval` | crates/cm-domain/src/claims.rs:31-276 | a listing is owned by a user exactly when that pair has an approved claim, no listing or user has two, and a badge implies an owner with the role |
| `Claims.DecidedOnce` | crates/cm-db/src/repo/claims.rs:181-211 | a claim leaves pending at most once |
| `Claims.ApproveSucceedsIff` | crates/cm-domain/src/claims.rs:174-276 | exactly when an approval succeeds; the refusal "claimed by someone else" after the row has moved cannot happen |
| `Claims.OpenSucceedsIff` | crates/cm-domain/src/claims.rs:31-118 | exactly when opening succeeds, and that it then owns the listing, which carries the badge exactly if its licence is active and either has no expiry or one not before today |
| `Claims.Desk.Attach` | crates/cm-db/src/repo/contractors.rs:399-416 | an unclaimed listing gets its owner, under the one-listing-per-owner and account-type constraints |
| `Claims.Desk.Move` | crates/cm-db/src/repo/claims.rs:181-211 | a pending claim moves once, under the two approved indexes |
| `Claims.Desk.Recompute` | crates/cm-domain/src/verification.rs:40-116 | the badge is set exactly if the listing is owned and has a licence that is active and whose expiry is absent or not before today; nothing else changes |
| `Claims.Desk.Grant` | crates/cm-domain/src/claims.rs:84-92 | ownership, role and badge follow an approval, or nothing is written |
| `Claims.Desk.Open` | crates/cm-domain/src/claims.rs:31-118 | opening is the specified transaction: all of it, or the state as it was and the right refusal |
| `Claims.Desk.Withdraw` | crates/cm-domain/src/claims.rs:121-161 | so is withdrawing one's own pending claim |
| `Claims.Desk.Decide` | crates/cm-domain/src/claims.rs:174-276 | so is deciding one |
| `ClaimHistory.OpenedIs` | crates/cm-domain/src/claims.rs:31-118 | opening approves the claim and gives the listing exactly when it exists and is free, the user is active, owns nothing and has no claim on it pending; otherwise nothing changes |
| `ClaimHistory.ApprovableIff` | crates/cm-domain/src/claims.rs:174-276 | which claims an approval would go through for, on the state alone |
| `ClaimHistory.DecideIs` | crates/cm-domain/src/claims.rs:174-276 | what a decision does to claim, owner, role and badge, and that it succeeds exactly when it may |
| `ClaimHistory.RefusedBecause` | crates/cm-domain/src/claims.rs:31-276 | which refusal is given for which reason |
| `ClaimHistory.ClaimMoves` | crates/cm-domain/src/claims.rs:121-276 | a claim always names the same listing and user; it leaves pending exactly by its claimant's withdrawal, a rejection, or an approval that may go through, to the status of that name |
| `ClaimHistory.ClaimArrives` | crates/cm-domain/src/claims.rs:31-118 | a claim comes into being exactly by an opening that may go through, approved |
| `ClaimHistory.OwnerMoves` | crates/cm-db/src/repo/contractors.rs:399-416 | a listing gets an owner, and a user the role, exactly with an approval, and neither is ever lost |
| `ClaimHistory.BadgeMoves` | crates/cm-domain/src/verification.rs:40-116 | a badge moves only when it is asked about again, and then to whether the listing is owned under an active licence that has not expired that day |
| `ClaimHistory.LicenceMoves` | crates/cm-domain/src/verification.rs:40-116 | what an import says of a licence stands until the next one |
| `ClaimHistory.OwnersWereGiven` | crates/cm-domain/src/claims.rs:31-276 | over every run, the owners are exactly those who were given their listing at some step |
| `ClaimHistory.BadgeIsLastRecheck` | crates/cm-domain/src/verification.rs:40-154 | over every run, a listing carries the badge exactly if the last step that asked found it owned under an active licence not expired that day; a licence that lapses since then takes it at the next recheck and not before |
| `Photos.RunKeepsInv` | crates/cm-domain/src/contractors.rs:70-255 | over every interleaving with crashes, rows, uploads and pending deletions never share a key wrongly |
| `Photos.NoRowDangles` | crates/cm-domain/src/jobs.rs:262-449 | no committed row ever names an object missing from the store |
| `Photos.OrphanForever` | crates/cm-domain/src/contractors.rs:115-138 | an orphaned object is never named or deleted again |
| `Photos.WhatUpdatesReturn` | crates/cm-db/src/repo/contractors.rs:542-590 | clearing a photo returns no key whatever the row held, setting one returns exactly the key it displaced |
| `Photos.ClearedProfileLeaks` | crates/cm-domain/src/contractors.rs:122-138 | so removing a profile photo, which deletes the key it is given, orphans the object, unless a replacement under way has read its key |
| `Photos.ReplacementDropsIff` | crates/cm-db/src/repo/contractors.rs:542-571 | replacing one puts the old object in line for deletion if and only if the statement saw it when it started; if nobody has read its key, it is orphaned |
| `Photos.OverlappingReplacementsLeak` | crates/cm-domain/src/contractors.rs:70-119 | from any state in which two replacements are about to write, both may look first, and the object of the one that writes first is then orphaned |
| `Photos.AlwaysDroppedIff` | crates/cm-db/src/repo/contractors.rs:542-571 | in all runs with at most k replacements of a photo between looking and writing, each deletes what it displaces, if and only if k is at most one |
| `Photos.PhotoCount` | crates/cm-domain/src/jobs.rs:359-386 | with at most k uploads in flight a job has at most 7 + k photos and a listing at most 11 + k work photos |
| `Photos.CrowdReachesTheBound` | crates/cm-domain/src/contractors.rs:168-195 | for jobs and listings alike and for every k there is a run from the empty store that reaches that many |
| `Photos.PhotoLimitIff` | crates/cm-domain/src/jobs.rs:359-386 | for jobs and listings alike, the limit holds in all runs with at most k uploads in flight if and only if k is at most one; in general the least bound is one short of the limit plus k |
| `Photos.RanKeepsInv` | crates/cm-domain/src/contractors.rs:70-255 | the invariant survives every sequence of protocol steps |
| `Photos.Gallery.Upload` | crates/cm-domain/src/contractors.rs:70-207 | limit, object, row, displaced object, in that order and cut off anywhere, is a sequence of protocol steps; the row changes only once its object is there |
| `Photos.Gallery.Record` | crates/cm-db/src/repo/contractors.rs:542-571 | the row is written and the key it displaced comes back |
| `Photos.Gallery.Clear` | crates/cm-db/src/repo/contractors.rs:574-590 | the row is cleared and what its column then holds comes back |
| `Photos.Gallery.Delete` | crates/cm-domain/src/contractors.rs:109-113 | the object of a key that came back goes, if the store answers |
| `Photos.Gallery.ClearProfile` | crates/cm-domain/src/contractors.rs:122-138 | the row goes, the key that comes back would be deleted, none ever comes back, and every object stays |
| `Photos.Gallery.Remove` | crates/cm-domain/src/contractors.rs:223-255 | row first, object after, cut off anywhere, is a sequence of protocol steps |
| `Photos.Gallery.CancelJob` | crates/cm-domain/src/jobs.rs:262-325 | exactly the job's rows go, then exactly its objects the store answers for |
| `Photos.KeysAt` | crates/cm-db/src/repo/job_photos.rs:112-120 | the keys collected are exactly those the rows name |
| `Photos.LimitsAre` | crates/cm-domain/src/jobs.rs:359-386 | with uploads one at a time, the least bounds are eight photos to a job and twelve to a listing's work |
| `PhotoHistory.RowMoves` | crates/cm-domain/src/contractors.rs:70-255 | a place names a key exactly once an upload for it writes it there, until another one does, the photo is removed, the profile cleared or the job cancelled |
| `PhotoHistory.ObjectMoves` | crates/cm-domain/src/contractors.rs:70-255 | an object is stored exactly by its upload and goes exactly when a delete of its key reaches the store |
| `PhotoHistory.UploadMoves` | crates/cm-domain/src/contractors.rs:70-207 | an upload goes through storing, looking and writing in this order, for one place and one key, unless it dies |
| `PhotoHistory.RecallsMove` | crates/cm-db/src/repo/contractors.rs:542-571 | what a flow has read and not yet acted on: the photo a replacement found at its place, or all of a job about to be cancelled |
| `PhotoHistory.DropsMove` | crates/cm-domain/src/contractors.rs:70-255 | what a flow has to delete: exactly the photo it replaced if it had seen it, the one it removed, or those it listed before cancelling, each until it has tried |
| `PhotoHistory.PhotoWasUploadedHere` | crates/cm-domain/src/jobs.rs:359-449 | over every run, the photo at a place goes back to one upload for that place, which stored it first and wrote the row last; its key is made of the place's owner and that upload's id |
| `PhotoHistory.DeletedWasShown` | crates/cm-domain/src/contractors.rs:70-255 | over every run, no object is deleted but one that some place showed before, and no place shows now |
| `Location.RuleDecides` | crates/cm-domain/src/location.rs:43-98 | the rule leaves no choice: what is published is a function of visibility, precise point and centroid |
| `Location.RepublishFacts` | crates/cm-domain/src/location.rs:43-98 | republishing follows the rule, is idempotent, changes a listing exactly if it did not follow the rule, and keeps the precise point |
| `Location.AlwaysFollowsRule` | crates/cm-domain/src/location.rs:43-130 | after any imports, geocodes, visibility changes and republications the published point and source are the function of visibility, precise point and centroid |
| `Location.PreciseNeverLost` | crates/cm-db/src/repo/contractors.rs:228-284 | a precise point is never lost, and only a geocode changes it |
| `Location.ProtectedPointDoesNotShow` | crates/cm-domain/src/location.rs:43-130 | two runs that differ only in what the geocoder answered publish the same for as long as the owner asks for protection, whatever the steps make of the request |
| `Location.KeepsWhatWasSaid` | crates/cm-domain/src/location.rs:43-130 | after any steps the visibility is the one last asked for, the precise point the one last geocoded, and the postal code the one last imported |
| `Location.PublishedByHistory` | crates/cm-domain/src/location.rs:43-130 | so what is published can be read off the history: the point last geocoded if the last request was to show it, otherwise the centroid of the postal code last imported, or nothing |
| `Location.ProtectedFromThatMoment` | crates/cm-domain/src/location.rs:43-130 | once protection was the last request, two runs that differ in where the listing is publish the same, whatever was public before |
| `Location.ListingRow.constructor` | crates/cm-domain/src/import.rs:664-670 | a new listing is published by the rule from the start |
| `Location.ListingRow.SetLocation` | crates/cm-db/src/repo/contractors.rs:256-284 | writes the three location columns and no other |
| `Location.ListingRow.RepublishRow` | crates/cm-domain/src/location.rs:43-98 | reads the row and writes the location the rule gives it |
| `Location.ListingRow.ApplyGeocode` | crates/cm-domain/src/location.rs:106-123 | the point found is stored as the precise one and the listing republished by the rule |
| `Location.ListingRow.ChangeVisibility` | crates/cm-api/src/handlers/contractors.rs:550-568 | the visibility asked for is stored and the listing republished by the rule in the same step |
| `Location.ListingRow.Refresh` | crates/cm-domain/src/import.rs:664-670 | an import republishes and does not touch the precise point |
| `KeyCache.Verifier.FetchKeys` | crates/cm-auth/src/firebase.rs:516-521 | a fetch replaces the cached set, stamped when it arrives; a failed one changes nothing |
| `KeyCache.Verifier.Lookup` | crates/cm-auth/src/firebase.rs:468-500 | keys are fetched exactly if there is no set or max_age seconds have passed since it was fetched, and then the set is replaced exactly if a document came; a key is answered only from a set still usable then, and an error is returned exactly when there is no fresh set, no fetch and no usable one; every key handed out is recorded with a set younger than its lifetime plus 24 hours |
| `KeyCache.Verifier.RefreshIfAllowed` | crates/cm-auth/src/firebase.rs:503-514 | a forced fetch happens exactly when the last one is at least 300 seconds old, and otherwise nothing changes |
| `KeyCache.Verifier.KeyForToken` | crates/cm-auth/src/firebase.rs:365-376 | a token's key comes from a usable set, with at most one forced fetch; a fresh set that has the key is used as it is, one that has not is fetched again if no refresh was forced in the last 300 seconds, and the key the new one has is the answer; a key is unknown only if the set then cached has none |
| `KeyCache.CountBound` | crates/cm-auth/src/firebase.rs:34-37 | events at least 300 seconds apart are bounded in any window |
| `KeyCache.RefreshesPerWindow` | crates/cm-auth/src/firebase.rs:503-514 | a window of W seconds holds at most W/300 + 1 forced refreshes |
| `KeyCache.RunServesOk` | crates/cm-auth/src/firebase.rs:468-521 | with calls interleaved at will, once a call has written its set the cache is never more than one delay older than that |
| `KeyCache.ForcedPerWindow` | crates/cm-auth/src/firebase.rs:503-514 | the bound on forced refreshes holds in every interleaved run |
| `KeyCache.SlowCallServesOldKey` | crates/cm-auth/src/firebase.rs:468-521 | if two delays reach a day, one call alone can write a set late, read it back late and hand out too old a key |
| `KeyCache.KeysAreYoungIff` | crates/cm-auth/src/firebase.rs:468-521 | every key handed out in every interleaved run is from a set younger than its max_age plus 24 hours if and only if twice the longest delay is under a day |
| `KeyCache.OneAtATimeGoesForward` | crates/cm-auth/src/firebase.rs:468-521 | with at most one fetch under way, a cached set is only replaced by one fetched no earlier |
| `KeyCache.SlowerFetchWins` | crates/cm-auth/src/firebase.rs:468-521 | with two under way, none of them taking longer than a second, there is a run in which a set is overwritten by one fetched before it |
| `KeyCache.AlwaysForwardIff` | crates/cm-auth/src/firebase.rs:468-521 | so the cache never goes back in time in all runs with at most k fetches under way if and only if k is at most one |
| `KeyCache.LookFetchesIff` | crates/cm-auth/src/firebase.rs:468-500 | interleaved too, a call starts a fetch exactly if there is no set or its max_age has passed |
| `KeyCache.ServedIff` | crates/cm-auth/src/firebase.rs:468-521 | a key is handed out exactly by a call that finds it in a set within its life, reads it back after its own fetch, or falls back to a set within its life and a day after a failed one |
| `KeyCache.ForcedIff` | crates/cm-auth/src/firebase.rs:503-514 | a forced refresh starts exactly if none did in the last 300 seconds |
| `KeyCache.CallMoves` | crates/cm-auth/src/firebase.rs:468-521 | the course of a call from fetch to write to reading back, and that the cache is only ever what a call writes |
| `KeyCache.KeysCameFromTheProvider` | crates/cm-auth/src/firebase.rs:468-521 | over every run, every key handed out is from a document the provider sent, which arrived at the moment its set is dated and with the life it was given |
| `LicenceImport.FoldInTwo` | crates/cm-domain/src/import.rs:587-678 | importing in two parts is importing at once, in the tables and in the counts |
| `LicenceImport.OutcomesAddUp` | crates/cm-db/src/repo/licenses.rs:214-268 | every record is counted as inserted, updated or unchanged, once |
| `LicenceImport.ProjectionInStep` | crates/cm-db/src/repo/contractors.rs:111-185 | a listing in step with its licence stays so, and every licence the import adds or changes has its listing brought in step: all of it if unclaimed, all but the name if claimed |
| `LicenceImport.OwnersKeepTheirs` | crates/cm-db/src/repo/contractors.rs:150-180 | an import never changes whether a listing is claimed, its slug, or the name of a claimed one |
| `LicenceImport.FoldIsLastWord` | crates/cm-domain/src/import.rs:587-678 | after an import each licence is what its last record says, and the rest are as they were |
| `LicenceImport.ImportIsIdempotent` | crates/cm-domain/src/import.rs:587-678 | importing the same records again changes nothing, whatever the database held |
| `LicenceImport.NewListingIs` | crates/cm-db/src/repo/contractors.rs:111-185 | a licence nobody knew gets a listing exactly if the file names it: unclaimed, with the name and details the file last gave, and a slug made from the name it gave first |
| `LicenceImport.InsertedAreNew` | crates/cm-db/src/repo/licenses.rs:214-268 | as many records are counted as inserted as there are licences more than before |
| `LicenceImport.KeptAre` | crates/cm-domain/src/import.rs:502-532 | the records kept are exactly those of the lines that could be read and built and are of the county asked for, if one was, in the order of the file |
| `LicenceImport.CountsAre` | crates/cm-domain/src/import.rs:486-532 | which lines are counted as read, as skipped for their county, and as rejected |
| `LicenceImport.Importer.Flush` | crates/cm-domain/src/import.rs:587-678 | one batch is written whole and counted, or, if opening, any statement or the commit fails, not at all |
| `LicenceImport.Importer.Write` | crates/cm-db/src/repo/contractors.rs:111-185 | one record is inserted, updated or left alone, and its listing projected unless nothing changed |
| `LicenceImport.Importer.Sort` | crates/cm-domain/src/import.rs:502-532 | one row is counted as malformed, skipped, rejected or batched |
| `LicenceImport.Importer.ImportRows` | crates/cm-domain/src/import.rs:486-585 | the loop over the file is the specified fold |
| `LicenceImport.PositionAfter` | crates/cm-domain/src/import.rs:486-585 | what has been written at any row is a number of whole batches, and what is waiting is the rest |
| `LicenceImport.BatchingChangesNothing` | crates/cm-domain/src/import.rs:486-678 | for any batch size the result is the row-by-row fold, a dry run writes nothing, and read plus malformed rows equals skipped plus rejected plus inserted plus updated plus unchanged |
| `LicenceImport.FailureKeepsWholeBatches` | crates/cm-domain/src/import.rs:486-678 | a failure of any kind leaves exactly the whole batches before the one that failed, and that is the first one that goes wrong |
| `LicenceImport.ImportSucceedsIff` | crates/cm-domain/src/import.rs:486-678 | an import fails if and only if flushing some batch of its records goes wrong |
| `ContentHash.FeedHasher` | crates/cm-domain/src/import.rs:273-303 | the hasher is fed each field and a separator, in order |
| `ContentHash.DigestedInjective` | crates/cm-domain/src/import.rs:273-303 | for NUL-free fields the bytes determine the fields |
| `ContentHash.DecimalInjective` | crates/cm-domain/src/import.rs:273-303 | two amounts with the same digits are equal |
| `ContentHash.NoChangeUnseen` | crates/cm-domain/src/import.rs:273-303 | two built records with the same hashed text are the same record |
| `ContentHash.Get` | crates/cm-domain/src/import.rs:196-202 | a cell that is missing or blank is no value, and what comes back is never empty |
| `ContentHash.BuildingBuilds` | crates/cm-domain/src/import.rs:331-387 | every record built from a row has no empty optional field and classification codes free of commas |
| `ContentHash.OneColumnOneField` | crates/cm-domain/src/import.rs:331-387 | each field is made from its own column: two rows agree on a field taken over verbatim exactly if their cells in that column say the same, and on a parsed one if they do |
| `ContentHash.ParsedFieldsAre` | crates/cm-domain/src/import.rs:331-387 | each parsed field from the text of its cell, and none without one; a state is the first two letters in capitals |
| `ContentHash.GetIs` | crates/cm-domain/src/import.rs:196-202 | a cell is read without the blanks around it, nothing else is lost, and one of blanks alone is no value |
| `ContentHash.StatusIs` | crates/cm-domain/src/import.rs:204-233 | the status by what the text contains in letters of either case: inactive, else suspended, else expired; active only if it says clear or active and none of these |
| `ContentHash.CapitalsAre` | crates/cm-domain/src/import.rs:204-263 | capitals are made of the letters of ASCII and of nothing else |
| `ContentHash.PostalCodeIs` | crates/cm-domain/src/import.rs:267-270 | five digits are the postal code whatever follows them |
| `ContentHash.PostalCodeHasFive` | crates/cm-domain/src/import.rs:267-270 | a postal code is five digits, and there is none exactly if the text has fewer |
| `ContentHash.ClassificationsAre` | crates/cm-domain/src/import.rs:257-265 | a cell that lists codes with any of the five separators gives exactly those codes, in order and in capitals |
| `ContentHash.NoRowChangeUnseen` | crates/cm-domain/src/import.rs:258-387 | two rows of NUL-free fields have the same hashed text if and only if they give the same record, so exactly the changes to mapped columns that change the record are seen |
| `Quality.Score` | crates/cm-domain/src/quality.rs:122-150 | every score is in 0..1, also with zero or negative weights |
| `Quality.ScoreMonotone` | crates/cm-domain/src/quality.rs:122-150 | a better rating and every further flag never lower the score, for rated and unrated listings |
| `Quality.MoreReviewsHelp` | crates/cm-domain/src/quality.rs:122-150 | more reviews never hurt a listing rated at the mean or above, or unrated |
| `Quality.ScaleFree` | crates/cm-domain/src/quality.rs:122-150 | only the proportions of the weights matter |
| `Quality.AdjustedInCount` | crates/cm-domain/src/quality.rs:125-129 | more reviews move the adjusted rating toward the observed one: up if it is at or above the mean, down if it is at or below |
| `Quality.AdjustedBetween` | crates/cm-domain/src/quality.rs:125-129 | the adjusted rating lies between the mean and the listing's own |
| `Quality.UnreviewedIsOrdinary` | crates/cm-domain/src/quality.rs:125-129 | without reviews it is exactly the mean |
| `Quality.ScoreIsWeightedMean` | crates/cm-domain/src/quality.rs:138-149 | with a positive total the final clamp never acts |
| `Quality.WorthOfBadge` | crates/cm-domain/src/quality.rs:138-149 | the badge is worth exactly its share of the total weight |
| `Quality.WorthOfClaim` | crates/cm-domain/src/quality.rs:138-149 | so is the claim |
| `Quality.WorthOfField` | crates/cm-domain/src/quality.rs:102-149 | each profile field is worth a quarter of the completeness weight's share |
| `Quality.WorthOfRating` | crates/cm-domain/src/quality.rs:122-149 | a better rating with n reviews is worth n parts in n + 10 of the difference, over the four points between one and five, of the rating weight's share |
| `Quality.WorthOfReviews` | crates/cm-domain/src/quality.rs:122-149 | reviews are worth to an unrated listing the reviews weight's share by the logarithm of their number, and all of it from 500 on |
| `Quality.NothingToShow` | crates/cm-domain/src/quality.rs:122-149 | a listing with nothing to show scores what the mean rating is worth |
| `PagedRecompute.NextPage` | crates/cm-db/src/repo/contractors.rs:772-797 | the smallest ids after the cursor, in order, and all of them if the page is not full |
| `PagedRecompute.PageExtends` | crates/cm-domain/src/quality.rs:187-197 | a page skips no id and sees none twice |
| `PagedRecompute.Table.Rewrite` | crates/cm-db/src/repo/contractors.rs:804-828 | a page's rows become what the rule says, and the ones that differed are counted |
| `PagedRecompute.Table.RecomputeAll` | crates/cm-domain/src/quality.rs:177-228 | for any positive page size every id is visited exactly once, every row ends as the rule says, and the changed count is the number of rows that did not agree |
| `PagedRecompute.RecomputeScores` | crates/cm-domain/src/quality.rs:177-228 | every listing's stored score is its pure score |
| `PagedRecompute.RecomputeBadges` | crates/cm-domain/src/verification.rs:122-154 | every listing's badge is set exactly if it is claimed and has a licence that is active and not expired today |
| `TextCodecs.JsonString` | crates/cm-core/src/error.rs:174-190 | the loop writes a quoted string, character by character |
| `TextCodecs.JsonRoundTrip` | crates/cm-core/src/error.rs:174-190 | for every string the output is well formed under section 7 of RFC 8259 and decodes to the input |
| `TextCodecs.Escape` | crates/cm-auth/src/mail.rs:79-92 | the loop writes the escaped text, character by character |
| `TextCodecs.HtmlRoundTrip` | crates/cm-auth/src/mail.rs:79-92 | for every string the output holds no raw markup character and decodes to the input |
| `TextCodecs.Slugify` | crates/cm-domain/src/lib.rs:27-44 | the loop with its pending separator builds the runs of letters and digits joined by single dashes |
| `TextCodecs.SlugInGrammar` | crates/cm-domain/src/lib.rs:27-44 | a slug is empty, exactly when there is no letter or digit, or in the database's grammar |
| `TextCodecs.SlugIsIdempotent` | crates/cm-domain/src/lib.rs:27-44 | a slug is its own slug |
| `TextCodecs.SlugKeepsLetters` | crates/cm-domain/src/lib.rs:27-44 | a slug has exactly the letters and digits of its name, lowercased, in order |
| `TextCodecs.SlugInParts` | crates/cm-domain/src/lib.rs:27-44 | characters that are no letter or digit, however many, leave a single dash between what stands before and after them, and none at either end |
| `TextCodecs.SlugOfWord` | crates/cm-domain/src/lib.rs:27-44 | letters and digits with nothing between them stay one word |
| `TextCodecs.LettersAndDigits` | crates/cm-domain/src/lib.rs:27-44 | the characters a slug keeps are the letters and digits of ASCII |
| `TextCodecs.SmallLetterOf` | crates/cm-domain/src/lib.rs:27-44 | each capital becomes its small letter, and nothing else changes |
| `TextCodecs.SplitBack` | crates/cm-domain/src/search.rs:229-239 | splitting at the first NUL undoes joining |
| `TextCodecs.UuidBack` | crates/cm-domain/src/search.rs:220-254 | an id is read back from its hyphenated text, which holds no NUL |
| `TextCodecs.CursorRoundTrip` | crates/cm-domain/src/search.rs:220-254 | a search cursor decodes to itself whatever the name contains |

## Left out

- The `locked_by` label, the stored error text and the provider's message ids of the two queues: nothing reads them back.
- The geocode queue's one-open-request-per-listing index: enqueueing only adds rows.
- WorkerPass.Outbox.RunOnce: is one pass that nothing disturbs and in which no database call fails; disturbed, crashed and overlapping passes are the subject of `WorkQueue`.
- That a provider drops a second request with the same idempotency key, and for how long: the model counts the calls and leaves the provider alone.
- WorkQueue.NeverStuck: says a timely continuation exists, not that a fair scheduler takes it.
- Budgets of 2^53 cents and more, which a cursor's float cannot carry exactly.
- JobBoard.TakeNext: is given at most one row more than the page, as the query's LIMIT guarantees.
- Distance, relevance and fit of a job: given per-row keys; PostGIS, full-text search and trigram matching are not modelled.
- The encoding of the board's cursor as text, the map points, and closing and reopening a job apart from its photos.
- The final sort of the facets, and the filter predicate itself: the facet model starts from the jobs that matched.
- `normalise_name`'s Unicode folding, `parse_address` and the category keywords: the similarity takes normalised names and the verdict takes the resulting evidence.
- Splitting the scraped dataset and the counters of `write_batch`: easy bookkeeping.
- Rounding of binary floating point: ratios, match scores and ranking scores are real numbers.
- Argon2, HMAC, SHA-256, RS256, base64 and the random number generator: opaque values, fresh where a result needs it.
- Rate limits, audit rows and emails sent by the sign-in flows.
- The text, expiry and attempts of an emailed login code in `Passwords`, where it is entered correctly or lapses: `AuthTokens` has them.
- The row lock that a login holds while it issues a code, in `AuthTokens`: that it keeps logins from overlapping one another is stated of runs, as `AsLogins`, and not derived.
- Isolation anomalies inside one transaction: each transaction is one step, except in the photo flows, in issuing tokens and in the login pre-check. Row locks only delay a step and are not modelled.
- Deletion of users and listings; runs of the claim workflow start with no listing owned.
- KeyCache.Verifier.KeyForToken: takes calls one at a time; interleaved calls are the subject of `KeyCache.KeysAreYoungIff`.
- ContentHash.NoRowChangeUnseen: leaves out the record's `raw` column, the row verbatim, which is stored but not hashed: a change in a column that no field is mapped from, or in the blanks around a value, does go unseen.
- ContentHash.NoChangeUnseen: stops at the text fed to the hasher; UTF-8, SHA-256, and how dates and money are parsed are not modelled.
- Column detection by header; in `LicenceImport` a row is already built, skipped or rejected.
- TextCodecs.CursorRoundTrip: takes the printing and parsing of finite numbers as exact, and leaves out base64 and the other spellings of an id.
- Surrogate-pair escapes in the JSON reading used by the round trip: the escaper never writes one.
- Rows added or removed while a paged recompute runs.
- The HTTP router and handlers, the command line, telemetry, configuration, image processing and the outside services.
