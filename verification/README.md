# Keyward's approval protocol and wire formats, verified

Keyward is an ssh-agent for macOS. It merges the keys of several upstream agents and signs with
one key of its own that lives in the Secure Enclave. A Touch ID given for that key is remembered
for a while: for one place when no sign-in is configured, for everything when one is. What is
remembered is split in two. The daemon (Rust) has the table of approvals, the count of sign-outs
and the only clock; the enclave half (Swift) has the authenticated contexts of a plain key and
the released secrets of a sign-in key, under a lock of its own. Request threads, the thread that
watches the screen, the clock, the screen and the person at the sensor all interleave.

`dafny verify dfyconfig.toml` checks the whole project.

## How it is laid out

**The protocol.** `Protocol` is the own-key path as a step system: any number of requests, the
screen watch, and a world that answers as it pleases. A step is one critical section or one call
into the enclave half; `looked` and `sign_gate` are held across steps, so a look is three steps
(record, end the approvals, wipe the cache) and a sign-out is two. Everything that happens is put
on record, and most properties are properties of the record. `Approval` and `ContextCaches` are
the same operations as executable classes, `Refinement` shows that each method is a step and each
enclave call a run of steps. `Daemons` puts them together: a whole request and a whole turn of the
watch as the code runs them, each proved to lead the step system on from where it was called, and
to come out as `Uninterrupted` says for what the clock, the screen, the Touch ID and the enclave
answer.

The proof is an inductive invariant in two tiers:

- `Locks`: who is past the gate and who holds `looked`; no deadlock; every request is finite.
- `Records` and `Jobs`: what each request carries is on record.
- `Timeline`: the pruned table of approvals against the whole history.
- `Cache`: whatever the enclave half holds is accounted for.
- `Riders`: whose Touch ID a signature rests on.
- `Invariant`: the first tier, along every run.
- `Turns`: from its decision to its check nobody else decides, and what a rider rides is the last
  opening of its reach.
- `Contexts` and `Secrets`: for a plain key and for a sign-in key, the exact contents of the cache
  by the history, whatever the clock does.
- `Ledger`: the second tier, along every run, and the exact conditions that follow from it.
- `Places`: what a request is covered by, and the place it was made from.
- `Safety`: the other promises. `Limits`: runs that show where they stop, built with `Runs`.

A clock reading is an exact real or `NaN`, with which every comparison is false (`Seconds`).
Configuration and the kind of key are fixed for a run. The watch takes steps only for a sign-in
key, because only then is it started (`daemon/src/main.rs:385-387`), so a plain key is never
looked at and never signed out. The step system knows an approval's cache entry by its reach, the
code by a string; `ReachKey` proves that the string determines the reach.

**Where a promise has a condition.** Held implies approved, always. The other way round has
exceptions, and they are what a request logged as riding runs into.

*A plain key.* `daemon/kwse.swift:47-50` wants no request to be logged as reused and yet prompt. A
request that cannot read the clock drops its scope's context but leaves the approval in the table:
every comparison with `NaN` is false, so the approval does not cover the request and has not run
out either. If that request is declined, the next one rides the approval, finds no context and
asks. `Limits.AnUnreadableClockCanMakeARiderAsk` is such a run and `Ledger.RiderAsksExactlyWhen`
the exact condition.

*A sign-in key.* A request that rides a sign-in and finds no secret is turned away with -4 and asks
nobody. The comments say the sign-in ended under it (`daemon/kwse.swift:433-435`), and the
program's README that a sign-out landed under the sheet (`README.md:342-345`). Neither need be so:
the sign-in can stand in the table without its secret, and riders are turned away until its window
ends. There are two causes, and `Ledger.RiderTurnedAwayExactlyWhen` proves there are no others: the
wipe of an earlier sign-out came after this sign-in's secret was kept
(`Limits.ASignInCanBeLeftWithoutItsSecret`), or a request that could not read the clock dropped the
secret and failed, with no sign-out in the whole run (`Limits.AnUnreadableClockCanTurnARiderAway`).

*Redaction.* `daemon/src/attrib.rs:273-279` promises that nothing leaks that was never kept. A token
that identifies itself is always taken out. The value after a scheme or a key is, unless an earlier
credential's value ran into the scheme word, or took the `=` and ends before this value does: the
scanner goes on behind that value and no longer sees what introduced the next one.
`_authToken=Bearer 12345` keeps `12345` (`Credentials.SchemeInAKeysValue`) and
`Bearer password="12345"` keeps `"12345"` (`Credentials.QuoteInASchemesValue`).

*The prompt rate.* Two openings of one reach are a window apart unless a request or an opening of
that reach between them could not read the clock (`Safety.CloserThanAWindow`); then they can be
stamped alike (`Limits.AnUnreadableClockCanOpenTwice`).

**The formats and the scanners.** `Wire`, `Identities`, `Ecdsa` and `SignInKeys` are readers and
writers with round trips; `Utf8` and `Redaction` the scanner that takes credentials out of command
lines, and `Credentials` what a credential is, said without the scanner; `Merging` the first-wins
merge of identity lists; `Sheet` the text on the Touch ID sheet; `Serving` the connection loop;
`SshArgs` the two scanners of an ssh command line.

## Model

| member | source | states |
|---|---|---|
| Approval.PruningIsInvisible | daemon/src/agent.rs:176-195 | letting run-out approvals go at any earlier moment changes no later answer of the cover test, nor which others have run out by then |
| Approval.Approvals.constructor | daemon/src/agent.rs:56-64 | nobody is signed in at the start |
| Approval.Approvals.Expire | daemon/src/agent.rs:183-195 | exactly the entries whose age, by readable stamps, is a window or more leave the table, and the list names each of them once |
| Approval.Approvals.Decide | daemon/src/agent.rs:264-286 | with a sign-in in force the reach is everywhere and the window the sign-in's, otherwise the very place asked from and the reuse window; live exactly when the stamp of that reach, as it was, is less than a window old by readable clocks; a sign-in is announced exactly when one is opened, and never answered by a Mac unlock |
| Approval.Approvals.Open | daemon/src/agent.rs:288-295 | an opening stamps its own reach; riding and a zero window change nothing |
| Approval.Approvals.EndApprovals | daemon/src/agent.rs:297-303 | every approval goes and the count moves by one, together; says whether anybody was signed in |
| Approval.Approvals.Admit | daemon/src/agent.rs:312-322 | admitted exactly when the count has not moved since the request read it; otherwise the table is untouched |
| ContextCaches.ContextCache.constructor | daemon/kwse.swift:51-58 | nothing held at the start |
| ContextCaches.ContextCache.Secret | daemon/kwse.swift:60-64 | the secret kept for the scope, if any |
| ContextCaches.ContextCache.Keep | daemon/kwse.swift:66-70 | this scope's secret and no other changes; it gets a buffer of its own |
| ContextCaches.ContextCache.Wipe | daemon/kwse.swift:72-79 | the buffer is all zero before it is let go, and no other secret is touched |
| ContextCaches.ContextCache.Forget | daemon/kwse.swift:116-122 | context and secret of one scope go, the secret overwritten; every other scope keeps both |
| ContextCaches.ContextCache.ForgetAll | daemon/kwse.swift:81-87 | nothing is held, and every buffer that held a secret is zero |
| ContextCaches.AllowedReuse | daemon/kwse.swift:99-111 | macOS's own reuse is what is granted and at most 300 s, and none when none is granted |
| ContextCaches.ContextCache.Take | daemon/kwse.swift:101-114 | the held context, or a new unauthenticated one that is held exactly when asked and reuses an unlock for as long as allowed |
| ContextCaches.Authenticate | daemon/kwse.swift:125-142 | a context is authenticated exactly by a Touch ID given on it |
| ContextCaches.SignIn | daemon/kwse.swift:429-466 | result code, whether the daemon's check was raised and with what reuse, and what is kept; a riding request with nothing held gives -4 and asks nobody |
| ContextCaches.SignPlain | daemon/kwse.swift:491-518 | a held context is never asked about; a new one signs only after its Touch ID, and is forgotten if that is declined |
| ReachKey.ReadValueBack | daemon/src/agent.rs:130-138 | a scope's fields, escaped as serde writes them (section 7 of RFC 8259), read back whatever follows |
| ReachKey.KeyInjective | daemon/src/agent.rs:130-138 | two approvals share a key only if they are the same approval; no place has the sign-in's key |
| ReachKey.KeySurvivesC | daemon/src/enclave.rs:232-235 | no key holds a NUL or any control character, so none is emptied or cut by the C string it travels in |
| Locks.LocksKept | daemon/src/agent.rs:65-72 | every step keeps the lock discipline: one thread past the gate, `looked` held only within a look |
| Locks.GateBeforeLooked | daemon/src/agent.rs:641-646 | nobody takes `sign_gate` while holding `looked` |
| Locks.NoDeadlock | daemon/src/agent.rs:411-432 | while a request is unfinished, some thread that waits for no lock can move |
| Locks.EveryRequestIsFinite | daemon/src/agent.rs:613-730 | each step of its own brings a request strictly closer to its reply |
| Locks.OthersDoNotDelay | daemon/src/agent.rs:613-730 | no step of another thread moves a request or lengthens what it has left |
| Safety.OneInTheEnclave | daemon/src/agent.rs:68-72 | at most one request is inside the enclave in any reachable state |
| Safety.NeverStuck | daemon/src/agent.rs:154-161 | no reachable state is stuck; the watch only tries the gate |
| Jobs.BooksKept | daemon/src/agent.rs:613-713 | every step of every thread keeps each request's bookkeeping true: the count it read still stands exactly while no sign-out has come |
| Timeline.TableAgrees | daemon/src/agent.rs:176-181 | what the pruned table covers is what the whole history approves |
| Cache.CoveredKept | daemon/src/agent.rs:657-713 | every step keeps: what is held is approved, or the request past the gate answers for it, or it is about to be wiped |
| Invariant.InvKept | daemon/src/agent.rs:297-432 | the whole invariant is kept by every step of every thread |
| Invariant.ReachableInv | daemon/src/agent.rs:297-432 | it holds in every reachable state |
| Safety.OnlyTheAdmittedAreAnswered | daemon/src/agent.rs:692-713 | a signature goes back only after an admission of that request, a failure only if there never was one |
| Safety.HistoryInOrder | daemon/src/agent.rs:163-174 | stamps never go backwards, each look measures its gap from the look before it, and every decision is right for the history before it |
| Safety.RidersRideAnOpening | daemon/src/agent.rs:264-295 | a silent signature follows an admitted opening of the same reach, less than one window old when it was decided, with no sign-out between |
| Safety.SilentSignaturesWereWatched | daemon/src/agent.rs:344-391 | sign-in key: every look after the opening up to the rider's own second look, taken after its signature was made, saw an unlocked screen, and its readable stamp is less than 3.0 s after the readable stamp of the look before it |
| Places.PlacedKept | daemon/src/agent.rs:264-286 | every step keeps: what a request on record was decided and admitted under is the sign-in, with one in force, and otherwise the place it was made from |
| Places.NoApprovalLeavesItsPlace | daemon/src/agent.rs:75-84 | without a sign-in, in every reachable state: a silent signature and the opening it rode belong to requests from the same directory, host and repository |
| Places.CoveredFromItsOwnPlace | daemon/src/agent.rs:141-147 | the same of every request found covered, whatever becomes of it |
| Places.OneSignInForEverything | daemon/src/agent.rs:141-147 | with a sign-in in force every admission is under it |
| Safety.SignInsWereWatched | daemon/src/agent.rs:641-691 | the same for the request that signs in, from reading the count to its second look |
| Safety.OneTouchPerOpening | daemon/kwse.swift:89-98 | a silent signature is made with what the opening's own request put in the cache, after that request's Touch ID: always for a sign-in key, and for a plain one if the requests of that reach between opening and rider could read the clock |
| Safety.NothingWithoutATouch | daemon/src/agent.rs:613-730 | with approval on, every returned signature rests on a Touch ID answered before it, whatever the clock did |
| Safety.RidersAreSilent | daemon/kwse.swift:433-435 | no request counted as covered raises the daemon's sheet: never with a sign-in key, and with a plain one not before some request of its reach has misread the clock |
| Safety.RidingExtendsNothing | daemon/src/agent.rs:288-295 | in every reachable state an approval bears the stamp of its own opening, the last of its reach, whatever has ridden it since |
| Safety.AdmittedUncut | daemon/src/agent.rs:312-322 | no sign-out falls between reading the count and being admitted |
| Safety.SignOutLeavesNothingBehind | daemon/src/agent.rs:692-713 | a sign-out between reading the count and the check against it: the request fails, opens nothing, and the enclave half holds nothing of its scope when the gate is let go, even if its secret was kept after the wipe |
| Safety.FailureLeavesNothingBehind | daemon/src/agent.rs:704-712 | a request that fails without riding leaves nothing held and nothing approved |
| Safety.HeldIsAccountedFor | daemon/src/agent.rs:305-310 | in every state what is held is approved, the request past the gate's own, or about to be wiped |
| Safety.HeldIsApproved | daemon/src/agent.rs:305-310 | with `sign_gate` and `looked` free, held implies approved |
| Safety.PlainHeldIsApproved | daemon/kwse.swift:89-98 | plain key, gate free: held implies approved, and an approval is held if its own stamp and every later decision of its reach could read the clock |
| Safety.DecidedByTheWholeHistory | daemon/src/agent.rs:176-195 | a request is live exactly when there is an opening of its reach, the last since the last sign-out, whose readable stamp is less than one window before its own, by the history that was never pruned |
| Safety.UnreadableCoversNobody | daemon/src/agent.rs:163-174 | an unreadable clock at either end never yields a live request |
| Safety.OpeningsAreAWindowApart | daemon/src/agent.rs:641-661 | two openings of one reach with no sign-out between are at least one window apart, however many requests run, if the readings of that reach from one to the other succeeded |
| Safety.CloserThanAWindow | daemon/src/agent.rs:641-661 | two openings closer than a window, with no sign-out between, have a failed reading of that reach between them |
| Safety.PromptRate | daemon/src/agent.rs:641-661 | a sign-out-free stretch of T seconds in which the readings of a reach succeeded holds at most floor(T/W) + 1 openings of it, whatever went on outside it or for other reaches |
| Turns.RequestTurns | daemon/src/agent.rs:641-713 | from a request's decision to its check nobody else decides, fails or is admitted, and an approval in the table stays the last opening of its reach |
| Turns.OnlyTheClock | daemon/src/agent.rs:176-195 | between the opening a rider rides and the rider, a request of that reach that was not covered failed to read the clock |
| Contexts.RequestSettles | daemon/src/agent.rs:641-713 | every step of a plain key's request keeps the cache equal to what the history says it holds |
| Contexts.NoHolderMeansLost | daemon/src/agent.rs:657-661 | the history leaves an opened approval no context exactly when a request nothing covered dropped it and no rider regained it since |
| Secrets.RequestKeepsSecrets | daemon/src/agent.rs:641-713 | every step of a sign-in key's request keeps the secrets equal to what the history says is kept, but for what it is itself about to forget |
| Secrets.WatchKeepsSecrets | daemon/src/agent.rs:411-432 | so does every step of the watch, the two halves of its sign-out included |
| Ledger.LedgerKept | daemon/src/agent.rs:297-432 | turns, contexts and secrets are kept by every step of every thread |
| Ledger.ReachableLedger | daemon/src/agent.rs:297-432 | they hold in every reachable state |
| Ledger.HeldByTheHistory | daemon/kwse.swift:89-114 | plain key, gate free, any clock: a context is held exactly for the approvals the history leaves one, and carries the Touch ID the history names |
| Ledger.SecretsByTheHistory | daemon/kwse.swift:55-87 | sign-in key, both locks free, any clock: a secret is held exactly for the sign-ins the history leaves one, and is the one the history names |
| Ledger.RiderAsksExactlyWhen | daemon/kwse.swift:47-50 | plain key: a covered request raises a sheet if and only if, since its approval was opened, a request of the same reach found the clock unreadable and no rider has been let through by Touch ID since |
| Ledger.RiderTurnedAwayExactlyWhen | daemon/kwse.swift:433-441 | sign-in key, no sign-out since the count was read: a covered request is turned away with nothing held if and only if, since the opener kept its secret, a wipe came or a request of the same reach could not read the clock, and nothing was kept since |
| Ledger.PlainRiderRestsOn | daemon/kwse.swift:493-500 | plain key, any clock: a silent signature rests on the Touch ID of the request that opened the approval, or of the last rider that was asked |
| Limits.AnUnreadableClockCanMakeARiderAsk | daemon/src/agent.rs:163-195 | plain key: a reachable state with an approval and no context, and a run in which a request logged as riding raises a sheet |
| Limits.AnUnreadableClockCanOpenTwice | daemon/src/agent.rs:163-195 | plain key: a run with two openings of one reach stamped alike and no sign-out between |
| Limits.ASignInCanBeLeftWithoutItsSecret | daemon/src/agent.rs:297-310 | sign-in key: a reachable state, both locks free, with somebody signed in and nothing held, after a late wipe |
| Limits.AnUnreadableClockCanCostTheSecret | daemon/src/agent.rs:163-195 | sign-in key: the same state with no sign-out in the whole run, after a request that could not read the clock |
| Limits.AnUnreadableClockCanTurnARiderAway | daemon/kwse.swift:433-441 | sign-in key: a later request rides that sign-in and fails with its count unmoved, the approval still in the table |
| Refinement.DecideRefines | daemon/src/agent.rs:648-656 | the method is the step: same table, same reach, same verdict, same list to release |
| Refinement.ExpireRefines | daemon/src/agent.rs:426-429 | the watch's expiry is the step |
| Refinement.EndApprovalsRefines | daemon/src/agent.rs:297-303 | ending the approvals is the first half of the sign-out step |
| Refinement.AdmitRefines | daemon/src/agent.rs:312-322 | admission is the step, and goes the same way |
| Refinement.ForgetRefines | daemon/kwse.swift:350-354 | forgetting a key is forgetting its reach and no other |
| Refinement.ForgetAllRefines | daemon/kwse.swift:356-360 | the wipe is the second half of the sign-out step |
| Refinement.SignInCall | daemon/kwse.swift:436-466 | the run of one call on a sign-in key: what it leaves kept, and what it puts on record in which order |
| Refinement.PlainCall | daemon/kwse.swift:491-518 | the run of one call on a plain key: what it leaves held, and what it puts on record in which order |
| Refinement.SignInRefines | daemon/kwse.swift:436-466 | one uninterrupted call on a sign-in key is that run: same cache, same prompt, a signature exactly when 64 bytes come back |
| Refinement.SignPlainRefines | daemon/kwse.swift:491-518 | the same for a plain key |
| Uninterrupted.SignInComesOut | daemon/src/agent.rs:641-713 | decision, letting go, call, second look and check of a sign-in key's request come to the closed form of its outcome |
| Uninterrupted.PlainComesOut | daemon/src/agent.rs:641-713 | the same for a plain key |
| Daemons.Daemon.constructor | daemon/src/agent.rs:330-335 | the daemon starts in the step system's initial state |
| Daemons.Daemon.TakeLook | daemon/src/agent.rs:348-371 | a look leads the step system on; under a screen that is not unlocked, with either stamp unreadable, or 3.0 s or more after the look before, it ends every approval, moves the count and empties the cache; otherwise it ends nothing and leaves both as they were |
| Daemons.Daemon.SignOut | daemon/src/agent.rs:305-310 | both halves: no approval, one more on the count, nothing held |
| Daemons.Daemon.Release | daemon/src/agent.rs:382-391 | the enclave half loses exactly the scopes listed |
| Daemons.Daemon.Settle | daemon/src/agent.rs:647-657 | the state after it is the step system's decision, from the count and the table as they were |
| Daemons.Daemon.LetGo | daemon/src/agent.rs:658-661 | exactly what ran out goes from the cache, and the request's own scope if nothing covers it |
| Daemons.Daemon.Sign | daemon/src/agent.rs:672-691 | the result is the enclave call's, unless the second look finds anything but an unlocked screen |
| Daemons.Daemon.Finish | daemon/src/agent.rs:692-713 | a signature goes back exactly if one was made and the count stands; the approval is opened only then, and otherwise the scope is forgotten unless a standing approval was ridden |
| Daemons.Daemon.HandleSign | daemon/src/agent.rs:635-714 | a whole request leads the step system on; it succeeds exactly if both looks are good, it finds or is given what it signs with, and the enclave signs; approvals and cache afterwards are stated in full, nothing is held that is not approved, and no approval is opened or restamped but that of the place asked from (of everything, with a sign-in in force) |
| Daemons.Daemon.WatchTurn | daemon/src/agent.rs:420-431 | a whole turn of the watch leads the step system on; a screen not unlocked, an unreadable stamp or a gap of 3.0 s or more leaves nothing approved and nothing held; any other look takes exactly what has run out, and that only with the gate idle |
| Wire.BigEndian | daemon/src/wire.rs:50-52 | the four bytes of a word, most significant first |
| Wire.StrRoundTrip | daemon/src/wire.rs:26-57 | a written string reads back, with exactly what follows it |
| Wire.ReadStrIsStr | daemon/src/wire.rs:26-34 | a string that reads was written so, in the one way there is |
| Wire.Reader.U8 | daemon/src/wire.rs:13-17 | the next byte, or nothing and no movement |
| Wire.Reader.U32 | daemon/src/wire.rs:19-24 | the next big-endian word, or nothing and no movement |
| Wire.Reader.String | daemon/src/wire.rs:26-33 | the next string; when its body is short the position stays past the length |
| Wire.Writer.U32 | daemon/src/wire.rs:50-52 | four bytes appended, most significant first |
| Wire.Writer.String | daemon/src/wire.rs:54-57 | a length cut to 32 bits, then the bytes |
| Wire.Frame | daemon/src/wire.rs:61-66 | a length and the payload |
| Identities.Answer | daemon/src/agent.rs:584-590 | the listing of exactly the identities given, in order |
| Identities.ReadReply | daemon/src/upstream.rs:49-67 | the loop reads what the listing grammar gives on any bytes, and never out of range |
| Identities.ListingRoundTrip | daemon/src/upstream.rs:46-68 | what one agent lists, under message 12, the other reads back |
| Identities.CutInAComment | daemon/src/upstream.rs:60-66 | an answer cut short within a comment: the identities before, and the key with an empty comment |
| Identities.CutInAKey | daemon/src/upstream.rs:54-60 | cut short within a key: the identities before it, whatever count was declared |
| Identities.ReplyBoundsItsIdentities | daemon/src/upstream.rs:54-66 | whatever count is declared, four bytes each plus every key and comment fit in the reply after its first five bytes |
| Ecdsa.Mpint | daemon/src/enclave.rs:308-322 | the buffer loop computes the trimmed and re-signed form |
| Ecdsa.MpintMeaning | daemon/src/enclave.rs:308-322 | same value, sign bit never set, and no shorter form (section 5 of RFC 4251) |
| Ecdsa.MpintIsCanonical | daemon/src/enclave.rs:308-322 | two inputs are encoded alike exactly when they have the same value |
| Ecdsa.SshSignature | daemon/src/enclave.rs:296-306 | the two writers together give the signature blob |
| Ecdsa.KeyTypeFirst | daemon/src/enclave.rs:296-306 | every signature names its kind, "ecdsa-sha2-nistp256", first |
| Ecdsa.SignatureRoundTrip | daemon/src/enclave.rs:296-306 | parsing it and padding both integers to 32 bytes gives back r and s (section 3.1.2 of RFC 5656) |
| SignInKeys.Data | daemon/kwse.swift:204-211 | the printer appends exactly the container |
| SignInKeys.Parse | daemon/kwse.swift:188-202 | the loop accepts exactly the containers of four fields that end where the bytes do |
| SignInKeys.PrintThenParse | daemon/kwse.swift:188-211 | a key with fields under 2^32 bytes survives printing and parsing |
| SignInKeys.ParseThenPrint | daemon/kwse.swift:188-211 | an accepted container is the print of the key it gives: one container to a key |
| SignInKeys.NoContainerIsAPrefix | daemon/kwse.swift:188-202 | no accepted container is a proper beginning of another |
| Utf8.ValidIsCuttable | daemon/src/attrib.rs:280-283 | in well-formed UTF-8 (section 4 of RFC 3629) a string may be cut after any ASCII byte |
| Utf8.ValidExactlyWhen | daemon/src/attrib.rs:280-283 | well-formed UTF-8 is exactly the encoding of some Unicode scalar values (section 3 of RFC 3629) |
| Redaction.MoveBoundaries | daemon/src/attrib.rs:284-328 | every place the scanner slices at is a character boundary, so it never panics |
| Redaction.IsSecretKey | daemon/src/attrib.rs:359-372 | the look-behind finds the whole key and tests it against every suffix |
| Redaction.FindToken | daemon/src/attrib.rs:391-415 | the first vendor prefix with eight token bytes after it, else an AKIA id |
| Redaction.Redact | daemon/src/attrib.rs:280-330 | the scanning loop ends on every string and writes what the rules give |
| Redaction.RedactedIsValid | daemon/src/attrib.rs:280-330 | UTF-8 in, UTF-8 out |
| Redaction.RedactedIsCut | daemon/src/attrib.rs:280-330 | the output is the input with in-order, disjoint, non-empty spans replaced by the marker and everything else verbatim |
| Redaction.OrdinaryTextIsUntouched | daemon/src/attrib.rs:322-328 | from any place on, text where no rule matches comes back unchanged |
| Redaction.NoMatchSurvives | daemon/src/attrib.rs:273-330 | for any tables: wherever a rule matches in the input, scanned or skipped over, the place or the value it points at is taken out |
| Credentials.RulesFindCredentials | daemon/src/attrib.rs:284-415 | the scanner at a place takes out exactly the credential that begins there, where a credential is spelled out byte by byte: "bearer " or "basic " in any case, spaces and the bytes to white space, a quote or a brace; one of five key words in any case, `=`, a quote or none and the bytes to white space, a quote or `&`; a vendor prefix at a word start and eight token bytes or more; AKIA and sixteen capitals or digits or more |
| Credentials.OnlyCredentialsGo | daemon/src/attrib.rs:280-330 | every span taken out of an argument is the value of such a credential, or the token itself |
| Credentials.EveryCredentialGoes | daemon/src/attrib.rs:280-330 | a credential is taken out if and only if no credential that begins elsewhere was taken out and the beginning of this one with it |
| Credentials.NoCredentialSurvives | daemon/src/attrib.rs:273-330 | wherever a credential begins, its whole value is taken out or the place itself is |
| Credentials.TokensAlwaysGo | daemon/src/attrib.rs:314-320 | a vendor's token and an access key id at a word start are taken out whole, whatever is around them |
| Credentials.SchemeValueGoesExactlyWhen | daemon/src/attrib.rs:286-299 | the value after a scheme goes whole if no earlier span holds the beginning of the scheme word; if one does, every byte of a value with no credential of its own is kept |
| Credentials.KeyValueGoesExactlyWhen | daemon/src/attrib.rs:300-313 | the value after a key's `=` goes whole if every span that holds the `=` reaches to its end; from where a shorter one ends, a value with no credential of its own is kept |
| Credentials.PlainKeyValuesAlwaysGo | daemon/src/attrib.rs:300-313 | a key's value that is not quoted and holds no closing brace always goes whole |
| Credentials.UncoveredCredentialGoes | daemon/src/attrib.rs:280-330 | a credential no other credential's value reaches over is always taken out |
| Credentials.SchemeInAKeysValue | daemon/src/attrib.rs:300-313 | `_authToken=Bearer 12345` comes back as `_authToken=[redacted] 12345`: the scheme word is the key's value, and the token after it is kept |
| Credentials.QuoteInASchemesValue | daemon/src/attrib.rs:286-299 | `Bearer password="12345"` comes back as `Bearer [redacted]"12345"`: the key is the scheme's value, and what is quoted after it is kept |
| Credentials.NothingElseGoes | daemon/src/attrib.rs:322-328 | an argument with no credential in it comes back as it was |
| Credentials.MarkerSays | daemon/src/attrib.rs:271 | what is put in its place reads "[redacted]" |
| Merging.Registry.Refresh | daemon/src/agent.rs:542-572 | by the answers alone: exactly the keys some upstream answered with are routed, each to the first upstream that lists it and with the comment of its first listing there; the merged list has each of them once, in the order of those first listings |
| Merging.FirstWins | daemon/src/agent.rs:549-557 | merged keys are distinct, in order of first appearance, and none is left out |
| Merging.RoutesAreLeast | daemon/src/agent.rs:733-745 | the upstream a key is routed to exists, answered, and lists the key with its comment; no earlier upstream that answered lists it, nor is it listed before there |
| Merging.EveryOfferIsRouted | daemon/src/agent.rs:565-571 | a key is routed if and only if some answer lists it; routes and comments have the same keys, as many as were merged |
| Sheet.BreakingCharacters | daemon/src/agent.rs:529-540 | the characters a line is broken at, one by one |
| Sheet.SanitisedIsOneLine | daemon/src/agent.rs:529-540 | no quote, backtick, newline or tab, and white space only as single spaces inside |
| Sheet.SanitiseTwice | daemon/src/agent.rs:529-540 | sanitising is idempotent |
| Sheet.SanitisedWord | daemon/src/agent.rs:529-540 | text with nothing in it that breaks a line is left as it is |
| Sheet.SanitisedGap | daemon/src/agent.rs:529-540 | text broken in two anywhere comes out as its two halves, one space apart if neither is empty |
| Sheet.SpanIsExact | daemon/src/agent.rs:197-208 | the text is a decimal number without leading zeros and a unit, which come to within half a second of the given length (one second below that, the u64 maximum above), in the largest unit that divides them; days begin at two, and one is singular |
| Sheet.SignInLeadsTheSheet | daemon/src/agent.rs:489-507 | a sheet that opens a sign-in begins with the whole of "Sign in for ..." or "Sign in until screen lock", for every caller, configured text and length |
| Sheet.SheetSays | daemon/src/agent.rs:489-518 | sign-in, then the configured text or the action, cut at 56 characters; without a sign-in the configured text cut there, or the action, with the app after it exactly when all of it fits in 56 |
| Sheet.SheetIsShortAndQuiet | daemon/src/agent.rs:446-518 | at most 57 characters, the ellipsis included, and never a quote, backtick or newline |
| Serving.Serve | daemon/src/agent.rs:840-863 | the loop writes exactly the framed replies the stream calls for |
| Serving.ServesEachOnce | daemon/src/agent.rs:840-863 | framed payloads of 1 to 2^20 bytes get one framed reply each, in order |
| Serving.EveryStreamIsFrames | daemon/src/agent.rs:840-852 | any stream is some accepted frames and then a place where the loop stops |
| Serving.BadLengthEndsIt | daemon/src/agent.rs:847-850 | a zero or oversize length gets no reply, nor does anything after it |
| SshArgs.DestinationFrom | daemon/src/attrib.rs:546-566 | the first operand that is neither a flag nor a flag's argument |
| SshArgs.SplitSsh | daemon/src/purpose.rs:49-77 | the same operand by the other scanner, and the words after it joined by spaces |
| SshArgs.TheDestination | daemon/src/attrib.rs:546-566 | the destination stands at a place if and only if reading flag by flag, two words for one that takes an argument and one for any other, comes to an operand there; there is none if and only if it comes to the end |
| SshArgs.FlagsThatTake | daemon/src/attrib.rs:550-553 | both lists of flags that take an argument have the same twenty |
| SshArgs.WordsJoined | daemon/src/purpose.rs:49-77 | words are joined by one space each |
| SshArgs.BeforeTheDestination | daemon/src/attrib.rs:546-566 | every word before the destination, or every word if there is none, is a flag or the argument of one |
| SshArgs.BothReadings | daemon/src/purpose.rs:49-77 | the two scanners agree on every command line; the remote command is the words after that destination, and is there exactly if any are |

## Left out

- Safety.RidersAreSilent: for a plain key it asks that no earlier request of the same reach misread the clock; the exact condition is `Ledger.RiderAsksExactlyWhen`.
- Safety.PlainHeldIsApproved: asks for readable stamps of that reach since its opening; without them the exact contents are `Ledger.HeldByTheHistory`.
- Safety.OneTouchPerOpening: for a plain key it asks for readable decisions of that reach since its opening; without them see `Ledger.PlainRiderRestsOn`.
- Safety.PromptRate: asks for readable stamps of that reach within the stretch, where it is false without (`Limits.AnUnreadableClockCanOpenTwice`).
- Daemons.Daemon.HandleSign: runs one request with no other thread in between; interleavings are the step system's, over which every property in `Safety` is proved.
- ContextCaches.SignIn: does not model the prompt text set on its short-lived context, nor the -1 of a secret that is neither held nor released, which no call reaches.
- ContextCaches.SignPlain: a key handle that cannot be loaded (-1) and a signature that fails (-3) are one failure here; the daemon only words them differently.
- Redaction.Redact: needs only that no character continues past an ASCII byte, which `Utf8.ValidIsCuttable` gives for every Rust string. That redacting twice changes nothing is not claimed: a lower-case token directly after an AKIA id is copied the first time and matched the second.
- Credentials.NoCredentialSurvives: allows the beginning of a credential to be inside an earlier span, where its value can be kept; the exact conditions are `Credentials.SchemeValueGoesExactlyWhen` and `Credentials.KeyValueGoesExactlyWhen`.
- Identities.ReadReply: keeps a comment as its bytes, where the code replaces what is not UTF-8.
- Sheet.SpanIsExact: takes the length for an exact real and rounds it exactly, a half up, saturating at the u64 range; the rounding of floating point itself is not modelled.
- Floating-point rounding of the clock and of the configured lengths; wrap-around of the u64 sign-out count and of usize positions.
- A clock that runs backwards: CLOCK_MONOTONIC promises it does not.
- Poisoned locks, panics, and the exit of the daemon when its watch stops.
- Touch ID, CryptoKit, the keychain, IOKit and the enclave itself: they answer success or failure as they please. The re-prompt a presence key raises by itself after about ten minutes is the enclave's own.
- Attribution of a request to a process, a repository and an action: an arbitrary scope and text here. Wording of the action on the sheet, and the approval card.
- Sockets, timeouts, the request to an upstream, the event log, session-bind, key fingerprints, key generation and storage, the configuration file.
- The macOS app, installation and build scripts.
