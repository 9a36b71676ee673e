# Mailyard in Dafny

Models of the parts of Mailyard that carry its promises, with proofs of those promises.

* **The relay node's queue** (`internal/relayagent`). A small MTA with a crash-safe spool. Once it
  answers 250 it owns the message (section 6.1 of RFC 5321), so the claims are about whole runs, a
  crash allowed between any two writes. `Names`, `DurableSteps` and `Backoff` hold the vocabulary; the
  classes in `Spool`, `Delivery`, `Forwarding`, `Agent` and `Sessions` are the node's own objects,
  each method tied to the durable steps it takes, in their order; `Node` is the node as a state
  machine whose loops and sessions take those same steps one at a time, in any interleaving. On it:
  nothing accepted is lost (`Conservation`), and exactly when that needs unambiguous email ids
  (`Collisions`); nothing finished is spooled again (`ClaimOnce`); every entry has its bytes
  (`Files`, `InboundFiles`), exactly when the sweeps are kept apart from what they would disturb
  (`Overlap`); what becomes of one entry is a small machine the node refines (`EntryLife`), so entries
  only shrink and nobody is mailed twice (`Shrink`), and exactly when (`Repeats`); nothing is tried early
  or after its lifetime (`Timing`); received mail stays until the platform is done with it (`Inbound`);
  a node that takes mail by claims has all of it at once (`PullNode`).
* **The webhook dispatcher** (`internal/core/dispatch`): `Dispatch` is the object, `DispatchRuns` every
  interleaving of its goroutines.
* **The attachment cache** (`internal/core/attachcache`): `AttachCache`.
* **The two type walks** (`internal/sdkgen`, `internal/core/apidoc`): `TypeGraph` for the types both
  read, `SdkTypes` and `ApiSchemas` for what each writes, `GoNames` for the names they share, `TagRules`
  for the rules of a struct tag.
* **Rekeying** (`internal/cli/rekey.go`): `Rekey`.
* **Smaller pieces**: `Cron` and `CronRuns`, `AuditTrail`, `LikePattern`, `ClientAddress`.

`dafny verify dfyconfig.toml` checks everything.

## What the proofs found

* Outcome rows are keyed `email|recipient`. Two email ids where one, followed by a bar, begins the
  other share keys; a run without any failure then loses a recipient's outcome. Conservation holds of
  every run exactly when no two ids do that (`Collisions.ConservedExactly`). An id that comes in the
  header of a handed-over message is not checked for a bar.
* An entry that names an address twice can have it taken and deferred in one conversation, and is then
  delivered to it again. One conversation never retries what it delivered exactly when the recipients
  are distinct (`Delivery.RetryAvoidsAcceptedExactly`), and over whole runs nobody is offered again what
  was taken or refused exactly when no run crashes and that holds of every entry, which matters only where
  an entry lives past the first gap (`Repeats.NeverSentAgainExactly`).
* The orphan sweep reads the entries before it lists the directory and takes no lock. A put between the
  two loses its bytes, outbound or received (`Overlap.SweepDuringPutLosesBytes`,
  `InboundFiles.SweepDuringReceiptLosesBytes`).
* The expiry sweep takes no claim. A message whose lifetime runs out during an attempt can be dropped by
  the sweep and stored again by the attempt, without its bytes
  (`Overlap.SweepDuringAttemptLosesBytes`). Every entry of every run has its bytes exactly when both
  overlaps are avoided, the second mattering only where messages expire (`Overlap.BytesKeptExactly`).
* The SDK generator flattens an embedded pointer, and never ends on a struct that embeds itself that
  way. Both walks end exactly when no named struct is embedded in its own flattening
  (`TypeGraph.WalksEndExactly`).
* A struct `Error` of a package `field` is generated as `FieldError`, which the hand-written client
  already declares: the qualified name is not checked again (`SdkTypes.FieldErrorClashes`). The OpenAPI
  document does not check its qualified names either, so a third namesake takes the second's component
  (`ApiSchemas.ThirdNamesakeClashes`).
* A daily job at a negative time of day, which nothing refuses, can fire one occurrence twice: its next
  firing can lie behind already. No other schedule does (`CronRuns.FiresOnceExactly`).
* The comment on the outbound backoff says a minute, five, fifteen, an hour, then four. The code triples:
  1, 3, 9, 27, 81 minutes, then four hours. The model follows the code, and its 64-bit product wraps
  without ever showing (`Backoff.GapIsSchedule`).

## What is assumed

* A bolt transaction and a file call are atomic and durable; bolt reads succeed. A bolt write commits or
  the process crashes: the node only logs a failed outcome write (`internal/relayagent/agent.go:363-365`)
  and would lose that outcome.
* Crashes clear memory only: a crash forgets every thread of `Node` and keeps its disk.
* That every entry and all received mail has its bytes needs the sweeps kept apart from puts and attempts
  on the same message (`Files.Discipline`, `InboundFiles.CalmIn`), which `BytesKeptExactly` and
  `MailHasBytesExactly` show to be just what it needs; `SettledForAReason` rests on the second, and that
  an entry once gone stays gone needs the expiry sweep kept apart (`GoneForGoodExactly`). No other theorem
  restricts the sweeps.
* The platform's claim contract (`ClaimOnce.Offered`): an answer names assigned emails only, none the
  node said it holds, each once, each with its recipients not yet reported. Ids of assigned emails are
  not empty and hold no bar, digests have one length, and different domains of one email have different
  digests (`ClaimOnce.WellFormed`).
* The spool ids of messages and mail handed over are unused; those of claims are shown to be
  (`PullNode.ClaimedIdIsFresh`). Addresses are already bare, so reducing one to its envelope form changes
  nothing. Letters are lower-cased and upper-cased as in ASCII.
* The conversion of a power of three to a 64-bit integer is exact to exponent 33, within 1024 to
  exponent 39, and saturates to one end of the range above.
* Opening a sealed value under the sealing key returns the plaintext; nothing else is assumed of the
  cipher.
* The cache's loader is a function of the key in the agreement theorem. White space in validation tags is
  the space alone.

## Model

| member | source | states |
|---|---|---|
| Names.OutcomeKeyReadsBack | internal/relayagent/spool.go:286-293 | the email id cut out of an outcome key at its first bar is the email exactly when the id holds no bar |
| Names.KeysTellApartExactly | internal/relayagent/spool.go:309-317 | different recipients have different outcome rows exactly when no email id followed by a bar begins another |
| Names.Collision | internal/relayagent/spool.go:309-317 | two recipients that share a row, for any two such ids |
| Names.GroupingPartitions | internal/relayagent/listener.go:188-197 | grouping loses no address and invents none: each goes to the group of its own domain as often as it was named |
| Names.Group | internal/relayagent/pull.go:113-130 | the grouping loop computes one group per domain, in the order the addresses came |
| Names.OfInOrder | internal/relayagent/pull.go:113-130 | the addresses of a domain keep the order they were named in |
| Names.DomainReads | internal/relayagent/listener.go:188-197 | the domain of an address is what follows its last @, lower-cased letter by letter |
| Names.ClaimedIdTellsApart | internal/relayagent/pull.go:161-169 | claimed ids agree exactly when email and digest agree, dashes in email ids notwithstanding |
| Backoff.GapIsSchedule | internal/relayagent/delivery.go:366-379 | the computed gap is the smaller of 3^(n-1) minutes and four hours for every attempt, wrapping and saturation included |
| Backoff.WaitedExactly | internal/relayagent/delivery.go:366-379 | the first n gaps sum to 121 minutes and four hours for each attempt past the fifth |
| Backoff.ForwardGap | internal/relayagent/receive.go:583-593 | the doubling loop gives the smaller of 30*2^(n-1) seconds and ten minutes |
| Backoff.ForwardGapsAre | internal/relayagent/receive.go:583-593 | those gaps: half a minute, one, two, four, eight, then ten |
| SpoolFiles.Spool.Put | internal/relayagent/spool.go:152-180 | bytes first, entry second; a failed entry takes the bytes back and leaves the bucket as it was |
| SpoolFiles.Spool.Remove | internal/relayagent/spool.go:192-205 | entry first, bytes second, nothing else touched |
| SpoolFiles.Spool.PutReceived | internal/relayagent/spool.go:355-380 | the same order for received mail |
| SpoolFiles.Spool.RemoveInbound | internal/relayagent/spool.go:391-404 | the same order for dropping it |
| SpoolFiles.Spool.Due | internal/relayagent/spool.go:208-241 | due entries only, oldest first, none twice, and what the limit leaves out is no older than what it keeps |
| SpoolFiles.Spool.All | internal/relayagent/spool.go:320-340 | exactly the entries, oldest first |
| SpoolFiles.Spool.EmailIDs | internal/relayagent/spool.go:262-297 | exactly the email ids queued or awaiting a report, none twice |
| SpoolFiles.HeldIsQueuedOrPending | internal/relayagent/spool.go:262-297 | the ids the machine names as held are those of a queued entry or at the head of a pending row |
| SpoolFiles.Spool.Outcomes | internal/relayagent/spool.go:463-478 | pending rows with their keys, all of them when they fit the limit |
| SpoolFiles.Spool.SweepBodies | internal/relayagent/spool.go:552-587 | removes exactly the files without an entry, but for those that cannot be removed |
| SpoolFiles.Spool.SweepOrphans | internal/relayagent/spool.go:533-550 | leaves each directory equal to its own bucket when every entry has its bytes, and no live body is removed |
| SpoolFiles.InsertKeepsOrder | internal/relayagent/spool.go:589-591 | the sort by acceptance keeps the order and every element |
| SpoolFiles.InsertIsStable | internal/relayagent/spool.go:589-591 | and is stable: what was accepted at one moment keeps the order it came in |
| Delivery.EveryAddressAnswered | internal/core/smtpclient/direct.go:217-227 | every address handed to a conversation comes back accepted or rejected, and no other |
| Delivery.AnswerOfPosition | internal/core/smtpclient/direct.go:217-227 | each address is where the peer's verdict on it puts it |
| Delivery.RetryAvoidsAcceptedExactly | internal/relayagent/delivery.go:252-294 | what is retried is never what was delivered, exactly when the entry names nobody twice |
| Delivery.PickMember | internal/relayagent/delivery.go:261-271 | an address is retried exactly when it was rejected and not for good |
| Delivery.LastRefusalDecides | internal/core/smtpclient/direct.go:217-227 | a refusal is for good exactly when the last word on the address, takings aside, was |
| DurableSteps.GivenUpOnDisk | internal/relayagent/delivery.go:332-347 | a given-up message leaves a failure row for each recipient, permanent or not as said, and nothing else of itself |
| Delivery.AnswerOnDisk | internal/relayagent/delivery.go:195-295 | what each of the five answers leaves on disk: entry, bytes and rows |
| Delivery.Deliverer.Claim | internal/relayagent/delivery.go:151-161 | a second claim of a message in flight is refused |
| Delivery.Deliverer.ReportAll | internal/relayagent/delivery.go:252-259 | one outcome row per recipient, none for a message that names no email |
| Delivery.Deliverer.GiveUp | internal/relayagent/delivery.go:332-347 | a row per recipient, not delivered, permanent exactly when its time had not run out, before the message is dropped; nothing else changes |
| Delivery.Deliverer.Defer | internal/relayagent/delivery.go:316-326 | the entry stored again, due after the gap of its attempts |
| Delivery.Deliverer.Sort | internal/relayagent/delivery.go:261-271 | permanent refusals reported in the order walked, the rest kept for a retry |
| Delivery.Deliverer.Attempt | internal/relayagent/delivery.go:171-295 | one whole attempt: its durable steps in order, and by case what is left - dropped past its lifetime or without bytes, kept whole at a passing failure, or shrunk to those to be retried |
| Delivery.Deliverer.SweepExpired | internal/relayagent/delivery.go:384-397 | every message past its lifetime as it is come to is given up, and no other is touched |
| Delivery.Deliverer.Conclude | internal/relayagent/delivery.go:252-295 | accepted and refused recipients written down first, then the entry removed or shrunk |
| MxForwarding.ForwardLoop.ForwardOne | internal/relayagent/receive.go:489-541 | gone from bucket and directory once decided, refused for good or without bytes; at a failure kept within its lifetime, due after the gap, and dropped past it |
| MxForwarding.ForwardLoop.RetryForward | internal/relayagent/receive.go:552-574 | dropped past its lifetime, otherwise due again after the forwarding gap |
| Agents.Agent.FlushOutcomes | internal/relayagent/agent.go:381-430 | exactly the rows sent leave the spool when the platform took them or refused them for good; nothing changes when it was not reached or not heard |
| Agents.ReportIsTheLoops | internal/relayagent/agent.go:381-430 | the machine's report takes the loop's steps: delete the rows sent or nothing, the platform told of exactly those rows |
| Agents.Agent.Sift | internal/relayagent/pull.go:113-130 | the recipients kept are those with a domain and no outcome waiting |
| Agents.KeptMember | internal/relayagent/pull.go:114-126 | a recipient is kept exactly when it was named, has a domain and has no outcome row, as often as it was named |
| Agents.ClaimIsItsSteps | internal/relayagent/pull.go:107-130 | the machine's reading of recipients one by one keeps what the loop keeps |
| Agents.GroupsAre | internal/relayagent/pull.go:132-158 | each entry of a claim: its claimed id, sender, domain, recipients, untried and due at once |
| Agents.Agent.SpoolClaimed | internal/relayagent/pull.go:107-159 | one entry per domain with its recipients and bytes, an entry already there untouched, and the count of new ones |
| Agents.Agent.PlaceAll | internal/relayagent/pull.go:132-158 | the put loop: every group placed when it finishes, some put failed when it does not |
| Sessions.Session.Rcpt | internal/relayagent/listener.go:142-154 | a recipient that parses is added, another refused |
| Sessions.Session.Data | internal/relayagent/listener.go:159-237 | which reply when, by size and addresses; a 250 only with, for each address with a domain, the entry of that domain and its bytes in the spool, sender, recipients and times as handed over |
| Sessions.Session.Store | internal/relayagent/listener.go:188-227 | the entries made of the groups, none overwriting another |
| Sessions.AcceptedCoversEveryRecipient | internal/relayagent/listener.go:188-197 | what a 250 covers: every address with a domain, in the entry of its domain and no other |
| Sessions.ReceiveSession.Data | internal/relayagent/receive.go:358-415 | the MX: a 250 only once the message is in the bucket with its bytes |
| Node.AttemptIsItsSteps | internal/relayagent/delivery.go:171-295 | the machine's opening and conclusion of an attempt take together exactly the durable steps of the deliverer's whole attempt |
| Node.EndedAre | internal/relayagent/delivery.go:252-294 | whose delivery an answer ends: who was taken or refused for good, or everybody at a refusal of the message |
| Conservation.InvKept | internal/relayagent/delivery.go:252-295 | every act of the node keeps the ledger: what a plan will remove has been told first |
| Conservation.NothingAcceptedIsLost | internal/relayagent/agent.go:381-430 | in every state of every run, crashes included, each accepted recipient is in a live entry, in a pending outcome, reported, or went with a batch refused for good |
| Collisions.SharedKeyLoses | internal/relayagent/spool.go:315-317 | a run without failures that loses a recipient, for any two ids that share keys, any messages carrying them and any address, the entries grouped under its domain |
| Collisions.ConservedExactly | internal/relayagent/spool.go:315-317 | all runs conserve exactly when no two email ids share keys |
| ClaimOnce.UnheldIsQuiet | internal/relayagent/spool.go:262-297 | an email the node does not name as held has nothing left to report |
| ClaimOnce.CommitIsNew | internal/relayagent/pull.go:132-158 | an entry about to be put for a claim is new, with all its recipients |
| ClaimOnce.PullKept | internal/relayagent/pull.go:35-159 | every act of a pull node under the platform's contract keeps what that rests on |
| ClaimOnce.NothingSpooledTwice | internal/relayagent/pull.go:35-159 | over every such run, crashes included, no recipient is spooled again once it was, and conservation holds too |
| Files.FilesKept | internal/relayagent/spool.go:152-205 | every act keeps files and entries in step, put plans and drop plans of every thread included, sweeps kept off the messages others are at work on |
| Files.EveryEntryHasItsBytes | internal/relayagent/spool.go:152-205 | every queued message has exactly its accepted bytes in every state, and a conversation carries exactly those |
| Overlap.SweepDuringPutLosesBytes | internal/relayagent/spool.go:552-587 | from any idle node and for any new message, a sweep that overlaps its put ends with the entry queued and its bytes gone |
| Overlap.SweepDuringAttemptLosesBytes | internal/relayagent/delivery.go:384-397 | for any message due and in time, an expiry sweep that overlaps its attempt ends with the entry dropped, then back without bytes |
| Overlap.BytesKeptExactly | internal/relayagent/spool.go:533-587 | every entry of every run has its bytes exactly when puts are kept apart from the orphan sweep, and attempts from the expiry sweep or nothing expires |
| Overlap.GoneForGoodExactly | internal/relayagent/delivery.go:384-397 | no entry ever comes back exactly when attempts are kept apart from the expiry sweep, or nothing expires |
| Timing.TimingKept | internal/relayagent/delivery.go:316-326 | every act keeps every entry, plan and attempt on schedule |
| Timing.DeferredLongEnough | internal/relayagent/delivery.go:316-379 | in every run an entry deferred n times waits at least its first n gaps, and a conversation under way had time left |
| EntryLife.OwnKept | internal/relayagent/delivery.go:171-295 | every act keeps whose plan changes which entry: an attempt its own, once, the expiry sweep by dropping, nobody else |
| EntryLife.ActMovesLife | internal/relayagent/delivery.go:171-347 | the node refines the machine of one entry: each act makes one of its moves, for every id |
| Shrink.RetryIsClean | internal/relayagent/delivery.go:261-294 | what stays in an entry was neither taken nor refused, and is named once |
| Shrink.NeverSentAgain | internal/relayagent/delivery.go:171-295 | without a crash, no recipient is offered to a destination again after one took or refused it, whatever the sweeps do meanwhile |
| Repeats.CrashRepeats | internal/relayagent/delivery.go:252-259 | any due message: taken, a crash before that is written down, and offered again |
| Repeats.TwiceNamedRepeats | internal/relayagent/delivery.go:252-294 | any message that names somebody twice: taken once, deferred once, and offered again |
| Repeats.NeverSentAgainExactly | internal/relayagent/delivery.go:171-295 | nobody is offered again what was taken or refused exactly when no run crashes, and no entry names a recipient twice or none lives past the first gap |
| Shrink.EntriesOnlyShrink | internal/relayagent/delivery.go:292-294 | between any two moments of any run, crashes and overlapping sweeps included, an entry only loses recipients |
| Shrink.GoneStaysGone | internal/relayagent/delivery.go:384-397 | an entry once gone never comes back, when the expiry sweep is kept off the messages being attempted |
| Shrink.ConnectionsOfARun | internal/relayagent/delivery.go:174-181 | without a crash, a lifetime bounds the connections one entry makes over a whole run, whatever the sweeps do and whoever it names twice |
| Inbound.MailStaysUntilSettled | internal/relayagent/receive.go:489-574 | in every run, crashes included, mail answered 250 is queued until it was settled |
| Inbound.DecidedIsForgotten | internal/relayagent/receive.go:489-541 | mail the platform decided on or refused for good, or without bytes, is settled and out of bucket and directory two steps on |
| Inbound.FailedIsKeptInTime | internal/relayagent/receive.go:552-574 | a failed forward neither settles nor drops mail within its lifetime, and does both past it |
| InboundFiles.InboundKept | internal/relayagent/spool.go:355-404 | every act keeps received mail and its files in step |
| InboundFiles.ReceivedMailHasItsBytes | internal/relayagent/spool.go:355-404 | mail queued for the platform has exactly the bytes it was received with |
| InboundFiles.SweepDuringReceiptLosesBytes | internal/relayagent/spool.go:552-587 | from any idle node and for any new mail, a sweep that overlaps its put ends with it queued and its bytes gone |
| InboundFiles.MailHasBytesExactly | internal/relayagent/spool.go:533-587 | queued mail has its bytes in every run exactly when its puts are kept apart from the orphan sweep |
| InboundFiles.SettledForAReason | internal/relayagent/receive.go:489-574 | only a forward settles mail: decided, refused for good, or failed past its lifetime |
| PullNode.ClaimedIdIsFresh | internal/relayagent/pull.go:132-169 | the id computed for a claimed group has no entry and no put under way |
| PullNode.PullNodeKeepsItsPromises | internal/relayagent/pull.go:35-159 | over every run of a pull node: nothing lost, nothing spooled twice, every put under a new id; bytes kept with the sweeps apart; nobody mailed twice without a crash |
| DispatchBooks.Dispatcher.Emit | internal/core/dispatch/dispatch.go:156-178 | one delivery per matched hook while fewer than 256 wait, none once closed |
| DispatchBooks.Dispatcher.Finished | internal/core/dispatch/dispatch.go:230-238 | one pending delivery fewer, a count of zero forgotten |
| DispatchBooks.Dispatcher.Acquire | internal/core/dispatch/dispatch.go:242-276 | both slots or neither, whichever select the quit interrupts |
| DispatchBooks.Dispatcher.Release | internal/core/dispatch/dispatch.go:272-275 | both slots given back |
| DispatchBooks.Dispatcher.Deliver | internal/core/dispatch/dispatch.go:310-391 | which attempts are recorded, with which copy of the hook, why the loop stopped, and when it takes the hook out |
| DispatchBooks.UsesNewestCopy | internal/core/dispatch/dispatch.go:318-341 | an attempt uses the copy of the last live re-read up to it, the first one when there was none |
| DispatchRuns.InvKept | internal/core/dispatch/dispatch.go:242-276 | every step keeps the books exact, bounded and the attempts numbered |
| DispatchRuns.SlotsAndPendingAreExact | internal/core/dispatch/dispatch.go:242-276 | tokens equal the deliveries holding them, at most 8 in all and 2 a project; pending equals the unfinished, at most 256 a project |
| DispatchRuns.DisablesOnlyAfterEveryAttemptFailed | internal/core/dispatch/dispatch.go:310-391 | a hook is taken out at most once a delivery, only after all attempts, numbered from one, failed |
| DispatchRuns.QuitIsClosedOnce | internal/core/dispatch/dispatch.go:283-303 | however often Close is called, quit is closed at most once |
| DispatchRuns.NothingSpawnsOnceClosed | internal/core/dispatch/dispatch.go:159-163 | once closed, nothing is spawned and what ended stays ended |
| DispatchRuns.NothingRunsAfterClose | internal/core/dispatch/dispatch.go:283-303 | after a Close that waited everything out, no delivery runs or is pending, ever |
| DispatchRuns.StalledProjectsLeaveASlot | internal/core/dispatch/dispatch.go:41-43 | k stalled projects hold at most 2k slots, so fewer than four leave one free of them |
| DispatchRuns.WaitersCanAlwaysEnter | internal/core/dispatch/dispatch.go:254-276 | no deadlock: from every reachable state a waiting delivery can still get into its attempt |
| AttachCache.FitIsLongestPrefix | internal/core/attachcache/attachcache.go:149-151 | eviction keeps the longest beginning of the recency order that fits |
| AttachCache.Cache.Lookup | internal/core/attachcache/attachcache.go:115-133 | a live entry is answered and moved to the front, an expired one dropped |
| AttachCache.LookupAt | internal/core/attachcache/attachcache.go:115-133 | by place: a live entry goes to the front and the others keep their order, an expired one goes, a missing key changes nothing |
| AttachCache.HitExactly | internal/core/attachcache/attachcache.go:115-133 | a value is found exactly while an entry of its key has not expired |
| AttachCache.Cache.Store | internal/core/attachcache/attachcache.go:137-155 | the new entry in front of what still fits of the old order without its key; a value over the budget is not kept |
| AttachCache.Cache.Evict | internal/core/attachcache/attachcache.go:149-151 | the loop ends and never takes from an empty list |
| AttachCache.Cache.Remove | internal/core/attachcache/attachcache.go:158-163 | list, map and counter lose the same one element |
| AttachCache.Cache.Get | internal/core/attachcache/attachcache.go:67-97 | the cached value, or the loader's, kept when it succeeds and aged from when it was stored |
| AttachCache.CallKeeps | internal/core/attachcache/attachcache.go:67-155 | every call keeps keys apart and the total within the budget |
| AttachCache.CacheAgreesWithLoader | internal/core/attachcache/attachcache.go:67-155 | over every run of calls a hit is what the loader would return, stored less than one TTL ago |
| AttachCache.ListedByLastUse | internal/core/attachcache/attachcache.go:113-163 | over every run the keys stand in the order of their last hit or kept store, the latest first, so the back is what was used longest ago |
| TypeGraph.WalksEndExactly | internal/sdkgen/sdkgen.go:197-229 | the walk of every declaration ends exactly when no named struct is embedded in its own flattening |
| TypeGraph.SelfEmbeddingNeverEnds | internal/sdkgen/sdkgen.go:209-221 | the SDK walk never ends on a struct embedding a pointer to itself, the document walk does |
| SdkTypes.Choose | internal/sdkgen/sdkgen.go:125-143 | the name picked is free, is numbered only when the candidate is taken, and is a hand-written one exactly when the candidate is one and free |
| GoNames.PrefixesAre | internal/core/apidoc/schema.go:176-188 | a prefix is the last element of the package path with its first letter raised |
| SdkTypes.FieldErrorClashes | internal/sdkgen/sdkgen.go:126-129 | a struct Error of a package field is such a struct |
| SdkTypes.Generator.TypeName | internal/sdkgen/sdkgen.go:103-117 | the name of a struct, everything it mentions emitted with it, names given out kept |
| SdkTypes.Generator.Fields | internal/sdkgen/sdkgen.go:197-229 | the lines are what the fields say under the names given out |
| SdkTypes.Generator.GoType | internal/sdkgen/sdkgen.go:232-278 | the source of a type under the names given out |
| SdkTypes.TypeIsWritten | internal/sdkgen/sdkgen.go:234-278 | the source each kind of type is written as |
| SdkTypes.FieldIsWritten | internal/sdkgen/sdkgen.go:197-231 | which fields have a line, under which tag, and which lend their struct's lines |
| SdkTypes.Render | internal/sdkgen/sdkgen.go:36-75 | every root is emitted and nothing is left half-walked |
| SdkTypes.OutputIsComplete | internal/sdkgen/sdkgen.go:103-117 | names and types are one to one, no placeholder is left, every reference names a declaration |
| SdkTypes.ReachableIsDefined | internal/sdkgen/sdkgen.go:197-278 | every struct reachable from an emitted one is emitted |
| SdkTypes.UniquifyMethodNames | internal/sdkgen/sdkgen.go:525-551 | the array ends up holding names given out in order: a method's own, or the one built from its route if that is taken, or that one numbered if both are |
| SdkTypes.MethodsDiffer | internal/sdkgen/sdkgen.go:520-551 | names given out in order all differ, and a method keeps its own exactly when no earlier method was given it |
| ApiSchemas.TakesOver | internal/core/apidoc/schema.go:147-161 | a struct whose plain name is taken and whose qualified name is another's takes that one's component |
| ApiSchemas.ThirdNamesakeClashes | internal/core/apidoc/schema.go:147-161 | three namesakes, the last two from packages that end alike, leave the second's references at the third's object |
| ApiSchemas.Registry.Reserve | internal/core/apidoc/schema.go:145-161 | the name chosen, another struct's exactly when the plain and the qualified one are both taken, and an empty place for its component |
| ApiSchemas.Registry.StructSchema | internal/core/apidoc/schema.go:127-143 | a reference to the struct's component, everything it mentions met |
| ApiSchemas.Registry.Walk | internal/core/apidoc/schema.go:55-122 | the schema of a type under the names given out, with the bounds, values and formats its rules and its elements' rules ask for |
| ApiSchemas.Registry.WalkFields | internal/core/apidoc/schema.go:197-242 | the properties are what the fields say, required and described ones marked, embedded structs flattened |
| ApiSchemas.TypeHasSchema | internal/core/apidoc/schema.go:55-122 | the schema each kind of type has, bounded by the rules before the first dive, its elements by those after it |
| ApiSchemas.FieldHasProperty | internal/core/apidoc/schema.go:197-242 | which fields have a property, its name and description, and when it is required |
| ApiSchemas.StringLimitsAre | internal/core/apidoc/schema.go:300-330 | a string's bounds, values and format, a length given outright counting over both bounds |
| TagRules.RuleValueIs | internal/core/apidoc/schema.go:289-298 | a rule is set to what follows its name and the equals sign, where it first stands |
| TagRules.CutsAtTheFirst | internal/core/apidoc/schema.go:270-277 | the rules of the elements begin at the first dive |
| TagRules.NumberReads | internal/core/apidoc/schema.go:300-330 | a number reads back as itself, signed or not, as long as it fits 64 bits |
| TagRules.WordsOfJoin | internal/core/apidoc/schema.go:300-330 | listed values are what stands between spaces, none empty |
| ApiSchemas.DocumentIsComplete | internal/core/apidoc/schema.go:127-143 | no placeholder is left, references resolve, and every struct has its own component exactly when namesakes share an object |
| ApiSchemas.ReachableHasComponent | internal/core/apidoc/schema.go:197-242 | every struct reachable from one that was met has a component |
| Rekeying.Tx.RekeyColumn | internal/cli/rekey.go:216-272 | exactly the selected cells resealed to the same plaintext, and the reasons it can fail |
| Rekeying.Tx.RekeyEach | internal/cli/rekey.go:179-187 | all listed columns resealed, each once |
| Rekeying.Tx.Retire | internal/cli/rekey.go:189-211 | the retiring tracking key kept, sealed once, or all of them forgotten |
| Rekeying.Database.RekeyAll | internal/cli/rekey.go:171-214 | on commit every listed value reads the same under the new key and nothing else changed; on any failure the database is as it was |
| Rekeying.CellByCell | internal/cli/rekey.go:171-214 | the same cell by cell: each value of a listed column, each other value, each tracking key |
| Rekeying.RetiredMore | internal/cli/rekey.go:199-211 | the readable retired keys become the old ones and the retiring one |
| Rekeying.RotationsKeepEverything | internal/cli/rekey.go:171-272 | however often the key is rotated, every sealed value reads as at first, and the retired keys are all those since they were last forgotten |
| LikePattern.ThreePassesAreOne | internal/database/utils.go:107-112 | three successive replacements are one character-wise escape |
| LikePattern.Wildcards | internal/database/utils.go:107-112 | what percent, underscore and backslash match on their own |
| LikePattern.BackslashLastExactly | internal/database/utils.go:104-105 | with the backslash last they are, exactly for values without a wildcard |
| LikePattern.EscapedMatchesExactly | internal/database/utils.go:107-112 | under LIKE the escaped value matches exactly itself |
| LikePattern.EscapedPrefixExactly | internal/database/utils.go:107-112 | followed by a percent, exactly what begins with it |
| LikePattern.EscapedAnywhereExactly | internal/database/utils.go:107-112 | between two percents, exactly what contains it |
| ClientAddress.Scan | internal/core/clientip/clientip.go:100-127 | the backward index scan answers the entry that reads as an untrusted address with only empty and trusted ones to its right, and none when there is no such entry |
| ClientAddress.WalkFindsTheCaller | internal/core/clientip/clientip.go:100-127 | the walk from the right finds exactly that entry |
| ClientAddress.EntriesOfJoin | internal/core/clientip/clientip.go:100-104 | the entries of two texts joined by a comma are those of each |
| ClientAddress.TrimIs | internal/core/clientip/clientip.go:103 | an entry is read without the white space around it |
| ClientAddress.Resolve | internal/core/clientip/clientip.go:88-128 | only a trusted peer's header is read at all |
| ClientAddress.IsTrusted | internal/core/clientip/clientip.go:159-167 | some listed range contains the address |
| ClientAddress.LeftPartCountsOnlyPastTheStop | internal/core/clientip/clientip.go:100-127 | what stands to the left counts exactly when the scan does not stop before it |
| ClientAddress.LastLineDecides | internal/core/clientip/clientip.go:97-100 | a proxy's own header line decides over every line before it |
| CronJobs.DailyIsLeastExactly | internal/core/cron/cron.go:61-80 | the daily firing is the least later instant at its time of day, exactly for 00:00 to 24:00 |
| CronJobs.NextIsLaterExactly | internal/core/cron/cron.go:61-80 | the next firing is always later, exactly unless the time of day is negative |
| CronJobs.FiresEvery | internal/core/cron/cron.go:61-69 | the nth firing at an interval is n intervals on, and a job with no schedule is parked a day ahead |
| CronJobs.AtTimeReads | internal/core/cron/cron.go:71-80 | an instant is at a time of day exactly when the UTC clock shows that hour and minute and no second more |
| CronJobs.PassStartsTheDue | internal/core/cron/cron.go:196-221 | a pass starts exactly the due jobs, each once, and advances only those |
| CronJobs.Manager.RunDue | internal/core/cron/cron.go:196-221 | the loop over the jobs computes that pass |
| CronJobs.Manager.Register | internal/core/cron/cron.go:149-158 | a known name is left alone, a new one appended |
| CronJobs.Manager.RunNow | internal/core/cron/cron.go:233-256 | refused for an unknown or running job, otherwise marked running |
| CronRuns.OneRunAtATime | internal/core/cron/cron.go:171-291 | no two runs of a job at once, manual ones included, whatever the schedules |
| CronRuns.NegativeTimeFiresTwice | internal/core/cron/cron.go:61-80 | any schedule daily at a negative time has a run in which one occurrence fires twice |
| CronRuns.FiresOnceExactly | internal/core/cron/cron.go:171-221 | no occurrence fires twice over any run that registers these schedules, exactly when none is daily at a negative time |
| CronRuns.NothingScheduledAfterWait | internal/core/cron/cron.go:318-343 | after a Wait that did not time out no scheduled job runs or will start |
| AuditTrail.Recorder.Record | internal/core/audit/audit.go:167-195 | queued in order, or dropped, and counted only when the queue was full |
| AuditTrail.Recorder.Drain | internal/core/audit/audit.go:103-116 | everything buffered is written, in order |
| AuditTrail.FirstInFirstOut | internal/core/audit/audit.go:97-118 | accepted events are the written then the queued ones, none twice, and every one let in is accounted for |
| AuditTrail.RecordIsItsSteps | internal/core/audit/audit.go:167-195 | the machine's two steps of a record are the recorder's one: queued behind the others, or counted when 512 wait |
| AuditTrail.DrainedBeforeDone | internal/core/audit/audit.go:242-254 | what was accepted before the quit is written before the writer is done |
| AuditTrail.WrittenExactlyBeforeEnd | internal/core/audit/audit.go:97-118 | once the writer is done, an accepted event was written exactly when it was accepted before that, and the rest are still queued |
| AuditTrail.LateEventIsLost | internal/core/audit/audit.go:103-116 | any event past the check while the writer still runs can be accepted and never written |

## Left out

- Delivery.Deliverer.Attempt: does not model the goroutines of a pass inside the class; concurrent attempts and the wait at the end of a pass are in the `Node` machine, where a new pass starts only when no attempt is left.
- Node.Do: lets the expiry sweep give up any entries where messages expire at all, not only expired ones, a report carry any pending rows and a claim loop stop anywhere; the theorems hold for these too.
- SpoolFiles.Spool.SweepOrphans: does not count the removed files, a number that is only logged; files are keyed by id, so the file suffix and foreign files are not there.
- ClaimOnce.NothingSpooledTwice: is stated for a node that takes mail by claims only, with the held ids read in full and no report refused for good; without these the source promises nothing. A read error of one recipient's outcome, which skips that message, is not there.
- Shrink.NeverSentAgain: asks for no crash and that no entry names a recipient twice, which `NeverSentAgainExactly` shows to be exactly what it needs; the listener checks neither.
- SdkTypes.Generator.Fields: writes lines as terms rather than text; printing, sorting and imports are left out.
- AttachCache.Cache.Get: is one caller at a time; sharing a load between callers is the singleflight library's promise. Sizes are unbounded integers.
- CronRuns.NothingScheduledAfterWait: says nothing of manual runs, which Wait does not count.
- DispatchRuns.WaitersCanAlwaysEnter: says a waiter can get in, not that the runtime's scheduler will let it.
- The number of connections after a crash: a crash during an attempt forgets that it was counted, so the bound of `ConnectionsOfARun` is for runs without one.
- Corrupt rows, JSON encoding, log lines, message wording, panics and their recovery.
- SMTP, HTTP, TLS, MX resolution and the sessions beyond what is listed: their answers are parameters.
- Enrolment, certificates, heartbeats, the accept list and the mode switch of a node.
- The platform's side of claims, reports and forwarding, beyond the contract stated.
- Webhook filters and signatures, `Deliver` for the test route, metrics.
- Method naming rules of the SDK generator beyond making the names unique.
