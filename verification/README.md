# CarWatch in Dafny

CarWatch watches car listings for its users. A scheduler and an ingest endpoint match listings against saved
searches, score them, claim each (token, chat, search) triple once in a dedup table and publish alerts to a stream;
notifier processes read the stream through a consumer group and deliver, retry, drop or dead-letter each alert. This
project models that logic and proves what it keeps.

## Modules

- `AlertProtocol`: the delivery protocol as a state machine over any number of pushers and consumers, with every
  failure the code handles as an outcome of an event. Its theorems are about all runs.
- `AlertDelivery`, `IngestDelivery`, `ListingOrder`: the consumer, the dead-letter hook, the ingest push and the
  publishing delivery in their own imperative form. Every pass states the commands it sends, in order, and the
  legal run of `AlertProtocol` it performs by them, so the theorems about runs apply to it.
- `SchedulerDelivery`: how the scheduler ends the claims of one search in a cycle, in the same form.
- `Matching`, `Text`: the percolator, its rejection classifier and the pipeline filter.
- `MatchCycle`, `CycleOutcome`: one scheduler cycle: the feed, the decisions per user, persisting, the price flush
  and the statistics.
- `Fitness`, `FitnessWorth`, `Market`: the fitness score over the reals, what each part of it is worth in points, and
  the market medians.
- `TokenBuckets`, `CircuitBreaker`, `AdaptiveLimiter`: timed state machines with bounds over any run.
- `QueryKey`, `FetchCache`: the printed cache key and the cache around a source.
- `EnrichPurge`: the cursor loop that purges the enrichment stream.
- `Wizard`, `WizardAnswers`: the search wizard of one chat, and where its answers end up.
- `Basics`, `Wrappers`: a few shared lemmas and the option type.

## How the surroundings appear

Redis, the database, the notifier, the clock and the source of listings appear only through the commands used. Each
command is atomic and may fail; its answer is an unconstrained value inside a method, a parameter, or a function
from arguments to answers where the code asks at most once per argument. `pow`, `exp`, the case and white-space tables of
characters and the message renderer are parameters; `Fitness` asks of `pow` and `exp` only monotonicity and values
at end points (`Fitness.Sound`), of `exp` strict monotonicity for the exact condition on mileages
(`Fitness.ExpStrict`), and for two counterexamples four numeric bounds (`Fitness.Numeric`); `FitnessWorth` takes the
square root and the power 0.7 as exact (`FitnessWorth.Exact`).

Consumers act on listings that may be out of date: in `AlertProtocol` any entry ever handed out can be drained and
any entry that ever reached the retry limit can be dead-lettered, settled since or not. A take-over is refused by the
server for an entry that is gone. The dedup table deletes any claim and the stream takes any alert, whoever asks, so
second releases, the pruning of old claims and lost answers are runs of `AlertProtocol` as well: a publish that took
effect although it timed out is a publish followed by releases of claims no longer owned, and one that is sent again
is an unbacked publish.

## Where the code does not keep what one might expect

Each of these is stated as an equivalence or with a concrete input that fails:

- Claims, alerts and pushers come apart through four kinds of event and no other (`AlertsProtected`): a cleanup that
  stops between its first release and its ack (`InterruptionReached`); a stale cleanup, for an entry settled since it
  was taken or listed, and a stray release, of a claim its sender does not own, each when it frees a claim that an
  alert or a pusher relies on (`MisplacedExactly`); and an unbacked publish that clashes (`PublishExactly`). Consumers
  that overlap are harmless without these (`ClaimAlertAgreement`). `OverlapBreaksAgreement`,
  `TwoListingsBreakAgreement` and `StrayBreaksAgreement` show how they arise. The scheduler sends stray releases
  exactly when it gives a claim back by the mileage filter and again after a failed save (`DeliverSearch`,
  `GivenBackTwiceExactly`).
- The scheduler keeps claims of listings it never hands on (`KeptExactly`). For one put off by the grace period,
  `docs/audit/06-roadmap.md` speaks of holding the notification; the code keeps the claim, so the next cycle does not
  find the listing new (`MatchCycle.FeedKeeps`).
- More previous owners can raise the score of an old commercial car (`HandExactly`), and more kilometres can raise
  it across the expected mileage, exactly where the two branches of the mileage score are in the wrong order
  (`KmExactly`).
- The guest limiter lies outside the condition under which eviction keeps the window bound (`ConfiguredLimiters`).
- Half-open means one call at a time only for calls shorter than the cooldown (`OneProbeExactly`).
- A success recorded during a cooldown leaves a count of zero, after which further challenges shift by a negative
  amount (`CrashExactly`); this happens in some run of every limiter with a cooldown (`CrashReachedExactly`). The jitter of a wait can be negative, because the random bits are read as a signed
  number (`WaitWithinQuarter`).
- The purge keeps the earlier of two enriched entries with one token in a batch (`PurgeCompleteExactly`, `TwoRequests`).
- A failed read of wizard data yields an empty record that later steps build on (`FailedReadExactly`), and the watch,
  cancel and edit commands take no lock (`OvertakenExactly`). Each can end in a saved search without years and prices
  (`FailedReadSaved`, `OvertakenSaved`), and nothing else can (`RunsExactly`).
- The comment in `internal/scoring/scoring.go` calls the precomputed lookup a hit on the exact year; the code
  averages a band of three years, and so does `Market`.

## Model

| member | source | states |
|---|---|---|
| AlertProtocol.AlertsProtected | internal/broker/consumer.go:165-423 | over every run of any number of pushers and consumers with any retry limit, however these overlap, whatever fails and whoever deletes claims or publishes: in every state each token of an unsettled alert is claimed, no two unsettled alerts name one triple and each pusher holds its own claims, if and only if no cleanup is interrupted, no stale cleanup and no stray release frees a claim relied on, and no unbacked publish clashes |
| AlertProtocol.ProtectedExactly | internal/broker/consumer.go:165-423 | the same for each single event |
| AlertProtocol.MisplacedExactly | internal/scheduler/processing.go:112-127 | what a cleanup for an entry settled since it was taken or listed, or a release of a claim its sender does not own, breaks: agreement exactly when a released claim is named by an unsettled alert, the pushers exactly when one of them holds it |
| AlertProtocol.PublishExactly | internal/scheduler/delivery.go:112-134 | publishing keeps protection exactly when the alert repeats no token and names only claimed triples that no unsettled alert names and no other pusher holds, as one whose sender owns its claims does |
| AlertProtocol.ClaimAlertAgreement | internal/broker/consumer.go:211-300 | over every run without a stale cleanup, a stray release or an unbacked publish, with any number of holders of one entry: claims and alerts agree in every state if and only if no cleanup stopped between its first release and its ack; then no two unsettled alerts share a claim |
| AlertProtocol.AgreementExactly | internal/broker/consumer.go:211-300 | the same from any protected state |
| AlertProtocol.ExclusiveAgreement | internal/broker/consumer.go:211-300 | the same where no consumer takes or buries what another holds or has settled and no pusher releases or publishes what it does not own |
| AlertProtocol.ExclusiveNeverMisplaced | internal/broker/consumer.go:165-207 | such runs have no stale cleanup, stray release or unbacked publish |
| AlertProtocol.PublishStep | internal/scheduler/delivery.go:112-134 | publishing an alert that clashes with nothing keeps protection, and takes the claims it names from the pusher |
| AlertProtocol.ClaimStep | internal/api/ingest_delivery.go:51-62 | a claim attempt takes a triple nobody holds, or changes nothing |
| AlertProtocol.ReleaseStep | internal/api/ingest_delivery.go:77-82 | releasing a claim still owned by the pusher harms no alert |
| AlertProtocol.SettleStep | internal/broker/consumer.go:248-300 | settling a pending entry takes only its own claims away |
| AlertProtocol.CleanupReleases | cmd/notifier/main.go:197-216 | a cleanup releases claims of its own alert only, and none exactly when it got nowhere |
| AlertProtocol.InterruptionBreaks | internal/broker/consumer.go:224-229 | a cleanup that released a claim and then left the entry unacked breaks agreement at once |
| AlertProtocol.InterruptionReached | internal/broker/consumer.go:263-269 | such an interruption happens in a run from the start: claim, publish, read, and a cleanup that stops |
| AlertProtocol.StrayBreaksAgreement | internal/scheduler/match.go:354-366 | without any cleanup: a pusher claims a listing, gives the claim back, another claims and publishes it, and the first releases it again |
| AlertProtocol.OverlapBreaksAgreement | internal/broker/consumer.go:350-395 | two consumers holding one entry can drop it twice and release the claim of a newer alert |
| AlertProtocol.TwoListingsBreakAgreement | internal/broker/consumer.go:365-373 | so can two listings of one entry at the retry limit, though no entry is ever in two hands |
| AlertProtocol.NoSilentLoss | internal/broker/consumer.go:136-160 | every published entry is always exactly one of unread, pending or settled, and is settled exactly when one of the listed acks happened to it |
| AlertProtocol.SettledExactly | internal/broker/consumer.go:211-300 | an entry is settled after a run exactly when it was before or some event of the run is one of the listed acks |
| AlertProtocol.AckStep | internal/broker/consumer.go:314-318 | which single events settle an entry, in both directions |
| AlertProtocol.DeadLetterKeepsCopy | internal/broker/consumer.go:232-241 | a dead-lettered message is in the dead-letter stream from then on |
| AlertProtocol.BoundedAttempts | internal/broker/consumer.go:178-207 | for any retry limit, attempts on an entry never exceed it plus the drain passes that took it, and while pending its delivery count plus those passes |
| AlertProtocol.DeliveriesBounded | internal/broker/consumer.go:181-186 | an entry is handed out at most as often as its remaining allowance, and its delivery count records exactly how often |
| AlertProtocol.AttemptsNeedTaking | internal/broker/consumer.go:155-159 | each attempt uses up one time the entry was taken |
| AlertProtocol.BoundedWork | internal/broker/consumer.go:165-208 | hand-outs and final dead-letterings together are at most (retry limit + 1) per appended entry, over every run |
| AlertProtocol.EnrichRequestsBounded | internal/broker/enrich_consumer.go:120-166 | so for enrichment requests, with their limit of five: at most five attempts and six steps forward per request |
| AlertProtocol.WorkConserved | internal/broker/consumer.go:165-208 | work left plus work done never exceeds what was there plus what was appended |
| AlertProtocol.WorkStep | internal/broker/consumer.go:165-246 | each event that moves an entry forward lowers the work left by one |
| AlertProtocol.BookkeepingAlways | internal/broker/consumer.go:136-160 | in every run pending counts are between 1 and the limit and pending ids have been read |
| AlertDelivery.Backend.XReadGroup | internal/broker/consumer.go:136-142 | a group read hands out the next unread entries, in order and without a gap, each by one read event |
| AlertDelivery.Backend.XPending | internal/broker/consumer.go:167-175 | the pending list names entries with their owner and count, without repeats |
| AlertDelivery.Backend.XClaim | internal/broker/consumer.go:193-199 | a take-over gives some of the entries asked for, each once, counting one more delivery of each by one reclaim event |
| AlertDelivery.Backend.XAck | internal/broker/consumer.go:314-318 | an ack removes the entry from the pending list or fails without effect |
| AlertDelivery.Consumer.ReleaseDedupClaims | cmd/notifier/main.go:197-216 | the hook releases the claims of a prefix of the tokens, all of them exactly when it succeeds |
| AlertDelivery.Consumer.ProcessMessage | internal/broker/consumer.go:248-300 | processing is one event of the protocol, performed by exactly the listed commands in order, whatever notify, hook and ack answer; a transient error leaves claims and pending list as they are and nothing is sent after the notification |
| AlertDelivery.Consumer.Conclude | internal/broker/consumer.go:258-293 | on the pending list, the claims and the commands themselves: after a transient error nothing changes and nothing is sent; after a delivery or without a target one ack is sent and no claim is touched; for a recipient who can never be reached only the claims of the alert go, and the entry leaves the pending list only once all of them are gone |
| AlertDelivery.Consumer.Drop | internal/broker/consumer.go:259-272 | a permanently undeliverable alert is acked only after every claim was released |
| AlertDelivery.Consumer.DeadLetterEntry | internal/broker/consumer.go:211-246 | dead-lettering a listed entry, settled since or not, is one event of the protocol, performed by re-read, hook, append and ack in that order, each only after the one before worked |
| AlertDelivery.Consumer.MoveToDead | internal/broker/consumer.go:216-242 | the copy is appended only after the hook finished, the ack sent only after the append |
| AlertDelivery.Consumer.ReadBatch | internal/broker/consumer.go:136-158 | one read of the main loop: the entries read are the next ones, at most ten; each is processed once, in order, by exactly the listed commands, and nothing is left in hand; the commands are orderly |
| AlertDelivery.Consumer.ReclaimPending | internal/broker/consumer.go:165-208 | a reclaim pass: lists at most fifty of its own idle entries, dead-letters each at the limit, takes the others over again and tries each one given, by exactly the listed commands; work falls by what was listed, but for unfinished dead-letterings and entries not given, so by all of it when every release, append and ack was answered and the take-over gave what it was asked for; the commands are orderly |
| AlertDelivery.Consumer.ReclaimOrphans | internal/broker/consumer.go:350-396 | the same for exactly the listed entries of other consumers |
| AlertDelivery.Consumer.Retake | internal/broker/consumer.go:181-207 | the part both passes share |
| AlertDelivery.Consumer.BurySpent | internal/broker/consumer.go:182-188 | entries at the limit are dead-lettered in order, each by one event and its commands, the others kept for retry in order |
| AlertDelivery.Consumer.Drain | internal/broker/consumer.go:399-423 | the drain pass: each listed entry of this consumer is dead-lettered at the limit, else read again and, if that works, tried once, by exactly the listed commands, which are orderly |
| AlertDelivery.OrderlyMeaning | internal/broker/consumer.go:211-300 | orderly commands: at any point of a pass, an entry that parses is acked only after its own notification was answered, otherwise than by a transient error, or after it was read again to be dead-lettered, and not before the claims that have to go are gone and the copy that has to be made is made; claims are released only for an alert given up, and only what was read again is dead-lettered |
| AlertDelivery.ProcessOrderly | internal/broker/consumer.go:248-300 | the commands of processing one message are orderly, whatever it answers |
| AlertDelivery.DeadOrderly | internal/broker/consumer.go:211-246 | so are those of dead-lettering one entry |
| AlertDelivery.OrderlyJoined | internal/broker/consumer.go:113-161 | and those of passes one after the other |
| AlertDelivery.Consumer.RetryEntries | internal/broker/consumer.go:190-207 | nothing is sent for no entries; else one take-over, and a try of each entry given |
| AlertDelivery.AnsweredPass | internal/broker/consumer.go:165-246 | when every release, append and ack of a pass was answered and the take-over gave all, every dead-lettering finished and every other entry was taken |
| AlertDelivery.UnackedBurial | internal/broker/consumer.go:211-246 | a dead-lettering that left its entry pending had a release, an append or an ack fail |
| AlertDelivery.JoinRuns | internal/broker/consumer.go:113-161 | what successive calls perform is one legal run, with their counts added |
| IngestDelivery.Server.ClaimAndDeliver | internal/api/ingest_delivery.go:49-88 | a token listed twice is claimed once; the claim table grows by exactly the new claims, less those released after a transient failure; the result is the number claimed on success, else 0; the commands and the protocol run are given exactly |
| IngestDelivery.Server.ClaimFresh | internal/api/ingest_delivery.go:50-62 | the new listings are those whose claim was new, each token once |
| IngestDelivery.Server.ReleaseAll | internal/api/ingest_delivery.go:77-82 | after a transient failure one release is sent per claimed listing, in the order delivery left them |
| IngestDelivery.InstantDelivery.DeliverBatch | internal/scheduler/delivery.go:97-147 | the alert goes to the chat and search of the delivery and names the ten best of the batch, or all of a smaller one, best first by fitness, then deal score; the batch is sorted in place; a malformed text publishes nothing; without a publisher the notifier is asked instead |
| IngestDelivery.InstantDelivery.DeliverRaw | internal/scheduler/delivery.go:149-182 | a ready-made message goes out as an alert without tokens, or to the notifier, unless malformed; no claim changes hands |
| IngestDelivery.FailedPushLeavesNoTrace | internal/api/ingest_delivery.go:77-84 | after a transient failure with every release answered the claim table is what it was, although delivery reordered and truncated its view |
| IngestDelivery.SortedKeeps | internal/scheduler/delivery.go:98-102 | sorting keeps the claims of the batch |
| IngestDelivery.TopWithin | internal/scheduler/delivery.go:119-131 | an alert names only tokens of claimed listings |
| IngestDelivery.PusherRunsAreSafe | internal/api/ingest_delivery.go:49-88 | a push never does what the agreement theorem forbids: a run of events on what the pusher owns is uninterrupted and exclusive |
| SchedulerDelivery.OneEnd | internal/scheduler/match.go:351-436 | every claimed listing of a search comes to exactly one of three ends: handed on, to be given back, or stranded |
| SchedulerDelivery.KeptExactly | internal/scheduler/match.go:351-436 | a claim not to be given back stays; with every release answered, one is kept for a listing not handed on if and only if that listing is stranded: put off by the grace period, behind a recipient who has blocked the bot, in a malformed batch, or beyond the best ten |
| SchedulerDelivery.EndsInNumbers | internal/scheduler/match.go:351-436 | the ends in numbers: only a saved listing of known mileage within the limit, if there is one, is handed on, and none just seen without its details; one that a batch passes over had ten of at least its fitness before it |
| SchedulerDelivery.GivenBackTwiceExactly | internal/scheduler/processing.go:102-130 | with every release answered, a claim is given back twice if and only if the save failed over a listing past the mileage limit |
| SchedulerDelivery.SearchDelivery.DeliverSearch | internal/scheduler/match.go:351-439 | one pass over a search: exactly these claims are left, commands sent and events performed; the pass keeps to what it owns if and only if no claim is given back by the mileage filter and again after a failed save; it counts as a notification unless stopped or malformed, when a price drop or the batch went out |
| SchedulerDelivery.SearchDelivery.FilterAndSave | internal/scheduler/match.go:351-403 | the mileage filter gives back what it drops; a failed save gives back every claim, those once more |
| SchedulerDelivery.SearchDelivery.FilterKm | internal/scheduler/match.go:351-382 | keeps the listings within the limit in order, and sends one release for each other |
| SchedulerDelivery.SearchDelivery.Persist | internal/scheduler/processing.go:102-130 | saves the records of all listings, those filtered out too, and releases every claim when that fails |
| SchedulerDelivery.SearchDelivery.ReleaseAll | internal/scheduler/processing.go:115-123 | one release per listing, in order, whatever each answers; the run is within what is owned if and only if the claims released are |
| SchedulerDelivery.SearchDelivery.DeliverResults | internal/scheduler/processing.go:15-100 | the price drops first, then the batch unless the recipient has blocked the bot |
| SchedulerDelivery.SearchDelivery.SendDrops | internal/scheduler/processing.go:19-44 | sends the price drops in order and stops at a recipient who has blocked the bot |
| SchedulerDelivery.SearchDelivery.DeliverReady | internal/scheduler/processing.go:46-99 | delivers the batch; after a transient failure sends one release per listing, in the order delivery left them |
| SchedulerDelivery.SearchDelivery.SplitReady | internal/scheduler/match.go:407-430 | leaves out, in order, the listings without details that appeared within the grace period |
| ListingOrder.SortedIsStableSort | internal/scheduler/delivery.go:29-36 | best first, same listings, equal ranks in their original order |
| ListingOrder.StableSortUnique | internal/scheduler/delivery.go:29-36 | those three facts determine the order completely |
| ListingOrder.SortByScore | internal/scheduler/delivery.go:29-36 | the in-place sort leaves exactly that order, so that fitness never rises along the batch and the deal score not at equal fitness, an unscored listing standing with those scored -1 |
| ListingOrder.ScoresFall | internal/scheduler/delivery.go:26-44 | the same of the sorted batch |
| IngestDelivery.TopNamesBest | internal/scheduler/delivery.go:97-119 | every listing an alert names has at least the fitness of every one it leaves out, and at equal fitness at least the deal score; its tokens stand in falling order |
| Matching.FiltersAgree | internal/percolator/percolator.go:99-265 | the classifier finds no reason, the percolator matches, and the pipeline filter on the lowered criteria keeps the listing in exactly the same cases |
| Matching.ClassifierAgrees | internal/percolator/percolator.go:99-171 | no rejection reason if and only if the search matches |
| Matching.PipelineAgrees | internal/filter/filter.go:29-98 | the pipeline filter agrees although it compares the engine volume unrounded and lowers keywords after trimming |
| Matching.KeywordsAgree | internal/model/params.go:30-43 | splitting, trimming and lowering in either order leads to the same keyword verdict |
| Matching.TruncBelow | internal/filter/filter.go:51-53 | truncating the engine volume does not change a comparison with a positive whole bound |
| Matching.ApplyForSearch | internal/filter/filter.go:9-27 | on the criteria of a search the pipeline keeps exactly the listings the percolator matches, in order |
| Matching.Apply | internal/filter/filter.go:9-27 | keeps exactly the listings the lowered criteria accept, in order |
| Matching.FilterCriteriaFromSearch | internal/model/params.go:13-46 | the loops build the record of the search with its trimmed non-empty keywords in order |
| Matching.Percolator.Match | internal/percolator/percolator.go:45-62 | reports the matching rules in order |
| Matching.Percolator.CountRejections | internal/percolator/percolator.go:80-95 | per rule, the tally of each reason over the listings |
| Matching.RulesForMeaning | internal/percolator/percolator.go:45-62 | a rule is reported exactly when it is loaded and matches, each once |
| Matching.FeedConserved | internal/percolator/percolator.go:80-95 | matches plus all rejections equal the number of listings, for every search |
| Matching.SellerSplits | internal/percolator/percolator.go:220-231 | a private filter and a dealer filter split the listings of known sellers between them and let all others pass |
| Text.TrimLower | internal/percolator/percolator.go:150-168 | trimming and lowering commute |
| Text.SplitMeaning | internal/model/params.go:31-35 | the pieces hold no comma and joined again are the string |
| MatchCycle.DropsAndNewsApart | internal/scheduler/match.go:88-185 | over a feed with distinct tokens nobody is told twice about a token, and no token is a price drop for one user and a new listing for another |
| MatchCycle.FeedKeeps | internal/scheduler/match.go:88-185 | every decision is for a matching search and a visible listing, a drop exactly when the price fell, new exactly after a new claim |
| MatchCycle.MatchesKeep | internal/scheduler/match.go:109-183 | the same through the matches of one listing |
| MatchCycle.DecisionKeeps | internal/scheduler/match.go:122-183 | the same for one decision |
| MatchCycle.Cycle.MatchListingsToSearches | internal/scheduler/match.go:88-185 | the nested loops make exactly those decisions and count for every search the listings that match it; and in terms of the stores alone: the new listings of each search are, in order, exactly those it is the first of its user to want and whose price did not fall, and the drops exactly those whose price fell, where a search wants a listing that matches, is not hidden and whose claim query worked, if the claim is new or the price fell |
| MatchCycle.NobodyMissed | internal/scheduler/match.go:109-183 | whoever has a search matching a listing they have not hidden hears of it, through that search or an earlier one of theirs, if the claim is new or the price fell |
| MatchCycle.FeedIsPicks | internal/scheduler/match.go:88-185 | the decisions over a feed are exactly those due, each through the first search of its user that wants the listing |
| MatchCycle.AllReported | internal/scheduler/match.go:170-183 | so the lists of the cycle hold exactly what is due |
| MatchCycle.Cycle.ProcessMatch | internal/scheduler/match.go:109-183 | one match adds exactly one decision or none and raises one counter |
| MatchCycle.Cycle.PriceOf | internal/scheduler/match.go:139-154 | the price store is asked once per token; a new or changed price is staged |
| MatchCycle.Cycle.AddFound | internal/scheduler/match.go:155-183 | lists, drops and the told set record the decision |
| MatchCycle.CountersMeaning | internal/scheduler/match.go:117-122 | the counter of a search is the number of listings that match it |
| MatchCycle.RaisedOnce | internal/scheduler/match.go:117-122 | a listing raises the counter of each matching search once |
| CycleOutcome.FetchTargeted | internal/scheduler/scheduler.go:669-755 | the source is asked once per distinct query of a targeted search and for nothing else; the feed is the first listing of each token, in order; unless cancelled every targeted search was asked for |
| CycleOutcome.FirstOfEachMeaning | internal/scheduler/scheduler.go:727-736 | the feed has no token twice and misses none |
| CycleOutcome.PersistAll | internal/scheduler/match.go:386-403 | the persisted and failed tokens are those of the searches whose save worked or failed |
| CycleOutcome.FlushPendingPrices | internal/scheduler/processing.go:168-197 | records exactly the staged prices not skipped, as far as the store works |
| CycleOutcome.DropsAreFlushed | internal/scheduler/processing.go:168-197 | a price drop somebody is told about is never skipped because a save failed |
| CycleOutcome.WriteCycleStats | internal/scheduler/match.go:473-555 | matched and wrong-model counts are right, and feed size plus wrong model equals the listings fetched |
| Fitness.TotalFallsWithPrice | internal/scoring/scoring.go:350-552 | the total never rises with price, in the median, base-price and budget branches |
| Fitness.TotalFallsWithHand | internal/scoring/scoring.go:350-552 | for a private seller the total never rises with ownership hand, through hand delta, condition gate, expected price, clamps and rounding |
| Fitness.HandExactly | internal/scoring/scoring.go:418-445 | for one seller kind and car age, more hands never help if and only if the seller is private or the car is at most five years old |
| Fitness.OldCommercialCanRise | internal/scoring/scoring.go:418-445 | an old commercial car can score higher with a second hand |
| Fitness.TotalFallsWithKm | internal/scoring/scoring.go:391-416 | more kilometres never raise the total unless they raise the mileage part of the condition score |
| Fitness.KmExactly | internal/scoring/scoring.go:391-416 | for two mileages and a car age, the larger never scores higher whatever else the listing says, if and only if both are on one side of the expected mileage or the larger is far enough past it |
| Fitness.KmScoreExactly | internal/scoring/scoring.go:409-413 | the mileage part of the condition falls exactly under that condition |
| Fitness.ShabbyRises | internal/scoring/scoring.go:350-552 | whenever the mileage part of the condition rises, some listing of that age scores higher with more kilometres |
| Fitness.TotalCanRiseAcrossExpectedKm | internal/scoring/scoring.go:409-413 | 200 km more than the expected 225000 can score higher |
| Fitness.ValueWithin | internal/scoring/scoring.go:447-552 | the final clamp of the value delta never acts; the base-price and budget branches keep tighter bounds |
| Fitness.TotalWithin | internal/scoring/scoring.go:350-389 | the total is a whole number of tenths between 0 and 10 |
| Fitness.ValueFalls | internal/scoring/scoring.go:447-552 | the value delta falls with a worse price ratio and a worse condition score |
| Fitness.CondScoreWithin | internal/scoring/scoring.go:359-362 | the condition score lies between 0 and 1 |
| FitnessWorth.KmPoints | internal/scoring/scoring.go:391-407 | points for mileage: none either way for an unknown one and for 12750 km a year, 0.3 lost at 15000, 5 at 30000, and no more beyond 37500 |
| FitnessWorth.LowKmPoints | internal/scoring/scoring.go:400-401 | below 12750 km a year the square of the points won is in proportion to the kilometres missing, with 4.2 points as the limit |
| FitnessWorth.DeadZonePoints | internal/scoring/scoring.go:402-403 | from there to 15000 km a year the points lost grow evenly |
| FitnessWorth.HighKmPoints | internal/scoring/scoring.go:404-407 | past 15000 km a year the tenth power of the loss grows with the seventh power of the excess |
| FitnessWorth.EveryKmCosts | internal/scoring/scoring.go:399-407 | up to 37500 km a year every kilometre costs |
| FitnessWorth.LowKmPays | internal/scoring/scoring.go:391-416 | a car below 12750 km a year never scores below the same car at that mileage, and strictly above when at least a tenth of a point is won and no clamp acts |
| FitnessWorth.HandPoints | internal/scoring/scoring.go:418-445 | points for owners: 0.5 for one and a tenth more for each year up to the eighth, two fifths of that from a commercial seller; 0.22 lost for each year the car is too young for its owners, 0.06 won for each year to spare, up to five |
| FitnessWorth.HandPrice | internal/scoring/scoring.go:460-466 | what owners do to the expected price: five per cent more for a first-hand car of three years or older, 1.4 per cent less for each year too young, at most fifteen |
| FitnessWorth.KmPrice | internal/scoring/scoring.go:455-458 | each per cent under the mileage of the cohort adds 0.15 per cent to the expected price and each one over takes as much, down to one half; against the list price 0.12 per cent, down to 0.7 |
| FitnessWorth.MarketPoints | internal/scoring/scoring.go:477-487 | points against the market: 2.5 up to 80 per cent of the expected price, none at 92, 0.3 lost at 105 and 3.5 from 135 on, evenly in between |
| FitnessWorth.ListPricePoints | internal/scoring/scoring.go:518-531 | against the list price: 1.8 up to 75 per cent, none at 88, 0.2 lost at 110 and 2.8 from 140 on |
| FitnessWorth.BudgetPoints | internal/scoring/scoring.go:533-544 | against the budget: 2 up to 70 per cent of it, none at 90, 0.5 lost for all of it and 1 for more |
| FitnessWorth.KmScorePoints | internal/scoring/scoring.go:409-413 | the mileage part of the condition: one half for an unknown mileage and for 10500 km a year, and its values at 15000 and 18000 |
| FitnessWorth.EnginePoints | internal/scoring/scoring.go:567-584 | a tenth of a point at most, from half as much again as the volume asked for on |
| FitnessWorth.DearPoints | internal/scoring/scoring.go:447-544 | the market median counts before the list price and that before the budget: what a private listing with only its price known loses against each when it is far too dear |
| FitnessWorth.SmallEngineScoresNothing | internal/scoring/scoring.go:367-376 | an engine known to be smaller than asked for makes the total 0 |
| FitnessWorth.NewCarsAreOne | internal/scoring/scoring.go:351-357 | a car of unknown year, of this year or of a coming one counts as one year old |
| FitnessWorth.OriginNeverHelps | internal/scoring/scoring_test.go:986-1029 | a former lease car never scores above the same car of a private owner, nor a former rental above a former lease |
| FitnessWorth.CommercialNeverHelps | internal/scoring/scoring_test.go:966-984 | a commercial listing never scores above the same private one |
| FitnessWorth.CandyExample | internal/scoring/scoring_test.go:172-180 | of the calibration profiles the first scores 7.5 exactly |
| FitnessWorth.SweetSpotExample | internal/scoring/scoring_test.go:181-189 | the second 9.1 |
| FitnessWorth.GemExample | internal/scoring/scoring_test.go:190-198 | the third 10, through the clamp |
| FitnessWorth.AverageExample | internal/scoring/scoring_test.go:199-207 | the fourth between 5.1 and 5.5, with part of its bonus gated away |
| FitnessWorth.OverpricedExample | internal/scoring/scoring_test.go:208-216 | the fifth 4.0 |
| FitnessWorth.BeaterExample | internal/scoring/scoring_test.go:217-225 | the sixth 3.0 |
| Market.LookupMeaning | internal/scoring/scoring.go:108-124 | a precomputed lookup answers if and only if some year of the band has a large enough cohort, and price and mileage each lie between two medians of the band |
| Market.ValueBetween | internal/scoring/scoring.go:119-123 | the weighted and truncated average stays between the extreme medians, for any sign |
| Market.BandIsMean | internal/scoring/scoring.go:108-124 | the answer for a band is the truncated mean over the listings of its cohorts, each counted with the median of its cohort, for price and mileage, and the cohort size reported is their number |
| Market.RawOrderFree | internal/scoring/scoring.go:126-150 | the raw answer does not depend on the order of the listings |
| Market.BandCounted | internal/scoring/scoring.go:126-136 | the raw medians are taken over exactly the listings at most a year older or newer and for 5000 or more, each counted once, the mileages over those of them whose mileage is known |
| Market.MedianSplits | internal/scoring/scoring.go:152-162 | at least half of the values lie on each side of the median |
| Market.MedianOrderFree | internal/scoring/scoring.go:152-162 | the median depends only on which values there are |
| Market.MedianInt | internal/scoring/scoring.go:152-162 | the in-place sort and the middle are the median |
| Market.MedianKeysApart | internal/scoring/scoring.go:94-96 | two median keys are equal exactly when cohort key and year are |
| Market.CohortsMeaning | internal/scoring/scoring.go:73-85 | the last entry of a manufacturer, model and year counts |
| Market.MarketCache.FromListings | internal/scoring/scoring.go:61-68 | each key holds the entries of its listings, in order |
| Market.MarketCache.FromMedians | internal/scoring/scoring.go:73-85 | the cohorts are those of the entries |
| Market.MarketCache.ComputeFromRaw | internal/scoring/scoring.go:126-150 | median price and mileage of the band, or none below the cohort minimum |
| Market.MarketCache.LookupPrecomputed | internal/scoring/scoring.go:108-124 | the weighted medians of the usable years |
| Market.MarketCache.Lookup | internal/scoring/scoring.go:100-106 | which of the two applies |
| TokenBuckets.WindowBoundExactly | internal/api/ratelimit.go:121-188 | every run, key and window admits at most burst + ceil(length / tick) calls if and only if burst times tick is at most the idle cutoff plus one |
| TokenBuckets.WindowBound | internal/api/ratelimit.go:121-188 | the bound under that condition, with idle buckets evicted at any time and the key cap |
| TokenBuckets.GlobalWindowBound | internal/api/ratelimit.go:264-281 | the bucket never swept keeps the bound without a condition |
| TokenBuckets.ConfiguredLimiters | internal/api/api.go:230-233 | the user and address limiters keep the bound, the guest limiter does not |
| TokenBuckets.PatientCallerAdmitted | internal/api/ratelimit.go:46-71 | a user whose calls are at least one tick apart is never rejected, whatever else happens |
| TokenBuckets.IdleKeyRegains | internal/api/ratelimit.go:121-154 | of any number of calls of a key at one moment, exactly as many are admitted as it has tokens left and whole ticks have passed, up to the burst |
| TokenBuckets.NewKeyBurst | internal/api/ratelimit.go:121-154 | a new key has the whole burst |
| TokenBuckets.KeyedLimiter.Allow | internal/api/ratelimit.go:121-154 | one call changes the bucket of its key as specified and answers accordingly |
| TokenBuckets.KeyedLimiter.Cleanup | internal/api/ratelimit.go:156-188 | the sweep removes exactly the buckets idle past the cutoff |
| TokenBuckets.GlobalBucket.Allow | internal/api/ratelimit.go:264-281 | the same for the single bucket |
| CircuitBreaker.ClosedExactly | internal/fetcher/circuitbreaker.go:100-131 | in every interleaving the breaker is closed exactly when fewer failures than the threshold are counted |
| CircuitBreaker.ClosedByFailures | internal/fetcher/circuitbreaker.go:96-132 | in every interleaving from the start the breaker is closed exactly when fewer calls than the threshold have failed since the last one that succeeded |
| CircuitBreaker.ShutDuringCooldown | internal/fetcher/circuitbreaker.go:73-86 | from opening until the cooldown ends the breaker stays open if and only if no earlier call succeeds, and then no inner call begins |
| CircuitBreaker.OneProbeExactly | internal/fetcher/circuitbreaker.go:87-100 | at most one call is under way whenever half open, in every run whose calls last at most d, if and only if d is less than the cooldown |
| CircuitBreaker.Breaker.BeginFetch | internal/fetcher/circuitbreaker.go:72-94 | the first critical section is one begin step |
| CircuitBreaker.Breaker.EndFetch | internal/fetcher/circuitbreaker.go:96-132 | the second critical section is one end step |
| QueryKey.KeyInjective | internal/fetcher/cache.go:115-121 | two queries have the same key exactly when they are equal, for any numbers and any seller text |
| QueryKey.SearchesShareFetch | internal/model/params.go:51-65 | two searches share a fetch exactly when the source is asked the same for both |
| QueryKey.PrintedApart | internal/fetcher/cache.go:115-121 | numbers printed with a separator after each can be read back in one way only |
| QueryKey.NumbersApart | internal/fetcher/cache.go:115-121 | a printed number ends where the separator begins, negative ones too |
| FetchCache.CachingFetcher.Fetch | internal/fetcher/cache.go:35-74 | listings given back without an error are what the source returned for these very parameters: fresh, younger than the time to live, or the old entry after an ordinary failure; never the old entry when blocked; whatever other fetches do meanwhile |
| FetchCache.CachingFetcher.Store | internal/fetcher/cache.go:61-71 | the cache stays within 100 entries, and an entry leaves only if expired or used no later than everything that stays |
| FetchCache.CachingFetcher.EvictExpired | internal/fetcher/cache.go:78-84 | removes exactly the entries past twice the time to live, each at the moment it is looked at |
| FetchCache.CachingFetcher.EvictOldest | internal/fetcher/cache.go:86-104 | never removes an entry used later than one it keeps, and no more than needed |
| FetchCache.CachingFetcher.Touch | internal/fetcher/cache.go:106-113 | only the last use of the one entry changes |
| FetchCache.OwnQueryMore | internal/fetcher/cache.go:61-64 | storing under a key cannot give another query a wrong answer |
| EnrichPurge.EnrichQueue.PurgeEnrichedEntries | internal/broker/enrich.go:123-204 | the cursor loop ends; what stays keeps its order; only enriched entries go; if nothing fails exactly the purgeable entries are gone, counted, and their tokens not pending, and no enriched entry is left if and only if none was superseded in its batch; after a failure at most one deleted entry is uncounted |
| EnrichPurge.PurgeCompleteExactly | internal/broker/enrich.go:158-197 | what a purge without failures leaves holds no enriched entry if and only if no enriched listing is asked for twice in one batch, which distinct tokens ensure |
| EnrichPurge.TwoRequests | internal/broker/enrich.go:158-197 | two requests for one enriched listing in a batch: one of them stays |
| EnrichPurge.CursorFindsRest | internal/broker/enrich.go:137-161 | reading on from the cursor finds exactly the entries not yet visited, whether or not the entry at the cursor was deleted |
| EnrichPurge.BatchMeaning | internal/broker/enrich.go:158-190 | the identifiers deleted in a batch are those of the last entry of each enriched token |
| EnrichPurge.EnrichQueue.NextBatch | internal/broker/enrich.go:137-161 | the next entries not yet visited, at most 200 |
| EnrichPurge.EnrichQueue.Decode | internal/broker/enrich.go:159-172 | of several entries with one token in a batch the last counts |
| EnrichPurge.EnrichQueue.DeleteEnriched | internal/broker/enrich.go:180-197 | deletes entry and token of each enriched token, in any order, up to the first failure |
| EnrichPurge.WithoutMeaning | internal/broker/enrich.go:187-190 | what stays is what was not deleted, in order |
| AdaptiveLimiter.DelayBoundedExactly | internal/enricher/ratelimit.go:77-106 | over every run the delay stays between base and maximum and successes within requests if and only if the two delays are in order and not negative |
| AdaptiveLimiter.SuccessesHalve | internal/enricher/ratelimit.go:77-92 | each success in a row within a window halves the delay, down to the base delay |
| AdaptiveLimiter.ChallengesDouble | internal/enricher/ratelimit.go:97-106 | each challenge in a row doubles it, up to the maximum |
| AdaptiveLimiter.WindowStartsAgain | internal/enricher/ratelimit.go:151-159 | past ten minutes the window starts again with this request, and a success leaves the delay alone |
| AdaptiveLimiter.QuietRunsSafe | internal/enricher/ratelimit.go:77-121 | a run without a success during a cooldown never shifts by a negative count, and a cooldown that is on has been counted |
| AdaptiveLimiter.CrashExactly | internal/enricher/ratelimit.go:109-119 | during a cooldown some number of challenges shifts by a negative count if and only if the cooldown count is zero, which a success leaves |
| AdaptiveLimiter.CrashReachedExactly | internal/enricher/ratelimit.go:97-121 | some run of a fresh limiter on a clock that never goes back crashes if and only if a cooldown time is configured |
| AdaptiveLimiter.CooldownLengthMeaning | internal/enricher/ratelimit.go:114-119 | consecutive cooldowns last one, two and four times the configured time, never more than half an hour |
| AdaptiveLimiter.WaitWithinQuarter | internal/enricher/ratelimit.go:60-66 | a wait is within a quarter of its delay on both sides, so it can end before the cooldown exactly when at least four nanoseconds remain |
| AdaptiveLimiter.AdaptiveRateLimiter.RecordSuccess | internal/enricher/ratelimit.go:77-92 | one success step |
| AdaptiveLimiter.AdaptiveRateLimiter.RecordChallenge | internal/enricher/ratelimit.go:97-121 | one challenge step, or the crash |
| AdaptiveLimiter.AdaptiveRateLimiter.ResetWindowIfExpired | internal/enricher/ratelimit.go:151-159 | an expired window starts again |
| AdaptiveLimiter.AdaptiveRateLimiter.Wait | internal/enricher/ratelimit.go:49-74 | the delay waited, with its jitter; what is left of a cooldown is read off the clock a second time, and is not waited for if it ended in between |
| Wizard.RunsExactly | internal/bot/wizard.go:19-683 | over every run of inputs, failures and unlocked commands: the data always satisfies what its step promises, and every saved search has its years and prices in range and in order, if and only if no input is taken after its handler read data short of what the step it found promises |
| Wizard.HandledExactly | internal/bot/wizard.go:19-683 | the same for each single input |
| Wizard.SavedSearchesAcceptable | internal/bot/wizard.go:323-612 | over every run in which reading the data never fails and no handler is overtaken, every search saved and all data shown for confirmation is acceptable, despite unguarded jumps back, restarts and edits with any values |
| Wizard.FailedReadExactly | internal/bot/bot.go:463-481 | a failed read does harm exactly when the input is taken at a step past the first year |
| Wizard.FailedReadSaved | internal/bot/bot.go:463-481 | from the start, one failed read and a search without years and prices is saved |
| Wizard.OvertakenExactly | internal/bot/commands.go:184-611 | watch, cancel and edit take no lock: one of them between the check of the step and the read of the data does harm exactly when the input is still taken and the data left falls short of the step, after watch and cancel at any step past the first year |
| Wizard.OvertakenSaved | internal/bot/commands.go:184-204 | from the start, one watch slipping in and a search without years and prices is saved |
| Wizard.OneSavePerConfirmation | internal/bot/wizard.go:323-432 | at most one search is saved per arrival at the confirmation, but for those after which the reset failed |
| Wizard.HandledSaves | internal/bot/wizard.go:376-427 | the same for one input |
| Wizard.Wizard.Handle | internal/bot/callbacks.go:25-54 | one input, button, command or text, has exactly the specified effect on step, data and saved searches, whatever the store answers |
| WizardAnswers.DataIsLastAnswers | internal/bot/wizard.go:19-683 | over every run, with any failures and any overtaking: each field of the data holds the last answer accepted for it since the data last started over, or what it started over from, such as the search edited |
| WizardAnswers.SavedIsLastAnswers | internal/bot/wizard.go:323-432 | a turn saves at most one search, on a press of confirm, and each of its fields holds the last answer |
| WizardAnswers.InputHolds | internal/bot/wizard.go:136-683 | an input that answers the question of its step changes the field asked for and no other, whatever is found, read or fails |
| WizardAnswers.AnswerStays | internal/bot/wizard.go:136-683 | an answer stays in its field for as long as no turn answers the question again, starts over or fails to read |
| WizardAnswers.AnswersAreSaved | internal/bot/wizard.go:19-683 | every question answered once, for a search of any values: what is saved is that search, each answer in its own field |
| AlertDelivery.Backend.XAdd | internal/scheduler/delivery.go:129-134 | an append adds the message at the end or fails without effect |
| AlertDelivery.Backend.XAddDead | internal/broker/consumer.go:232-241 | the same for the dead-letter stream |
| AlertDelivery.Backend.XRange | internal/broker/consumer.go:212-216 | a re-read gives the message of the entry or fails |
| AlertDelivery.Backend.InsertClaim | internal/api/ingest_delivery.go:52-57 | a claim insert says whether the triple was new, or fails without effect |
| AlertDelivery.Backend.DeleteClaim | cmd/notifier/main.go:202-208 | a claim delete removes the triple or fails without effect |
| AlertDelivery.Consumer.ProcessAll | internal/broker/consumer.go:155-159 | the messages in hand are processed one by one in order, by exactly the commands of each |
| AlertDelivery.Consumer.RunHook | internal/broker/consumer.go:224-229 | the hook runs only on an alert that parses |
| AlertDelivery.Consumer.Bury | internal/broker/consumer.go:232-242 | append, then ack only if the append worked |
| IngestDelivery.Server.ClaimOneNew | internal/api/ingest_delivery.go:52-61 | one claim attempt and its answer |
| IngestDelivery.Server.ReleaseOne | internal/api/ingest_delivery.go:77-82 | one release and its answer |
| MatchCycle.Cycle.MatchListing | internal/scheduler/match.go:97-184 | all decisions for one listing |
| MatchCycle.Cycle.DropFrom | internal/scheduler/match.go:139-157 | a price drop is reported exactly when the known price was higher |
| CycleOutcome.AddUnseen | internal/scheduler/scheduler.go:727-736 | of a fetch only listings with new tokens join the feed, in order |
| CycleOutcome.StatFor | internal/scheduler/match.go:480-530 | the counts of one search |
| FetchCache.CachingFetcher.AskSource | internal/fetcher/cache.go:47-47 | the source is asked without the lock, while other fetches go on |
| EnrichPurge.EnrichQueue.DeleteEntry | internal/broker/enrich.go:187-195 | entry first, then token; a failure in between leaves the token pending |
| EnrichPurge.EnrichQueue.PurgeBatch | internal/broker/enrich.go:158-198 | one batch loses exactly its purgeable entries if nothing fails |
| EnrichPurge.EnrichQueue.PurgeNext | internal/broker/enrich.go:135-201 | one turn of the loop |

## Left out

- AlertProtocol: a cleanup (release the claims, append, ack) is one event that records how far it got, so what others see between its commands, when an alert may briefly lack claims, is left out; stream trimming is not modelled.
- AlertProtocol.DeadLetterKeepsCopy: the model keeps every copy, while the code lets the server trim the dead-letter stream to about 10000 entries.
- AlertProtocol.BoundedAttempts: a take-over finds delivery counts as they were listed or the entry not idle any more; a pass slower than the idle threshold could otherwise count past the limit.
- AlertDelivery: nobody else acts during one pass of a consumer; interleavings are those of single events in `AlertProtocol`, each performed by one method from any state that enables it.
- AlertDelivery: the methods take each answer at its word; a command that took effect although its answer was lost appears in `AlertProtocol` only.
- AlertProtocol: an entry in hand is taken as soon as it is read or claimed; a consumer that dies is one that never processes what it holds.
- IngestDelivery.InstantDelivery.DeliverBatch: does not model the digest strategy; the message text is an unconstrained value that may be malformed.
- SchedulerDelivery: one search of one cycle, with nobody else acting meanwhile; the pipeline that scores listings, the counters and the deactivation of users who have blocked the bot are left out.
- The delivery ledger, the rate limiter inside the notifier and all metrics and logging.
- The enrichment consumer is covered by the bounds of `AlertProtocol` (`EnrichRequestsBounded`) but its code is not modelled, nor is publishing with a pending check; that the pending set and the enrichment stream agree is not proved.
- EnrichPurge: no other writer touches the stream during a purge; the callback that tells which listings are enriched answers consistently during one purge.
- MatchCycle: every store answer is a function of its arguments for the length of a cycle; language lookup and the list of matched indices are left out, and so is the text of price-drop messages.
- CycleOutcome: the listing pipeline that turns matches into records is a parameter; score and price ranges in the statistics are left out.
- Fitness: real arithmetic instead of floating point; the per-dimension sub-scores shown to users, `ScoreWithKm` and the deal score are left out.
- Market: the sum of two values and the weighted totals do not overflow.
- TokenBuckets: times are whole nanoseconds from one monotone clock; each call is one step, as under the lock.
- FetchCache: the lists themselves are values, so a caller that changes a returned list in place is not modelled.
- AdaptiveLimiter: the success rate is compared exactly, and delays do not overflow.
- Matching: lower-casing maps characters one by one through a table, so case mappings that change the length of a text are left out.
- Wizard: names of manufacturers and models, keyboards and messages, paging callbacks, quick start, sharing and polling triggers are left out; typed text arrives trimmed; creating and updating a search succeed or fail as a whole.
- Wizard: at most one unlocked command slips into a handler, between its check of the step and its read of the data; one that comes before the check is an input of its own, and one that comes after the read is overwritten by the handler's save or comes after it.
- HTTP handlers, authentication, administration pages, the browser extension, the Python scraper and the clients of external services: plumbing without a deep property.
