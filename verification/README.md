# Verification of Optra's hardest logic

This project models eight parts of the Optra repository in Dafny and proves
what they promise, or exactly when they keep the promise. Code that is made of
expressions is modelled by functions; code that works step by step is modelled
by methods, loops and classes, each proved against a function, and the promises
are proved about that function or as invariants of all interleavings.

| part | files |
|---|---|
| Workflow files: YAML subset, spans, package scripts | `Yaml*.dfy`, `ScriptResolver.dfy`, `Text.dfy` |
| Automatic comparison of orders with invoices | `Compare*.dfy` |
| Usage ledger, gates, token meter, prices | `Usage*.dfy`, `BillingGate.dfy`, `TokenMeter.dfy`, `Pricing.dfy`, `Metering.dfy`, `ChatCharge.dfy` |
| Subscription webhook | `Webhook*.dfy` |
| Vendor price terms | `PriceTerms.dfy`, `PriceOverlap.dfy` |
| Chat answer cache | `AnswerCache*.dfy` |
| Parse queue reconciliation | `Parse*.dfy` (not the YAML parser) |
| Small algorithms | `ClientBucket*.dfy`, `CatalogMatch.dfy`, `FaqCluster.dfy`, `KeysetPaging.dfy` |

`JsText.dfy`, `Decimals.dfy` and `Text.dfy` hold the string helpers,
`Wrappers.dfy` the option type.

## What is proved

**YAML subset.** `YamlParser` states the recursive-descent parser as functions
with its termination measure (lines left, then sequence before mapping, since a
dash item re-enters at the same line with a patched line); the methods of
`YamlMachine` are the loops of the original and return the same values. Every
well-formed tree, printed in block form with any positive indentation step,
parses back to what it means (`RoundTrip`). For every text at all, every node's
span starts on content, spans of siblings are apart, items increase, and a
parent covers its children if and only if its last child ends on a content line
(`FileSpans`); without a text that ends on a `#` line all spans nest
(`SpansNest`), and with one they need not (`CommentTailOutrunsParent`). An inline
list item is read back if and only if its text does not split as a key
(`InlineItemExactly`), and behind a dash a block marker is a word
(`MarkerItemIsWord`). A comment behind an inline value is dropped if and only if
the value leaves no quote open for the scanner; a plain word with an apostrophe
leaves one (`CommentedReadsBack`). Blanks around it always are (`BlanksDropped`).

**Automatic comparison.** One order with all its documents, jobs and runs is a
state machine whose steps are the atomic actions of uploads, parses, reviews,
the queue, the worker and the sweeper. `updated_at` is taken before a parse
commits, and `compare` reads its inputs before it inserts the run row whose
`started_at` defaults to the time of the insert; the model keeps both gaps. On
every run a pair whose order and invoice are parsed is fresh, has a job for
inputs at least as new, is owed an enqueue, or was refused for such inputs when
every document `compare` needs was ready, unless its latest enqueue was held back
by a receipt (`NoLostVerdict`). A 400 given because a receipt awaited review is no
answer: the pair must be covered otherwise. One step alone loses a verdict: the
last unsettled receipt fails while a parsed pair is not covered (`LostExactly`,
`DeferredIsLost`). The pair's latest enqueue was held back then, with no job queued
before (`DeferredThenFailed`) or one turned down since (`TurnedDownThenFailed`). An `add` dropped as a
duplicate stands for the inputs of now if and only if no receipt the job was
added for has failed (`DroppedAddExactly`). Where the job had read that receipt
already (`DroppedAddHides`), its success leaves the pair fresh on inputs that are
gone (`DroppedAddEndsFresh`). A run read what
is current if and only if no input was committed after its reads and nothing it
read has gone (`ReadIsCurrentExactly`); a torn read can pass for fresh
(`TornReadPassesForFresh`). With the jobs of a pair run one at a time,
automatic successes never outnumber committed changes
(`WinsNeverOutnumberChanges`). The comment on the freshness check says that
`started_at` is the moment the inputs were read
(`apps/api/src/procurement/procurement-compare.processor.ts:169-174`); the code
reads first (`apps/api/src/procurement/comparison.service.ts:433-528`) and
inserts after (`apps/api/src/procurement/comparison.service.ts:529-543`). The
model follows the code.

**Billing.** The ledger is one append-only table. A key prefix singles out one
order, invoice and start date (`PrefixSinglesOut`), so the matched lines of a
window are the sum over pairs of the largest line count not refused
(`ViewsAgree`, `MonthsAgree`), provided the windows in use are apart; for any
two windows that are not, some history breaks it (`NotApartBreaks`), such as a
trial that starts on the first of a month (`TrialSharesKeys`). The comment in
`apps/api/src/procurement/comparison.service.ts:521-522` says a pair is counted once for good; the key
holds the period, so the code counts it once per period. Quotas hold under any
interleaving (`QuotaHolds`, `PlanBoundsMonth`, `TrialBounded`), AI spend is bounded by
`cap - 1 + k * C` and reaches it (`SpendBounded`, `BoundIsReached`). The meter's
cost does not depend on order and is rounded up by less than one micro-dollar a
model (`OrderDoesNotMatter`, `CostBounds`), names resolve to their longest key
(`LongestKeyWins`, `PriceForExactly`), and unknown names are the dearest
(`UnknownIsDearest`). `LockedOutExactly`, `LimitedExactly` and `BeginIsTheGate`
only tie the gate's answers to the statements above. A report that holds only a
total is priced as output, which the comment at
`packages/ai/src/tokens.ts:37` calls the dearer side. It is exactly where the
output price is no lower than the input price (`BareTotalCoversExactly`); for
the embedding model it is lower, and such totals cost nothing
(`EmbeddingTotalsAreFree`).

**Webhook.** Deliveries interleave, crash and are repeated. Rows never go back
to older data (`NeverOlder`), an entitled row is changed only by its own
subscription (`EntitledRowStays`), and no subscription is in two workspaces
(`SubscriptionsUnshared`). Once the newest event of a subscription is processed,
the row is what that event alone would have written, if those that share its
stamp would write the same (`Converges`). Among any other deliveries, one of a
valid event processes it unless it crashes (`DeliveryProcesses`). Two events
delivered in either order leave the same row if and only if their stamps differ,
they decide the same row, or the row in place is newer than both
(`OrderShowsExactly`); otherwise the last one wins (`EqualStampsKeepTheLast`).
`RetriedExactly` lists what is left for redelivery. A valid event is acknowledged
without being applied exactly when the row in place is newer or belongs to another
subscription that is still entitled (`WebhookLoss.LostExactly`, `CommitExactly`),
and then it never is applied, however often it is delivered (`ClosedForGood`).

**Price terms.** After any calls, the terms of each vendor, item, unit and
currency form a gap-free chain with one open end (`AlwaysChained`), so a price
was agreed at a time exactly when one chain of the item had started by then, and
is that of its latest term started (`AgreedPriceExactly`). The transaction takes
no lock, so lookups and writes interleave: a write keeps the chains if and only
if its lookup is still current (`SupersedeExactly`), and a whole run ends chained
if and only if every write's lookup was (`OverlapExactly`). Two first terms
looked up together are the shortest run that is not (`OverlappingCreates`).

**Answer cache.** Version reads are GET and SETNX, bumps are INCR. A semantic
hit reflects every change whose bump was over when the request read the version
(`SemanticHitsAreFresh`), from the first bump on. Exact hits do so when no bump
the answer misses came before its version was read for filing
(`CleanExactHitsAreFresh`), and not otherwise (`UncleanIsServedStale`,
`BumpDuringGeneration`). Filing only when the version read equals the one
captured before generating would make every such answer clean
(`SameVersionFilesClean`).

**Parse queue.** The count read back from a job id is the count written, unless
a first job's document id looks like a retry (`CountReadsBack`). Documents are
requeued at most twice (`RequeuedAtMostTwice`, `DueVisitFindsNone`). Live jobs
are not duplicated while the queue answers (`NoDuplicateJobs`), and are exactly
when a read error passes for a missing job (`DuplicatedExactly`). These hold of
visits that act on the row as it is. A visit on a row read earlier adds a second
live job exactly when the attempt after that row's is neither live nor still in
the queue and another attempt is live (`LateVisitExactly`), which takes a scan
two requeues behind (`LateScanDuplicates`); however many scans overlap, there
are three attempts at most (`ThreeAttemptsAtMost`). `DueVisitFindsJob` only
spells out what a visit does to a job it finds.

**Small algorithms.** IPv6 buckets agree if and only if the top 64 bits do,
outside the IPv4-mapped range, for every spelling of section 2.2 of RFC 4291
with zones of section 11 of RFC 4007 (`SameBucketIffSameTop`); `BucketsExactly`
covers mapped addresses too, and `HexSpellingDiffers` shows where the promise
about them ends. An escaped term matches exactly the texts it occurs in
(`EscapedMatchesSubstring`). The splicing loop of the clusterer computes the
grouping by earliest similar seed (`Cluster`). Following cursors lists each
lasting row exactly once, in order (`WalkListsEachOnce`).

## Model

| member | source | states |
|---|---|---|
| YamlLines.FindNextContent | scripts/graphify/ci_workflows.py:79-82 | the loop finds the first line that is neither blank nor a comment |
| YamlLines.LastContentLine | scripts/graphify/ci_workflows.py:85-94 | the loop finds the last content line before a bound, or the floor |
| YamlLines.StripInlineComment | scripts/graphify/ci_workflows.py:97-114 | the quote-aware scan cuts exactly at the first `#` outside quotes that starts the text or follows a blank |
| YamlLines.ReadBlockScalar | scripts/graphify/ci_workflows.py:144-165 | text, next line and last line of a block scalar: common indentation removed, trailing blank lines dropped, no final newline |
| YamlParser.PatchedKeyLine | scripts/graphify/ci_workflows.py:240-258 | a dash item rewritten in place is a key line at the item's own column, so the mapping parser advances |
| YamlMachine.RunNode | scripts/graphify/ci_workflows.py:168-177 | dispatch to sequence or mapping, equal to the recursive specification |
| YamlMachine.RunMapping | scripts/graphify/ci_workflows.py:180-223 | the mapping loop, equal to the recursive specification on every text |
| YamlMachine.RunSequence | scripts/graphify/ci_workflows.py:226-260 | the sequence loop with its patched lines, equal to the recursive specification on every text |
| YamlMachine.RunYaml | scripts/graphify/ci_workflows.py:263-266 | parsing ends on every text and yields the specified value |
| YamlInline.InlineReadsBack | scripts/graphify/ci_workflows.py:117-132 | plain, quoted and flow-list scalars are read back as written, with at most one blank in front |
| YamlComment.CommentedReadsBack | scripts/graphify/ci_workflows.py:97-132 | behind an inline value and a blank, a comment is dropped if and only if the value leaves no quote open; then the value is read back |
| YamlComment.BlanksDropped | scripts/graphify/ci_workflows.py:117-132 | any blanks around an inline value are dropped |
| YamlInline.KeyReadsBack | scripts/graphify/ci_workflows.py:135-141 | an identifier or quoted key is split from the rest of its line |
| YamlInline.LiteralReadsBack | scripts/graphify/ci_workflows.py:144-165 | an indented `\|` body is read back as its lines |
| YamlRoundTrip.PairRoundTrip | scripts/graphify/ci_workflows.py:180-223 | a printed pair is read back, and the parser stops behind it |
| YamlRoundTrip.ItemRoundTrip | scripts/graphify/ci_workflows.py:226-260 | a printed item is read back, a mapping item through its patched line |
| YamlRoundTrip.RoundTrip | scripts/graphify/ci_workflows.py:97-266 | any well-formed tree, printed with any positive step, parses back to exactly what it means |
| YamlItems.InlineItemExactly | scripts/graphify/ci_workflows.py:238-258 | an inline list item is read back as what it means if and only if its text does not split as a key; else it becomes a mapping |
| YamlItems.MarkerItemIsWord | scripts/graphify/ci_workflows.py:252-258 | behind a dash a block marker is a word of its own, and the item ends on its line |
| YamlSpans.FileSpans | scripts/graphify/ci_workflows.py:168-260 | for every text: siblings apart, items increasing, spans start on content, and a parent covers its children if and only if it ends on content |
| YamlSpans.SpansNest | scripts/graphify/ci_workflows.py:85-94 | when no text ends on a `#` line, every span lies inside its parent's |
| YamlSpanCase.CommentTailOutrunsParent | scripts/graphify/ci_workflows.py:154-158 | a text that ends on a `#` line outruns its parent's span |
| ScriptResolver.Resolver.ResolveCommand | scripts/graphify/ci_workflows.py:353-367 | the search with the shared `seen` set ends on cyclic scripts; everything entered has all it shows among the answers |
| ScriptResolver.Resolve | scripts/graphify/ci_workflows.py:353-367 | from an empty `seen`: exactly the reachable names and paths, without duplicates |
| CompareModel.PairsForExactly | apps/api/src/procurement/procurement-compare.service.ts:115-211 | the three branches resolve to exactly the comparable pairs the document feeds, with their input version |
| CompareModel.NewestDone | apps/api/src/procurement/procurement-compare.service.ts:253-255 | the version of the receipts is the newest `done` one |
| CompareModel.LatestStart | apps/api/src/procurement/procurement-compare.processor.ts:184-198 | the latest start among the pair's succeeded runs |
| CompareService.Service.EnqueueForDocument | apps/api/src/procurement/procurement-compare.service.ts:94-113 | the loop adds each pair under its versioned id; an id still held keeps its old job |
| CompareService.Service.Reconcile | apps/api/src/procurement/procurement-compare.service.ts:269-290 | exactly the running rows older than ten minutes become failed |
| CompareService.SweepTrace | apps/api/src/procurement/procurement-compare.service.ts:269-290 | the loop is a run of the protocol's sweep steps |
| CompareSafety.NoLostVerdict | apps/api/src/procurement/procurement-compare.service.ts:56-258 | on every run a pair with parsed order and invoice is fresh, has a job for inputs at least as new, is owed an enqueue or was refused for such inputs with all its documents ready, unless its latest enqueue was held back by a receipt |
| CompareSafety.LostExactly | apps/api/src/procurement/procurement-compare.service.ts:213-258 | from every reachable state: a step makes a pair comparable with nothing to compare it if and only if it is the failure of the last unsettled receipt while the parsed pair is not covered |
| CompareSafety.DeferredIsLost | apps/api/src/procurement/procurement-compare.service.ts:213-258 | so a parsed pair with no job, no such refusal, no fresh run and no enqueue due is lost when the last unsettled receipt fails |
| CompareInputs.DroppedAddExactly | apps/api/src/procurement/procurement-compare.service.ts:56-58 | on every run a job held under the id of the current version was added for the inputs of now if and only if no receipt it was added for has failed |
| CompareInputs.ReadIsCurrentExactly | apps/api/src/procurement/procurement-compare.processor.ts:183-233 | any run, so also the one a freshness answer rests on, read the inputs of now if and only if none was committed after its reads and all it read are still parsed |
| CompareGrowth.WinsNeverOutnumberChanges | apps/api/src/procurement/procurement-compare.processor.ts:48-96 | jobs of a pair one at a time: automatic successes never outnumber its committed changes |
| CompareCases.DeferredThenFailed | apps/api/src/procurement/procurement-compare.service.ts:213-258 | a reachable run on which a pair deferred for a receipt that then fails is comparable with nothing left to compare it |
| CompareCases.DroppedAddHides | apps/api/src/procurement/procurement-compare.service.ts:94-113 | a reachable run on which a dropped `add` leaves a job that has read a receipt which has failed since |
| CompareCases.DroppedAddEndsFresh | apps/api/src/procurement/procurement-compare.processor.ts:48-96 | that job's success passes for fresh, and no job remains to read the inputs of now |
| CompareRefusal.TurnedDownThenFailed | apps/api/src/procurement/procurement-compare.processor.ts:48-96 | a reachable run on which a job is turned down while a receipt awaits review, the receipt is parsed again and fails, and nothing is left to compare the pair |
| CompareCases.TornReadPassesForFresh | apps/api/src/procurement/comparison.service.ts:433-543 | a change committed between the reads and the run row passes for compared, and no job remains |
| UsageLedger.Ledger.Reserve | apps/api/src/billing/usage-ledger.service.ts:22-69 | duplicate, over or charged, and the table after it |
| UsageLedger.Ledger.ReservePairLines | apps/api/src/billing/usage-ledger.service.ts:79-132 | only the lines beyond the pair's count are charged, against the window's limit |
| UsageLedger.Ledger.RecordLlmCost | apps/api/src/billing/usage-ledger.service.ts:135-151 | one cost row for a meter that counted anything |
| UsageLedger.Ledger.SumsByKind | apps/api/src/billing/usage-ledger.service.ts:153-174 | the window's sum of each kind |
| UsageViews.PrefixSinglesOut | apps/api/src/billing/billing-gate.service.ts:18-21 | `starts_with` on a key prefix is true exactly for that pair and start date |
| UsageViews.ChargeIsLargest | apps/api/src/billing/usage-ledger.service.ts:71-132 | the sum under a prefix is the largest line count asked for and not answered `over` |
| UsageViews.ViewsAgree | apps/api/src/billing/usage-ledger.service.ts:79-174 | with windows apart: the window's matched lines are the sum of those largest counts over all pairs |
| UsageViews.MonthsAgree | apps/api/src/billing/plans.ts:83-88 | calendar months are always apart |
| UsageViews.NotApartBreaks | apps/api/src/billing/billing-gate.service.ts:18-21 | any two used windows that are not apart have a history on which the views differ |
| UsageViews.TrialSharesKeys | apps/api/src/billing/billing-gate.service.ts:18-21 | a trial that starts on the first of a month shares keys with the month |
| BillingGate.Gate.AssertMatchedLines | apps/api/src/billing/billing-gate.service.ts:49-83 | which ledger transaction is made, and when the call is refused |
| BillingGate.Gate.AssertPhotoCheck | apps/api/src/billing/billing-gate.service.ts:85-115 | the AI cap is checked before a photo is reserved |
| BillingGate.QuotaHolds | apps/api/src/billing/usage-ledger.service.ts:22-132 | no interleaving pushes a kind's sum above a fixed window's limit |
| BillingGate.PlanBoundsMonth | apps/api/src/billing/entitlement.service.ts:42-120 | a workspace that keeps its plan through a month gets no more than the plan grants, whatever the others do |
| BillingGate.SpendBounded | apps/api/src/limits/usage.service.ts:82-101 | in a window that opened unspent, with at most k metered calls in flight, each costing at most C, spend stays within cap - 1 + k * C |
| BillingGate.BoundIsReached | apps/api/src/limits/usage.service.ts:82-101 | from one below the cap, k calls reach that bound |
| BillingGate.LockedOutExactly | apps/api/src/billing/entitlement.service.ts:82-104 | link to the model: enforcement asks for a subscription exactly of those without exemption, entitlement or running trial; off, it refuses nobody |
| BillingGate.LimitedExactly | apps/api/src/billing/entitlement.service.ts:82-104 | link to the model: who is limited, to how many lines and over which window; a paid plan goes before the trial |
| BillingGate.TrialBounded | apps/api/src/billing/billing-gate.service.ts:49-115 | inside one trial window a workspace that only tries gets no more than the solo allowance |
| BillingGate.Gate.AssertAiBudget | apps/api/src/billing/billing-gate.service.ts:42-47 | refused when lapsed, then when the window's spend has reached the cap |
| BillingGate.BeginIsTheGate | apps/api/src/billing/billing-gate.service.ts:42-47 | link to the model: the gate lets a call start exactly below the cap |
| Metering.UsageService.Metered | apps/api/src/limits/usage.service.ts:27-106 | the dollar cap refuses first, then the monthly token budget unless it cannot be read or the call is ledger-only; a refused call writes nothing, any other is charged the same whether it returns or throws, each counter only if its write lands |
| Metering.ChargesWhatWasUsed | apps/api/src/limits/usage.service.ts:93-101 | one row exactly when tokens were used, for the meter's whole cost |
| Pricing.LongestKeyWins | packages/ai/src/pricing.ts:21-29 | in any table of distinct keys the answer is the longest matching key, and only that |
| Pricing.PriceForExactly | packages/ai/src/pricing.ts:3-29 | a model costs by the longest key of the price table that its name starts with, or by the fallback when none does |
| Pricing.UnknownIsDearest | packages/ai/src/pricing.ts:17-45 | an unknown name never costs less than any other for the same tokens |
| TokenMeter.Meter.Record | packages/ai/src/tokens.ts:29-44 | total, entry and first-seen order after one report, a bare total priced as output |
| TokenMeter.Meter.CostMicroUsd | packages/ai/src/tokens.ts:63-67 | the sum of the entries' rounded costs |
| TokenMeter.Meter.DominantModel | packages/ai/src/tokens.ts:70-81 | the first entry that costs the most, nothing when blank |
| TokenMeter.OrderDoesNotMatter | packages/ai/src/tokens.ts:25-67 | the same reports in any order cost the same |
| TokenMeter.CostBounds | packages/ai/src/tokens.ts:62-67 | at least the exact price, less than one micro-dollar a model above it, never more than each report alone |
| TokenMeter.BareTotalCoversExactly | packages/ai/src/tokens.ts:33-38 | pricing a bare total as output covers every split of it if and only if output is no cheaper than input |
| TokenMeter.EmbeddingTotalsAreFree | packages/ai/src/pricing.ts:10-15 | for the embedding model it is cheaper, and bare totals cost nothing |
| ChatCharge.Stream.Consume | apps/api/src/chat/chat.service.ts:365-428 | however the iterator is driven, the ending call charges exactly once, for the text streamed before it, unless nothing was reported and the estimate throws or counts nothing |
| WebhookModel.Webhook.Handle | apps/api/src/billing/billing-webhook.service.ts:68-108 | status answered and state after one delivery; 200 exactly when the event is processed |
| WebhookModel.AcceptedExactly | apps/api/src/billing/billing-webhook.service.ts:167-220 | which events are applied, and with which values |
| WebhookModel.RetriedExactly | apps/api/src/billing/billing-webhook.service.ts:171-203 | link to the model: which events are left for redelivery instead of being rejected for good |
| WebhookModel.HandledIsTrace | apps/api/src/billing/billing-webhook.service.ts:138-256 | a delivery handled alone is a run of the interleaved steps |
| WebhookSafety.SubscriptionsUnshared | apps/api/src/billing/billing-webhook.service.ts:195-200 | a subscription is the row of at most one workspace |
| WebhookSafety.NeverOlder | apps/api/src/billing/billing-webhook.service.ts:238-241 | rows stay and their store time never decreases |
| WebhookSafety.EntitledRowStays | apps/api/src/billing/billing-webhook.service.ts:242-243 | while entitled, a row is changed only by events of its own subscription |
| WebhookSafety.Converges | apps/api/src/billing/billing-webhook.service.ts:68-256 | any order, repeats, crashes: once the newest event is processed the row is that event's, if those of the same stamp decide the same row |
| WebhookSafety.DeliveryProcesses | apps/api/src/billing/billing-webhook.service.ts:68-108 | on any run, among other deliveries in flight: one received for a valid event ends by processing it unless it crashes |
| WebhookSafety.OrderShowsExactly | apps/api/src/billing/billing-webhook.service.ts:236-248 | two valid events of a subscription in either order leave the same row if and only if their stamps differ, they decide the same row, or the row in place is newer |
| WebhookSafety.EqualStampsKeepTheLast | apps/api/src/billing/billing-webhook.service.ts:240-248 | with equal stamps, not older than the row in place, the row is whichever came last |
| WebhookLoss.CommitExactly | apps/api/src/billing/billing-webhook.service.ts:236-256 | in any interleaving a commit acknowledges the event unapplied exactly when the row in place is newer or of another entitled subscription |
| WebhookLoss.LostExactly | apps/api/src/billing/billing-webhook.service.ts:68-256 | a valid event delivered alone is acknowledged either way, and lost exactly then, whatever subscription the workspace has |
| WebhookLoss.ClosedForGood | apps/api/src/billing/billing-webhook.service.ts:79-90 | on any later run, redeliveries included, no attempt is made on it again |
| PriceTerms.Terms.Create | apps/api/src/catalog/vendor-price-terms.service.ts:22-88 | refused without a change, or the open term closed where its successor begins |
| PriceTerms.AlwaysChained | apps/api/src/catalog/vendor-price-terms.service.ts:31-87 | every key's terms are a gap-free chain with increasing starts, one open end and links in order |
| PriceTerms.AgreedPriceExactly | apps/api/src/catalog/vendor-history.service.ts:147-159 | a price applied exactly when one chain of the item had started, and is that of its latest term started |
| PriceOverlap.SupersedeExactly | apps/api/src/catalog/vendor-price-terms.service.ts:31-87 | a write with a lookup made earlier keeps the chains if and only if a lookup made now would find the same open term |
| PriceOverlap.OverlapExactly | apps/api/src/catalog/vendor-price-terms.service.ts:31-87 | however lookups and writes interleave, the terms end chained if and only if every write used an up-to-date lookup |
| PriceOverlap.AloneIsRecorded | apps/api/src/catalog/vendor-price-terms.service.ts:31-87 | a create that nothing overlaps is the one transaction of `PriceTerms.Terms.Create` |
| PriceOverlap.OverlappingCreates | apps/api/src/catalog/vendor-price-terms.service.ts:31-50 | two first terms of one item looked up together both end open, for good |
| AnswerCacheService.CacheService.GetVersion | apps/api/src/cache/cache.service.ts:26-45 | the version read, and the counter created when missing |
| AnswerCacheService.CacheService.BumpVersion | apps/api/src/cache/cache.service.ts:47-53 | a bump hides everything filed so far |
| AnswerCacheService.CacheService.GetExact | apps/api/src/cache/cache.service.ts:55-69 | a hit is the answer filed for the normalized question under the version of now, and there is none otherwise |
| AnswerCacheService.CacheService.SetExact | apps/api/src/cache/cache.service.ts:71-93 | files under the version read now and nothing else; the counter does not move |
| AnswerCacheService.CacheService.GetSemantic | apps/api/src/cache/cache.service.ts:95-133 | a hit is the nearest live row of the version if near enough, and there is none otherwise |
| AnswerCacheService.CacheService.SaveSemantic | apps/api/src/cache/cache.service.ts:135-164 | files under the given version and drops expired rows |
| AnswerCache.SemanticHitsAreFresh | apps/api/src/chat/chat.service.ts:130-226 | a semantic hit reflects every change whose bump was over when the version was read, under any interleaving |
| AnswerCache.CleanExactHitsAreFresh | apps/api/src/cache/cache.service.ts:55-93 | so does an exact hit on an answer no bumped change of which was missing when its version was read |
| AnswerCache.SameVersionFilesClean | apps/api/src/cache/cache.service.ts:71-93 | a fresh answer is filed so whenever the version read for filing is the one captured before it was generated |
| AnswerCache.UncleanIsServedStale | apps/api/src/cache/cache.service.ts:71-93 | otherwise the next request is served an answer without a bumped change |
| AnswerCache.BumpDuringGeneration | apps/api/src/cache/cache.service.ts:78-78 | a bump during generation leads there |
| ClientBucketExact.HextetsAreFilled | apps/api/src/common/client-bucket.ts:20-30 | the groups of every valid spelling, zone dropped and `::` filled |
| ClientBucketExact.BucketsExactly | apps/api/src/common/client-bucket.ts:10-30 | which pairs of IPv6 texts share a bucket, mapped spellings included |
| ClientBucketExact.SameBucketIffSameTop | apps/api/src/common/client-bucket.ts:12-30 | outside the mapped range: same bucket if and only if same top 64 bits |
| ClientBucketExact.MappedIsItsIPv4 | apps/api/src/common/client-bucket.ts:8-16 | a mapped spelling counts as its IPv4 address |
| ClientBucketExact.HexSpellingDiffers | apps/api/src/common/client-bucket.ts:10-16 | other spellings of the same address do not |
| CatalogMatch.EscapedMatchesSubstring | apps/api/src/catalog/catalog-match.service.ts:28-34 | for every term, the escaped pattern matches exactly the texts it occurs in |
| CatalogMatch.UnescapedOvermatches | apps/api/src/catalog/catalog-match.service.ts:28-31 | an unescaped `%` matches anything in its place |
| CatalogMatch.CandidatesExactly | apps/api/src/catalog/catalog-match.service.ts:323-366 | which items are candidates, and what the cap keeps |
| FaqCluster.SpliceSimilar | apps/api/src/insights/faq-cluster.service.ts:43-48 | splicing from the back keeps the dissimilar in order and collects the similar, last first |
| FaqCluster.Cluster | apps/api/src/insights/faq-cluster.service.ts:35-56 | the loop returns the groups of the seeds of at least the minimum size, in order |
| FaqCluster.GroupsPartition | apps/api/src/insights/faq-cluster.service.ts:35-56 | each ticket is in exactly the group of the earliest seed it is or is similar to |
| FaqCluster.ReturnedExactly | apps/api/src/insights/faq-cluster.service.ts:50-52 | exactly the groups of at least the minimum size are returned |
| KeysetPaging.PageShape | apps/api/src/events/events.service.ts:33-66 | a page is in order, within its limit, and every row it leaves lies past its cursor |
| KeysetPaging.WalkListsEachOnce | apps/api/src/knowledge-bases/knowledge-bases.service.ts:17-53 | any page sizes, ties, insertions and removals: each lasting row exactly once, in order |
| KeysetPaging.WalkEnds | apps/api/src/chat/chat.service.ts:262-309 | on a table left alone the walk reaches its end |
| ParseQueue.ParseService.QueueDoc | apps/api/src/procurement/procurement-parse.service.ts:69-115 | the row and the queue after queueing, accepted or not |
| ParseQueue.ParseService.ReconcileRows | apps/api/src/procurement/procurement-parse.service.ts:142-187 | the loop makes one specified visit to every row of the scan |
| ParseReconcile.CountReadsBack | apps/api/src/procurement/procurement-parse.service.ts:206-214 | the count read from a job id is the count written, if and only if it is a retry or the document id is not shaped like one |
| ParseReconcile.RequeuedAtMostTwice | apps/api/src/catalog/catalog-parse.service.ts:108-163 | at most two requeues on every run of visits to current rows, and the job id counts them |
| ParseReconcile.DueVisitFindsJob | apps/api/src/procurement/procurement-parse.service.ts:154-170 | link to the model: a live or unreadable job is left alone, a failed one fails the row |
| ParseReconcile.DueVisitFindsNone | apps/api/src/procurement/procurement-parse.service.ts:172-186 | a missing job raises the count by one; the third time the row fails |
| ParseReconcile.NoDuplicateJobs | apps/api/src/procurement/procurement-parse.service.ts:142-187 | while the queue answers and visits act on current rows, no document has two live jobs |
| ParseReconcile.DuplicatedExactly | apps/api/src/procurement/procurement-parse.service.ts:154-154 | when exactly an unanswered read gives a document a second live job |
| ParseLag.LateVisitExactly | apps/api/src/procurement/procurement-parse.service.ts:117-187 | when exactly a visit on a row read earlier gives a document a second live job; never when the row is one requeue behind |
| ParseLag.LateScanDuplicates | apps/api/src/procurement/procurement-parse.service.ts:117-187 | a reachable state and a row read two requeues before, whose visit does |
| ParseLag.ThreeAttemptsAtMost | apps/api/src/procurement/procurement-parse.service.ts:142-187 | with any late, overlapping or unanswered visits a row names one of three attempts, and no fourth is queued |

## Left out

- CompareModel: a success whose transaction commits while its acknowledgement is lost, so that the same run is then marked failed, is not a step.
- CompareModel: `compare` reads all its inputs in one step, although it makes several queries; a commit between two of them is not modelled.
- CompareModel: the queries and the `add` calls of one enqueue are one step; changes between two of them are not modelled.
- CompareModel: starting a document again whose write is still under way (a stalled parse) is not a step, so a document has one writer at a time.
- CompareModel: deleting documents, disabling the feature, strategy version bumps, an enqueue call that throws, and receipts moved to another order are not steps.
- CompareGrowth.WinsNeverOutnumberChanges: assumes a pair's automatic jobs do not overlap, which the queue gives only with one worker.
- YamlRoundTrip.RoundTrip: keys are ASCII identifiers or quoted texts; Python's `\w` accepts other letters. Block-text items and inline items that split as a key are not printed, since the parser misreads them (`YamlItems`).
- YamlSpans: spans of files whose lines hold carriage returns are those of the code, not of YAML 1.2.2; folding of `>` and the final newline of `|` are not modelled because the code has neither.
- ScriptResolver: the regular expressions that find paths and script names in a command are parameters.
- UsageViews: identifiers hold no colon and random key parts are new; both are conditions of the lemmas.
- BillingGate: the best-effort catch of reservations with enforcement off, and the calendar arithmetic of the trial's start; a trial is given by its window. Quotas over a trial whose end is moved are bounded window by window only (`TrialBounded`).
- Metering: the expiry of the Redis counter, forty days after its last increment, and a database error of the gate, which fails the call.
- TokenMeter: prices and token counts are rationals; floating-point rounding is not modelled. Case is folded for ASCII only here and everywhere.
- WebhookModel: the HMAC check is a boolean, a body's hash stands for the body, and JSON parsing yields the fields read; a workspace is not deleted meanwhile.
- PriceTerms: authentication, ids and audit columns; a term's id is its position.
- AnswerCache: entries only disappear by expiry or overwriting, so the model keeps them all; a question that differs is a miss; the client without SETNX and Redis errors are not steps.
- ClientBucket: the validity check is the grammar of the RFC's texts rather than the platform's regular expression; a zone may be any text.
- CatalogMatch: the vision comparison and the delete-then-insert of `search`; items are given in order of creation.
- FaqCluster: cosine similarity is an abstract relation; a ticket's id is its position.
- KeysetPaging: the base64 form of a cursor; the database's and the driver's milliseconds of one instant are taken to agree.
- ParseReconcile: visits act on the row as it is; what lagging and overlapping scans keep is in `ParseLag`.
- ParseReconcile: uploads queue a document once, which is what the callers do.
- Controllers, guards, web pages, OTP and auth limits, digests, evidence export, crawling and the comparison engine itself: wiring or one-branch claims.
