# Verified models of the evaluation and migration scripts

This project models the scripts of the repository that carry a protocol, a fold or an arithmetic rule, and proves
what they promise. Each Dafny file is one component.

| files | component |
|---|---|
| `Digests`, `Points`, `Collection`, `Scan`, `Matching`, `Apply`, `Backfill`, `Resume` | the BM25 v2 backfill: a resumable protocol between PostgreSQL (the authority) and a Qdrant collection with a completion receipt |
| `JsonPointer`, `Rfc` | the JSON pointer evaluator, against sections 3 and 4 of RFC 6901 |
| `Collect`, `Summary`, `Delegation`, `Lifecycle`, `Checking`, `Agreement`, `Acceptance`, `Witness` | the scenario runner's collection, summary and execution checks, and what they mean for the release judge, which shares no code with them |
| `Release`, `Manifest` | the two-judge release gate and its pinned manifest |
| `Scheduler`, `LeastSquares` | the load scheduler and the slope estimator of the resource profile |
| `Bm25`, `Ndcg`, `Tokenizers` | the lexical evaluation |
| `Percentile`, `Certification` | nearest-rank percentiles and the timing certification |
| `Approval` | the approve-and-resume loop against an arbitrary server |
| `Finance`, `Shipped` | the capped finance score, and the fixture of the repository |
| `Prelude`, `Sorting`, `Strings` | shared datatypes, the stable sort, code-point order, stripping and decimal printing |

`dafny verify dfyconfig.toml` checks everything.

## How the world is modelled

- The Qdrant client is the class `Stores.Collection`. Every call first lets other parties move (`Interleave`), then
  may raise, be killed, or take effect with or without an acknowledgement. A runtime writer puts the sentinel in the
  receipt in the same step in which it changes points. A vector batch that is interrupted may have taken effect for any
  first part. Scrolling shows any in-scope points and answers any next offset; a server with fixed paging is the special
  case `Collection.paging`, one that also fixes what it shows under each offset is `Collection.listing`.
- A ghost counter, `disturbances`, goes up with every writer step, every change of the profile, of the authority's rows
  or of its revision, and every call that raised, was cut off or was not acknowledged. What the backfill promises if it
  stands still is that a run succeeds (`Backfill.RunBackfill`, `Backfill.Favourable`). The server of the approval loop
  (`broken`) and the load scheduler (`troubles`) keep such a record too.
- The write pass is bounded by nothing but the life of its process, `Collection.lifetime`, which is any number of pages:
  the contract of `Applying.ApplyMissingPoints` covers every finite part of a pass. When a pass ends is proved separately
  (`Applying.PassEndsExact`).
- SHA-256 is a function parameter `sha`. Where a result needs it, it is assumed injective with neither newline nor NUL
  in its output (`Digests.IdealHash`, inhabited by `Digests.IdealHashExists`); a fixed output length together with
  injectivity on all strings would be contradictory and is not assumed.
- The interpreter's character table and its limit on the digits `int` converts are a parameter (`JsonPointer.Python`) of
  which only ASCII is fixed. Strict JSON parsing, the digests, case folding and the prompt built for the candidate are
  fields of `Delegation.Host`; the examples hold for every host whose digests are hexadecimal and whose folding leaves
  lower-case ASCII alone (`Host.Standard`).
- A scenario is validated if `load_scenarios` and `verify_plugin_definitions` accept it (`Delegation.Validated`), and a
  summary is admitted if `_verify_observations` lets it through (`Acceptance.Admitted`). Both come before any execution
  check, so what is claimed to fail is shown on validated scenarios and admitted summaries.
- The clock, the sampler, stream completion, interrupts, adapter turns and the gateway are nondeterministic choices.
- Arithmetic is exact: reals, or integers scaled to the last digit the code keeps. `ppr00_resource_profile.py` rounds
  slopes and deltas to six decimals, `assistant_ttft_benchmark.py` rounds percentiles and residuals to six decimals;
  the models are before rounding (slopes) or on whole microseconds (percentiles). Release scores have at most two
  decimals, so their rounding to two decimals changes nothing.
- `log2` and `ln` are parameters: a positive non-decreasing discount, and a function positive above 1.

## Where the code does less than it seems to promise

Each of these is proved, with the exact condition.

- Crash and resume reaches the store of an uninterrupted run exactly when every in-scope point is settled: a point whose
  marker is already complete but whose vector is missing keeps a `versions` list with repetitions or non-strings if the
  run stops between its vector and its marker (`Points.CrashResumeExact`, `Points.UnsettledPointExample`).
- The write pass has no duplicate detection, unlike the scan. It stops where the listing ends or an offset repeats at
  once. Over finitely many offsets with fixed paging that happens, within as many pages as there are offsets, exactly if
  the pass does not come back to an earlier offset first (`Applying.PassEndsExact`); two offsets that lead to each other
  keep it going for ever (`Applying.CyclingNeverEnds`). Advancing offsets are enough (`Applying.AdvancingPassEnds`) but
  not needed (`Applying.SteppingBackEnds`).
- A process killed after publication leaves the receipt: only exceptions are handled. A complete receipt left behind is
  always the manifest's own, and as long as no writer moves it is true (`Backfill.RunBackfill`, stage `Publishing`).
- The id digest separates lists of ids without newlines. An id with a newline is always part of some collision
  (`Digests.NewlineIdentifiersCollide`), and it collides on its own exactly if some newline stands between two ordered
  parts (`Digests.CollidesAloneExact`). The text digest needs ids without NUL only, and there it does need that
  (`Digests.SourceTextDigestInjective`, `Digests.NulIdentifiersCollide`). The unsigned integers and UUIDs that a Qdrant
  server takes as ids contain neither.
- The judge rejects some streams of validated scenarios that the runner admits and passes.
  `Acceptance.AcceptedStreamExact` gives the exact condition, in twelve parts, and `Witnesses.RefusedForOneReason` a
  stream for each part that meets all the others and is refused, whatever the host: the attempt id must be an identifier
  and the terminal envelope complete; children must be named by strings and by different agent ids, and plugin children
  must name their plugin; no text event may be too long; the delegation call must be announced once and before its
  results, all tool receipts must name the attempt, no result may succeed under a status the runner does not know or
  fail under one, and side-effect states must be spelled in lower case.
- The JSON pointer evaluator departs from sections 3 and 4 of RFC 6901. For the paths the loader accepts it does what the
  standard says on every document exactly if the escapes are proper and no token that is all digits to `isdigit` is
  anything but an index of the standard (`Rfc6901.AcceptedPathExact`); so it follows leading zeros
  (`Rfc6901.LeadingZeroAccepted`) and raises on digits that `int` refuses (`JsonPointer.RaisesExactly`,
  `JsonPointer.OddDigitRaises`). For pointers of any form, and per document, see `Rfc6901.FindsReferentsExact` and
  `Rfc6901.AgreementExact`.
- A timing run too exact for its 99th percentile to be positive does not certify (`Certification.CertificationExact`,
  `Certification.PerfectRunFails`).
- A single CJK character is not found inside a longer run by the bigram tokenizer (`Tokenizers.SingleCharacterExact`,
  `Tokenizers.SingleCharacterMissed`).
- The fixture check looks at sums of points only and not at hard caps. A fixture keeps all scores from falling below zero
  exactly if none of its points and none of its hard caps is negative (`Finance.NonNegativeExact`,
  `Finance.NegativeScoreExamples`).

## Model

| member | source | states |
|---|---|---|
| Digests.PointIdsDigestExact | scripts/backfill_bm25_v2.py:703-705 | for ids without newline, equal id digests mean the same ids with the same multiplicities, and only then |
| Digests.SourceTextDigestInjective | scripts/backfill_bm25_v2.py:708-713 | for ids without NUL, newlines or not, equal text digests mean the same id-text pairs with the same multiplicities |
| Digests.SourceTextDigestOrderFree | scripts/backfill_bm25_v2.py:708-713 | with distinct ids the text digest does not depend on the order of the entries |
| Digests.SourceTextDigestOrderMatters | scripts/backfill_bm25_v2.py:708-713 | with a repeated id it does: the sort looks at the id alone |
| Digests.NewlineIdentifiersCollide | scripts/backfill_bm25_v2.py:703-705 | every id with a newline is a member of one of two different lists with the same digest |
| Digests.CollidesAloneExact | scripts/backfill_bm25_v2.py:703-705 | the list of one id has the digest of another list exactly if a newline of the id stands between two parts in order |
| Digests.NulIdentifiersCollide | scripts/backfill_bm25_v2.py:708-713 | an id that spells out a line, NUL and newline included, has the text digest of two rows |
| Digests.IdealHashExists | scripts/backfill_bm25_v2.py:703-713 | the assumption made of the hash can be met |
| Points.PointStateExact | scripts/backfill_bm25_v2.py:650-700 | the client check accepts exactly the points of the server's scope with text, without conflict and with a version list that can be read as a set, and reports their text and completeness |
| Points.MarkedVersionsFixed | scripts/backfill_bm25_v2.py:1081-1099 | the rewritten version list is the old one exactly if that was strings only, without repetition, with both names |
| Points.MarkedVersionsNormalised | scripts/backfill_bm25_v2.py:1081-1099 | whatever was stored, the marker write leaves such a list |
| Points.ReachableKeepsSource | scripts/backfill_bm25_v2.py:1050-1122 | no write changes a point's scope or text, and complete points stay as they are |
| Points.FinalPointComplete | scripts/backfill_bm25_v2.py:1050-1122 | a finished point passes the completeness test, whatever it was before |
| Points.FinalPointKeeps | scripts/backfill_bm25_v2.py:1069-1113 | a finished point has a vector of its text, the old version names in their order with the two of the scheme, the old extra keys, and an otherwise untouched payload |
| Points.ResumePointExact | scripts/backfill_bm25_v2.py:650-700 | stopping anywhere and running again ends a point as one run would, exactly for settled points |
| Points.ResumePointUpToVersions | scripts/backfill_bm25_v2.py:650-700 | even otherwise the two ends differ at most in the version list |
| Points.UnsettledPointExample | scripts/backfill_bm25_v2.py:1050-1122 | a concrete point on which they do differ |
| Points.CrashResumeExact | scripts/backfill_bm25_v2.py:1289-1336 | every stopped run followed by a full one ends in the store of an uninterrupted run if and only if all in-scope points are settled |
| Points.FinalStoreReached | scripts/backfill_bm25_v2.py:1298-1303 | the uninterrupted end is a state of the run in which every in-scope point is complete |
| Points.CompleteNeverShrinks | scripts/backfill_bm25_v2.py:1019-1122 | in every state of a run the complete points of the start are unchanged |
| Points.StoppedRunsAreOne | scripts/backfill_bm25_v2.py:1289-1336 | any number of stopped runs leaves a store that one stopped run could have left |
| Points.RunKeepsHonest | scripts/backfill_bm25_v2.py:1069-1117 | if every complete point carries the vector of its present text at the start, so it does wherever a run stops |
| Stores.ValidateProfile | scripts/backfill_bm25_v2.py:537-604 | a profile is accepted exactly if the scope is named and owns the collection, the first version is active with shadow writes, sparse IDF and indexes are there, and the configuration is the manifest's |
| Stores.Collection.UpdateReceipt | scripts/backfill_bm25_v2.py:1157-1160 | an acknowledged update stores the receipt; after a writer's step no complete receipt is left but the one just stored |
| Stores.Collection.UpdateVectors | scripts/backfill_bm25_v2.py:1069-1080 | alone in the store, some first part of the batch takes effect, and an acknowledgement means all of it did |
| Stores.VectorUpdateAt | scripts/backfill_bm25_v2.py:1069-1080 | a batch sets the vector of each of its points to that point's text and touches no other |
| Stores.Authority.Snapshot | scripts/backfill_bm25_v2.py:239-256 | a snapshot is the count and digests of rows with distinct ids, and is refused only for a repeated one |
| Scans.CoverageByCounting | scripts/backfill_bm25_v2.py:801-922 | distinct true in-scope points in the exact number are all in-scope points, however the server paged |
| Scans.OwnershipByCounting | scripts/backfill_bm25_v2.py:869-922 | equal counts along the chain of filters mean that every point of the collection belongs to the tenant and dataset |
| Scans.DigestsPinScope | scripts/backfill_bm25_v2.py:751-766 | for ids without NUL, equal digests over a full enumeration make the scope exactly the authority's rows |
| Scans.ScanScope | scripts/backfill_bm25_v2.py:801-866 | the scan terminates against any paging, changes nothing, and on success reports exactly the distinct readable points it visited; undisturbed, over a listing of readable points, it succeeds and visits the whole scope |
| Scans.ScanPage | scripts/backfill_bm25_v2.py:834-857 | a page is taken in record by record, and refused only for an id seen before or a point the client check refuses |
| Scans.ChunkedListing | scripts/backfill_bm25_v2.py:816-861 | any enumeration of a scope, cut into pages of any size, is a listing over which scan and write pass succeed |
| Scans.ValidateExactScopeCounts | scripts/backfill_bm25_v2.py:869-922 | success means the scanned count is exact and every stored point is owned, and undisturbed the counts are refused for nothing else |
| Applying.MidPageIsRunState | scripts/backfill_bm25_v2.py:1068-1117 | inside a page, with any part of the vector batch written, the store is a state of the run, and at its end a page boundary |
| Applying.VectorsStartPage | scripts/backfill_bm25_v2.py:1069-1080 | the vector batch of a page touches exactly its pending points |
| Applying.MarkerStep | scripts/backfill_bm25_v2.py:1081-1117 | before and after each marker write the store is a state of the run, with one more point finished |
| Applying.WriteMarkers | scripts/backfill_bm25_v2.py:1081-1117 | wherever the marker loop stops, the store is a state of the run; when it completes exactly the pending points of the page are finished |
| Applying.ListPending | scripts/backfill_bm25_v2.py:1045-1067 | a page is refused exactly if it shows a point the client check refuses; otherwise its pending list is that of its incomplete points, in order |
| Applying.PagePassed | scripts/backfill_bm25_v2.py:1045-1118 | once its pending points are written, every point a page showed is finished and no other one changed |
| Applying.PageCounts | scripts/backfill_bm25_v2.py:1118 | the pending points of a page are the incomplete ones not shown before, counted once each if no id is shown twice |
| Applying.ApplyMissingPoints | scripts/backfill_bm25_v2.py:1019-1122 | against any paging, wherever the write pass stops the store is a state of the run; when it completes every point it was shown is finished, every other one untouched, the result counts the incomplete points it was shown, and under fixed paging the listing had ended; undisturbed, over a listing of readable points, it completes and is shown the whole scope |
| Applying.PassEndsExact | scripts/backfill_bm25_v2.py:1026-1122 | over finitely many offsets under fixed paging the pass ends exactly if it never comes back to an offset, and then within as many pages as there are offsets |
| Applying.CyclingNeverEnds | scripts/backfill_bm25_v2.py:1026-1122 | a server whose two offsets lead to each other keeps the pass going for ever |
| Applying.AdvancingPassEnds | scripts/backfill_bm25_v2.py:1026-1122 | offsets that advance below a bound end the pass within that bound |
| Applying.SteppingBackEnds | scripts/backfill_bm25_v2.py:1026-1122 | a server that steps back once and then stops does end it |
| Backfill.VerifyScope | scripts/backfill_bm25_v2.py:1250-1273 | a verification nobody disturbed establishes full enumeration, the manifest's counts and digests, and the authority's; it succeeds where store, authority and manifest correspond |
| Backfill.VerifiedCovers | scripts/backfill_bm25_v2.py:1308-1336 | for ids without NUL, a verification with full completion makes the collection exactly the authority's rows, all complete |
| Backfill.VerifiedAllComplete | scripts/backfill_bm25_v2.py:1332-1336 | the completion count alone, without any assumption on the hash, means every in-scope point is complete |
| Backfill.VerifiedCorresponds | scripts/backfill_bm25_v2.py:1250-1287 | for ids without NUL, what a verification found is that store, authority and manifest correspond, so an undisturbed run after an undisturbed dry run succeeds |
| Matching.ScanCorresponds | scripts/backfill_bm25_v2.py:751-798 | where store, authority and manifest correspond, every full scan reports the manifest's count and digests, however its pages fell and whatever the hash |
| Matching.RunCorresponds | scripts/backfill_bm25_v2.py:1289-1336 | wherever a run stops, store, authority and manifest still correspond |
| Backfill.ClearCompletionReceipt | scripts/backfill_bm25_v2.py:1176-1208 | when it returns normally no complete receipt is left, otherwise at most the one that was there; points are untouched |
| Backfill.PublishCompletionReceipt | scripts/backfill_bm25_v2.py:1144-1173 | success means the manifest's receipt is stored and no writer moved since; a failure leaves at most that receipt or the old one |
| Backfill.PublishAndVerify | scripts/backfill_bm25_v2.py:1340-1372 | success of the guarded block means no writer moved from publication to the final read, and the store is verified and complete at that read |
| Backfill.WriteAndVerify | scripts/backfill_bm25_v2.py:1298-1336 | alone in the store, a write pass whose verification finds every point complete has left the final store and written at least every incomplete point; undisturbed it succeeds and counts exactly those |
| Backfill.PublishOrClear | scripts/backfill_bm25_v2.py:1340-1388 | either the receipt stands verified, or it is cleared again, or the process was killed and at most the manifest's own receipt is left; undisturbed on a finished store it stands |
| Backfill.RunBackfill | scripts/backfill_bm25_v2.py:1211-1388 | the whole protocol for every interleaving, fault, kill and paging: no write without approval, a dry run reports what a verification found, success means a true receipt, no complete receipt between clearing and publishing nor after a handled failure, at most the manifest's own after a kill, every stop leaves a state of the run, and undisturbed honest points end with the vectors of their texts; with nothing to object to and nothing disturbing it a run is published, in the final store, and reports as many written points as were incomplete at the start |
| Backfill.CompleteBoundaryIsFinal | scripts/backfill_bm25_v2.py:1298-1336 | a page boundary with everything complete is the uninterrupted end |
| Backfill.HonestAtEnd | scripts/backfill_bm25_v2.py:1298-1336 | with everything complete, honest vectors at the start mean that every in-scope point carries the vector of its present text |
| Matching.EnumerationsAgree | scripts/backfill_bm25_v2.py:801-866 | two full scans of one store read the same rows, in some order |
| Resuming.RerunPassesChecks | scripts/backfill_bm25_v2.py:1250-1273 | from any state of a run every check of the same manifest passes again, whatever the rerun's paging, for ids without NUL |
| Resuming.FinishedRunCounts | scripts/backfill_bm25_v2.py:1332-1336 | at the uninterrupted end the completion count is the manifest's point count |
| Resuming.ResumedEndsSame | scripts/backfill_bm25_v2.py:1289-1336 | stopped any number of times, the last rerun of a settled store ends in the store the first run would have reached |
| JsonPointer.ResolvePointer | scripts/real_agent_scenario_runner.py:1195-1207 | the loop over the parts computes the evaluation of the pointer |
| JsonPointer.PointerRoundTrip | scripts/real_agent_scenario_runner.py:1195-1207 | escaping and joining a path present in a document and evaluating it gives the value at that path, unless an index is too long for `int` |
| JsonPointer.UnescapeInvertsEscape | scripts/real_agent_scenario_runner.py:1200 | the two ordered replacements undo the two escapes, for every key |
| JsonPointer.SwappedReplacementsFail | scripts/real_agent_scenario_runner.py:1200 | in the other order they do not |
| JsonPointer.FoundIsOnPath | scripts/real_agent_scenario_runner.py:1201-1207 | whatever is found lies on a path of keys and in-range indexes of the document |
| Rfc6901.LeadingZeroAccepted | scripts/real_agent_scenario_runner.py:1203 | an array element is found under its index with a zero in front, which the standard calls malformed |
| JsonPointer.RaisesExactly | scripts/real_agent_scenario_runner.py:1203 | whatever the character table, the evaluator raises exactly when an array is reached with a part that is all digits to `isdigit` and refused by `int` |
| JsonPointer.OddDigitRaises | scripts/real_agent_scenario_runner.py:1203 | a single digit that is not decimal, like a circled or raised one, raises on every array |
| Rfc6901.AgreementExact | scripts/real_agent_scenario_runner.py:1195-1207 | on a given document the evaluator and the reference of RFC 6901 agree exactly if the pointer is well formed and every token that reaches an array is a proper index that `int` converts |
| Rfc6901.FindsReferentsExact | scripts/real_agent_scenario_runner.py:1195-1207 | over all documents the evaluator finds just what the standard refers to, and never raises, exactly if the pointer is well formed and no token is all digits without being a proper index short enough |
| Rfc6901.AcceptedPathExact | scripts/real_agent_scenario_runner.py:226-228 | for the paths the loader accepts, the evaluator finds just what the standard refers to on all documents exactly if the escapes are proper and every token of digits is an index of the standard |
| Rfc6901.ReferentFound | scripts/real_agent_scenario_runner.py:1195-1207 | what the standard refers to is found, or the evaluator raises, and that only if there is a digit limit |
| Rfc6901.FirstCharacterUnseen | scripts/real_agent_scenario_runner.py:1199 | any first character gives the answer of a slash, so the rule on the first character rests on the loader alone |
| Rfc6901.UnescapeIsDecode | scripts/real_agent_scenario_runner.py:1200 | on properly escaped tokens the two ordered replacements are the standard's decoding |
| Rfc6901.ReferentRoundTrip | scripts/real_agent_scenario_runner.py:1195-1207 | the reference itself refers every printed path of a document to the value there |
| Collecting.CollectTrial | scripts/real_agent_scenario_runner.py:1027-1044 | the loop with its early break keeps the readable events up to the first terminal one |
| Collecting.CollectedTerminalIsLast | scripts/real_agent_scenario_runner.py:1027-1045 | a collected trial has one terminal receipt if its stream had a terminal event, none otherwise, and all text comes before it |
| Summaries.SummarizeSseEvents | scripts/real_agent_scenario_runner.py:698-870 | the single pass yields, for every event list, the whitelisted receipts of each kind in order, inherited identities, pairwise overlaps, attempts and counts |
| Summaries.InheritFields | scripts/real_agent_scenario_runner.py:829-836 | each finish takes missing identity fields from the last start of its agent |
| Summaries.ParallelOverlaps | scripts/real_agent_scenario_runner.py:837-869 | one entry for each pair of dispatch indexes, later receipts replacing earlier ones |
| Summaries.CategoriesPartition | scripts/real_agent_scenario_runner.py:713-827 | the six receipt lists together hold each recorded event exactly once |
| Summaries.ReconstructionAccepts | scripts/judge_real_agent_receipts.py:851-872 | the judge's reconstruction, the categories put together and sorted by ordinal, is the recorded sequence of every summary |
| Agreement.IndexesPermute | scripts/real_agent_scenario_runner.py:1332-1356 | n unrepeated dispatch indexes below n are each of 0..n-1 once |
| Agreement.ChildrenRanAtOnce | scripts/real_agent_scenario_runner.py:1417-1449 | for every scenario the loader accepts, pairwise overlap of at least 25 ms gives one window of 25 ms in which all required children ran |
| Agreement.SingleChildIsNotChecked | scripts/real_agent_scenario_runner.py:487-488 | the loader's rule of two agents carries that guarantee: on the scenarios it refuses, a single parallel child of one millisecond would pass the overlap check |
| Agreement.RunnerImpliesJudge | scripts/judge_real_agent_receipts.py:733-797 | the runner's order check implies the judge's terminal and text obligations |
| Agreement.IdentityObligationExact | scripts/judge_real_agent_receipts.py:787-797 | where profile ids are strings, the judge's identity obligation holds exactly if all required ids are qualified and no child is named by a type that is no string |
| Agreement.ValidatedObligations | scripts/judge_real_agent_receipts.py:787-824 | for a validated scenario the judge's overlap obligation follows, and its identity obligation holds exactly if children named by type are named by strings |
| Agreement.OverlapObligationExact | scripts/judge_real_agent_receipts.py:820-824 | the judge's overlap obligation follows for two or more required children, and for no fewer |
| Agreement.PairingExact | scripts/judge_real_agent_receipts.py:767-774 | starts and finishes pair up for the judge exactly if no agent id repeats |
| Agreement.DelegationOrderExact | scripts/judge_real_agent_receipts.py:1001-1019 | the judge's delegation order follows exactly if no spawn result succeeded under an unrecognised status |
| Agreement.AcceptedRunOrder | scripts/real_agent_scenario_runner.py:1655-1677 | each child starts before it finishes, all finishes precede the one completion, that the last text, that the terminal event |
| Checking.IndexReceipts | scripts/real_agent_scenario_runner.py:1332-1346 | the dictionary and its flag are valid with keys 0..n-1 exactly if the receipts carry each index once |
| Checking.CheckProfiles | scripts/real_agent_scenario_runner.py:1347-1407 | the loop decides that every required profile has its matching start and finish |
| Checking.CheckOverlaps | scripts/real_agent_scenario_runner.py:1417-1449 | the loop decides that exactly the expected pairs are listed, each overlapping long enough |
| Checking.NormalizeStarts | scripts/real_agent_scenario_runner.py:1462-1501 | the start receipts merge by call id, with their least ordinal and its event type, and with the flag set by every malformed or conflicting one |
| Checking.MarksAreLeast | scripts/real_agent_scenario_runner.py:1462-1501 | the merged ordinal of a call is the least its start receipts carry, with that receipt's event type |
| Checking.GroupResults | scripts/real_agent_scenario_runner.py:1502-1515 | results are grouped by call in order, and the flag says whether each names a started call and its tool |
| Checking.CheckTools | scripts/real_agent_scenario_runner.py:1517-1653 | the tool checks decide pairing, the delegation call, its aggregate result and the absence of other calls, for any test on the arguments |
| Checking.ExecutionChecks | scripts/real_agent_scenario_runner.py:1296-1694 | for every scenario and observation each of the eleven checks has the value of its condition |
| Checking.CanonicalDecides | scripts/real_agent_scenario_runner.py:1539-1620 | for a prescribed object that passed the loader, written without surrounding white space, the canonical object alone decides the call and the task prompts once receipts are sound and there is one call |
| Delegation.CheckPrompts | scripts/real_agent_scenario_runner.py:1580-1609 | the loop with its early breaks decides whether every child's prompt meets the last requirement for it |
| Delegation.CanonicalIsEnough | scripts/real_agent_scenario_runner.py:391-480 | arguments equal to a prescribed object that passed the loader have the right tasks in the right order, and prompts that meet their requirements, if ids and names are written without surrounding white space |
| Acceptance.CountsFollow | scripts/judge_real_agent_receipts.py:722-731 | a valid single terminal receipt makes the separately kept event counts what the judge demands |
| Acceptance.ChildStates | scripts/judge_real_agent_receipts.py:775-786 | every child receipt the runner accepts is of the current attempt and a clean completion |
| Acceptance.ZipOrder | scripts/judge_real_agent_receipts.py:978-986 | the judge's positional zip never finds a finish before its start if agent ids are unrepeated |
| Acceptance.DelegationStartExact | scripts/judge_real_agent_receipts.py:887-897 | the judge takes the calls of an accepted delegating run as paired, and as the one delegation call, exactly if it was announced once |
| Acceptance.ToolObligationsExact | scripts/judge_real_agent_receipts.py:887-1019 | the judge's obligations on tool receipts and delegation order hold for an accepted run exactly if the call was announced once and before its results, all receipts name the attempt, and no result succeeds or fails under a status the runner does not know or spells its state in another case |
| Acceptance.DefinitionsExact | scripts/judge_real_agent_receipts.py:798-818 | the definition and plugin obligations hold for starts and finishes exactly if every plugin child's start carries the local definition and its plugin |
| Acceptance.ChildObligationsExact | scripts/judge_real_agent_receipts.py:755-824 | the judge's obligations on the children of an accepted run, reduced to what the runner does not check |
| Acceptance.ChildrenSuitExactly | scripts/real_agent_scenario_runner.py:1874-1889 | for a validated scenario and an admitted summary the judge's child obligations come down to types that are strings, unrepeated agent ids and the plugin's name: definitions, qualification and overlap follow |
| Acceptance.AcceptedStreamExact | scripts/judge_real_agent_receipts.py:703-1019 | a stream of a validated scenario that the runner admits and passes is accepted by the whole lifecycle validation if and only if twelve stated conditions hold |
| Witnesses.VariantExact | scripts/judge_real_agent_receipts.py:703-1019 | each of a family of streams belongs to a validated scenario, is admitted and passes all runner checks, for every host; the judge takes it exactly if it meets the twelve conditions |
| Witnesses.AcceptedByBoth | scripts/judge_real_agent_receipts.py:703-1019 | there is a stream of a validated scenario with two parallel children that runner and judge both accept |
| Witnesses.RefusedForOneReason | scripts/judge_real_agent_receipts.py:703-1019 | for each of the twelve conditions there is a stream of a validated scenario that the runner admits and passes, that meets the other eleven, and is refused |
| Witnesses.ScenarioValidated | scripts/real_agent_scenario_runner.py:269-491 | the scenario of these streams satisfies every rule of the loader and of the definition check, for every host |
| Release.ScoreMonotone | scripts/judge_real_agent_receipts.py:2298-2302 | the weighted score never falls when a grade rises |
| Release.ScoreIsAverage | scripts/judge_real_agent_receipts.py:74-81 | the score lies between the worst and the best grade: the weights add up to one |
| Release.ConservativeBelowLanes | scripts/judge_real_agent_receipts.py:2372-2376 | the score of the dimension-wise minimum is at most either judge's own |
| Release.PassNeedsEachLane | scripts/judge_real_agent_receipts.py:2371-2395 | in a passing trial each judge alone gives at least 92, clears every floor and reports nothing |
| Release.EachLaneIsNotEnough | scripts/judge_real_agent_receipts.py:2372-2379 | two judges who would each pass a trial can fail it together |
| Release.FloorsAndThresholdIndependent | scripts/judge_real_agent_receipts.py:2378-2384 | neither the threshold nor the floors imply the other |
| Release.JudgeTrial | scripts/judge_real_agent_receipts.py:2343-2412 | a trial passes exactly if both judges answer cleanly and differently and their worse grades clear threshold and floors; a failing judge scores zero |
| Release.MinimumOfMinima | scripts/judge_real_agent_receipts.py:2417-2441 | the least of the domain scores is the least of all trial scores |
| Release.DomainsPassWithTrials | scripts/judge_real_agent_receipts.py:2417-2445 | all domains pass exactly if all trials do |
| Release.Aggregate | scripts/judge_real_agent_receipts.py:2341-2452 | the report passes exactly if there are trials and every one passes, and its score is the minimum over all trials |
| Manifests.ValidateSuite | scripts/judge_real_agent_receipts.py:1184-1237 | an input is accepted exactly if it has the pinned contract, exactly the expected trials, each once and in its domain, and host-test evidence that meets the policy where there is one and none otherwise |
| Manifests.ValidateInputs | scripts/judge_real_agent_receipts.py:1160-1246 | inputs are accepted exactly if suites, contracts, trials, domains and host-test evidence are the manifest's, and there are then twelve trials |
| Manifests.MatchedTrialsDistinct | scripts/judge_real_agent_receipts.py:2336-2339 | after validation no trial identity repeats across inputs, so the later duplicate test never fires |
| Manifests.EvaluateRelease | scripts/judge_real_agent_receipts.py:2327-2470 | a report is made exactly for non-empty inputs that match the manifest, and it is the report of all their trials |
| Manifests.PassCoversManifest | scripts/judge_real_agent_receipts.py:1160-1246 | a passing report covers every pinned suite, scenario and trial number with a trial each judge alone put at 92 or more, above all floors, without defects |
| Scheduler.RunState.CanIssue | scripts/ppr00_resource_profile.py:638-651 | a refusal always leaves the stop flag set with its cause on record, a grant leaves room under the call cap, and the cap is blamed only when its last call is used up |
| Scheduler.Spawn | scripts/ppr00_resource_profile.py:752-760 | one more stream and one more counted call exactly if the target is not reached and nothing stopped |
| Scheduler.Ramp | scripts/ppr00_resource_profile.py:762-766 | the ramp fills the pool unless the run stopped |
| Scheduler.AllReturned | scripts/ppr00_resource_profile.py:768-790 | with nothing outstanding, each issued ordinal was returned exactly once |
| Scheduler.RunLevel | scripts/ppr00_resource_profile.py:713-790 | a level terminates with at most K outstanding at any time, at most the target issued and each issued stream returned once; unless the run stopped it fills its pool of K and issues its target; if it blames the cap, streams were left to issue |
| Scheduler.Staircase | scripts/ppr00_resource_profile.py:1157-1217 | completion means every level reached its target; otherwise a cause is on record; task ids never run out |
| Scheduler.RunProfile | scripts/ppr00_resource_profile.py:881-1217 | the call cap holds over warm-up and all levels, every call is accounted for, a failed login records a stream without a call, exit code 0 means all warm-up and level streams ran and came back within the cap; the cap is blamed only if it is used up and less than warm-up and levels need, and a run exits with 0 exactly if nothing befell it and its cap covers them |
| LeastSquares.NoSlopeExactly | scripts/ppr00_resource_profile.py:240-247 | there is no slope exactly if all x are equal |
| LeastSquares.NormalEquations | scripts/ppr00_resource_profile.py:243-249 | the residuals of the estimate add up to zero and are orthogonal to x |
| LeastSquares.SlopeIsBest | scripts/ppr00_resource_profile.py:240-249 | with the intercept through the means it errs least of all lines, and every other line errs more |
| LeastSquares.CollinearSlope | scripts/ppr00_resource_profile.py:240-249 | on points of a line the estimate is its slope |
| LeastSquares.BaselineDropsOut | scripts/ppr00_resource_profile.py:252-283 | subtracting a common baseline leaves the slope unchanged |
| LeastSquares.DeriveService | scripts/ppr00_resource_profile.py:264-283 | deltas add back to the means, per-stream figures times levels are the deltas, and the slope over the deltas is the slope over the means |
| Bm25.ScoreSign | scripts/chinese_lexical_shadow_eval.py:145-157 | scores are never negative, and positive exactly if query and document share a token |
| Bm25.QueryIsABag | scripts/chinese_lexical_shadow_eval.py:147 | the score depends on the set of query tokens only |
| Bm25.RarerWeighsMore | scripts/chinese_lexical_shadow_eval.py:143 | of two tokens the rarer has the larger idf |
| Bm25.IdfClosedForm | scripts/chinese_lexical_shadow_eval.py:143 | the idf is the logarithm of (n + 1) / (d + 0.5) |
| Bm25.ShorterGainsMore | scripts/chinese_lexical_shadow_eval.py:155-156 | of two documents with a token as often, the shorter one gains more from it |
| Bm25.OftenerGainsMore | scripts/chinese_lexical_shadow_eval.py:155-156 | more occurrences gain more, but less than 2.2 times the idf, and one in a document of average length gains the idf |
| Bm25.CountTokens | scripts/chinese_lexical_shadow_eval.py:136-139 | the counts of a document are the occurrences of each token |
| Bm25.AddDocument | scripts/chinese_lexical_shadow_eval.py:141-142 | each distinct token of the document counts once more |
| Bm25.Index.constructor | scripts/chinese_lexical_shadow_eval.py:128-143 | the stored tables are the occurrence counts, document frequencies, lengths and idf of the documents |
| Bm25.Index.Scores | scripts/chinese_lexical_shadow_eval.py:145-157 | the accumulated scores are, for every document, the formula recomputed from the raw token lists |
| Ndcg.LargestGainMost | scripts/chinese_lexical_shadow_eval.py:160-168 | no selection of n grades from the ideal ones gains more than the n largest |
| Ndcg.NoRankingBeatsIdeal | scripts/chinese_lexical_shadow_eval.py:160-168 | for every positive non-decreasing discount and every cut, no ranking beats the descending order of the ideal grades |
| Ndcg.NdcgInUnitInterval | scripts/chinese_lexical_shadow_eval.py:164-168 | nDCG lies in [0, 1] and is 0 exactly if nothing relevant made the cut |
| Ndcg.RankingCanonical | scripts/chinese_lexical_shadow_eval.py:187-188 | the ranking holds each id once, no score below a later one and equal scores in order of id, and depends only on which score goes with which id |
| Ndcg.BestFirst | scripts/chinese_lexical_shadow_eval.py:187-188 | of two corpus ids the one with the larger score is ranked first, and of equals the smaller id |
| Strings.LeqByFirstDifference | scripts/chinese_lexical_shadow_eval.py:187 | the order of ids is by the first character in which they differ, a beginning first |
| Ndcg.GradesDrawn | scripts/chinese_lexical_shadow_eval.py:189 | a ranking of distinct ids uses each judgement at most once |
| Ndcg.LegNdcgBounded | scripts/chinese_lexical_shadow_eval.py:184-202 | the nDCG reported for a leg lies in [0, 1] for every query, corpus and tie-break |
| Tokenizers.SplitRuns | scripts/chinese_lexical_shadow_eval.py:50-62 | dropping the empty parts of the split leaves the maximal runs |
| Tokenizers.RunsPartition | scripts/chinese_lexical_shadow_eval.py:50-62 | the runs join to the text, are non-empty and pure, and alternate in class |
| Tokenizers.PartitionUnique | scripts/chinese_lexical_shadow_eval.py:50-62 | no other segmentation does |
| Tokenizers.TokenizePgSimple | scripts/chinese_lexical_shadow_eval.py:65-75 | the loop yields one token per CJK run and the words of the other runs, in order |
| Tokenizers.TokenizeBigram | scripts/chinese_lexical_shadow_eval.py:78-92 | the loop yields the bigrams, or the single character, of each CJK run and the words of the others, in order |
| Tokenizers.OccursInsideRun | scripts/chinese_lexical_shadow_eval.py:50-62 | a CJK string that occurs in a text occurs inside one of its CJK runs |
| Tokenizers.SubstringTokensFound | scripts/chinese_lexical_shadow_eval.py:78-92 | every token of a CJK query of two or more characters that occurs in a text is a token of the text |
| Tokenizers.PgMatchExact | scripts/chinese_lexical_shadow_eval.py:65-75 | a CJK query matches exactly the texts that have it as a whole run |
| Tokenizers.SingleCharacterExact | scripts/chinese_lexical_shadow_eval.py:87-89 | a single CJK character matches, under bigrams too, exactly where it is a whole run |
| Tokenizers.SingleCharacterMissed | scripts/chinese_lexical_shadow_eval.py:87-89 | no character of a CJK text of two or more characters is found in it |
| Tokenizers.LegsCompared | scripts/chinese_lexical_shadow_eval.py:65-92 | a CJK phrase occurring in a document always scores under bigrams, and under full-text emulation exactly if it is a whole run |
| Percentiles.PercentileCounts | scripts/assistant_ttft_benchmark.py:244-250 | the percentile is a value with at least the rank's number of values at or below it and fewer strictly below |
| Percentiles.PercentileFraction | scripts/assistant_ttft_benchmark.py:244-250 | at least the fraction p of the values are at or below the p-percentile, and less than that strictly below it, unless it is the least value |
| Percentiles.PercentileBound | scripts/assistant_ttft_benchmark.py:244-250 | a bound holds for the percentile exactly if it holds for the rank's number of values |
| Percentiles.PercentileMonotone | scripts/assistant_ttft_benchmark.py:244-250 | a higher percentile is never lower |
| Percentiles.PercentilePermutes | scripts/assistant_ttft_benchmark.py:248 | the percentile depends only on the multiset of values |
| Percentiles.IqrNonNegative | scripts/assistant_ttft_benchmark.py:253-258 | the interquartile range is never negative |
| Certification.ReconcileTrial | scripts/assistant_ttft_benchmark.py:157-241 | the verdict of a trial is a miss without a line in the first two reads, an exclusion if the lines of the reads used are of more than one call, and otherwise the judgement on the last line |
| Certification.VerdictMeans | scripts/assistant_ttft_benchmark.py:202-241 | a verdict has a residual exactly if a single call's last line has all its times and adds up within 5 ms, and is fine exactly if the client is at most 10 ms before the server and at most 200 ms or a twentieth of its own time after it |
| Certification.RunTrials | scripts/assistant_ttft_benchmark.py:405-468 | trials are numbered in order; one succeeds exactly if its turn finished, succeeded and ran the requested model, and exactly the successful turns are reconciled |
| Certification.CertificationExact | scripts/assistant_ttft_benchmark.py:543-566 | a run is reconciled exactly if every trial is within the lower bound and the ceiling, 99 in 100 within a quarter second, and fewer than 99 in 100 have no residual at all |
| Certification.PerfectRunFails | scripts/assistant_ttft_benchmark.py:562-564 | a run whose residuals are all zero is refused |
| Certification.RecordableExact | scripts/assistant_ttft_benchmark.py:469-571 | a run is recordable exactly if no trial failed, all are reconciled within the bounds, the residual counts hold, at least the minimum ran after the warm-up, and both ceilings are met by half and by 95 in 100 of those |
| Certification.RecordableTurns | scripts/assistant_ttft_benchmark.py:405-571 | every turn of a recordable run finished well, on the requested model, with a residual |
| Approval.FoldEvents | scripts/native_agent_parity_benchmark.py:1030-1140 | the event loop keeps types, chunks, payloads by type, and the last status and runtime, in order |
| Approval.Boundary | scripts/native_agent_parity_benchmark.py:1208-1237 | the boundary check accepts exactly a stream that pauses once, unfinished, for the one allowed tool in the run it started |
| Approval.ApproveAndResume | scripts/native_agent_parity_benchmark.py:860-925 | a round posts at most one approval, for the pause at hand in the active run, and succeeds only on a receipt that grants it and a stream that resumes it; it fails only for a broken request, a stream that is no such pause, a receipt that does not grant it, or a stream that does not resume it |
| Approval.RunTurn | scripts/native_agent_parity_benchmark.py:844-971 | for every server: termination, at most the allowed approvals, all for the one tool in one run; on success one more stream than approvals, each but the last pausing once, each approval granted by a receipt for it, its run and the tool, the last stream finishing once, and the stripped text of all chunks in order; without a broken request a turn is refused only if what the server answered is not that of a good turn, and for its receipt only if the last receipt does not grant the last approval |
| Approval.ConcatInOrder | scripts/native_agent_parity_benchmark.py:932-971 | the text keeps the chunks in order |
| Strings.StripExact | scripts/native_agent_parity_benchmark.py:971 | stripping takes white space from both ends and nothing else |
| Finance.DelegationScore | scripts/validate_real_finance_eval.py:185-242 | full marks exactly for three sound children with one moment at which all were running |
| Finance.SetsSoundExact | scripts/validate_real_finance_eval.py:185-208 | the set tests on the children mean the required roles, one named batch, dispatch indexes 0, 1 and 2 in some order, and three different named terminal receipts |
| Finance.EvaluateRun | scripts/validate_real_finance_eval.py:245-330 | score, cap and raw score are those of the run, and there is no failure exactly if nothing is wrong |
| Finance.FlawlessExact | scripts/validate_real_finance_eval.py:163-300 | a run has no failure exactly if each metric has an entry within tolerance whose evidence is all approved and some of it asked for, each conclusion is as expected, three sound children ran, the status is completed and the answer hash is there |
| Finance.CitationRange | scripts/validate_real_finance_eval.py:273-274 | the citation score stays within 0 and 10, so its clamp is idle |
| Finance.RawRange | scripts/validate_real_finance_eval.py:312-314 | for positive points the uncapped score lies within 0 and 100 and is 100 exactly if no point was lost |
| Finance.FullScoreExact | scripts/validate_real_finance_eval.py:245-330 | for positive points a score is at most 100, and 100 exactly for a run without failures |
| Finance.NonNegativeExact | scripts/validate_real_finance_eval.py:120-139 | no run scores below zero exactly if no hard cap and no point value of the fixture is negative |
| Finance.NegativeScoreExamples | scripts/validate_real_finance_eval.py:120-139 | two fixtures that the fixture check accepts, formulas included, with a run below zero on each: one has a negative hard cap, the other a metric of negative points |
| Shipped.FixtureSound | src/services/eval/fixtures/real_finance_salesforce_fy26_q1/golden.v1.json:1-87 | the fixture of the repository passes its own check, all twenty-five formulas included, and on it every score lies between 0 and 100 and is 100 exactly for a run without failures |
| Finance.HardLimits | scripts/validate_real_finance_eval.py:245-330 | 75 for a wrong critical metric, 70 for unapproved evidence, 85 for a delegation failure, 90 without an answer hash, nothing above 0 if not completed, whatever the fixture and whatever else the run contains |
| Finance.EvaluateReceipt | scripts/validate_real_finance_eval.py:333-360 | a report is made exactly for three runs of different ids, scores the worst, and passes if all do |
| Finance.ParallelChildrenAreConcurrent | scripts/validate_real_finance_eval.py:237-241 | three children the runner accepted as parallel pass the finance gate's interval test |

## Left out

- Backfill.RunBackfill: the manifest's own seal, its canonical JSON hash, is not modelled.
- Scans.ScanScope: a record without an identifier is not representable; points always have one.
- Summaries.ParallelOverlaps: times are exact reals, so rounding of the overlap in floating point is not modelled.
- Checking.ExecutionChecks: Python's equality of 1, 1.0 and true is not modelled, nor is the printed form of containers and fractions as identifiers; the answer assertions, which do not look at the event stream, are left out.
- Acceptance.AcceptedStreamExact: the receipts of a known write are not modelled, since no summary carries them; the attestation of the trial, its hashes and its source artifacts are checked by other functions of the judge, and so are the attestation, nonce and digest tests of the runner.
- Witnesses.ScenarioValidated: the rules of the loader on domains, repetitions, assertions, hints and artifacts concern fields that no execution check reads and are not modelled.
- Finance.NonNegativeExact: metric ids and conclusion ids are taken to be unrepeated, and tolerances not negative: on a negative one `math.isclose` raises instead of scoring.
- Scheduler.RunLevel: an interrupt that arrives outside a wait or a sleep is not modelled; the number of empty waits is finite because every stream ends by its own timeout. The in-flight counter inside the workers is bounded by the outstanding streams that are modelled.
- Manifests.EvaluateRelease: the manifest file is given; the validator policy of the host-test evidence is one value, and the verification of the evidence itself and the judge's own response validation are not modelled.
- Certification.RunTrials: whether the timing receipt names another model than the one asked for is one truth value of a turn.
- Certification.CertificationExact: the percentile fraction is exact, where the code multiplies in floating point; bootstrap intervals are not modelled.
- LeastSquares.SlopeIsBest: the estimate is before rounding to six decimals.
- Approval.RunTurn: timing, usage and report receipts are not modelled; an absent field and one of the wrong type are the same.
- Finance.EvaluateRun: a run that is not an object, and metric points that are not whole numbers, are not modelled.
- Tokenizers.TokenizePgSimple: lower-casing and the word pattern outside CJK runs are a parameter; jieba and the learned-sparse leg are not modelled.
- Ndcg.NdcgInUnitInterval: recall and reciprocal rank are simple ratios and are left out; the grade of a ranked id is taken to be its judgement, or 0.
- PostgreSQL queries, Qdrant filter objects, networking, files, subprocesses and command lines are replaced by stores, lists and nondeterministic steps.
- Redaction, file modes, HMAC and secret handling are not modelled.
- Receipt guarantees against writers that invalidate and write in two separate steps are not claimed.
