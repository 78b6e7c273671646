# Verified model of the SNOC mail agent

This project models the parts of the agent whose correctness depends on several steps working
together, and proves what they promise for every input, every provider, every network and every
run.

* **Isotonic calibration.** Pool-adjacent-violators over labelled confidences. The specification keeps
  the points of every block; the program keeps a bound, a sum and a weight. `Points`, `Isotonic`,
  `IsotonicOptimality`, `ConfidenceTies`, `UnsafeTies`, `Calibration`, `BrierTies`.
* **Bounded model context.** JSON values, their serialised text and its length, a reader of such texts,
  and the cascade of reductions that brings a context under its cap. `Json`, `JsonText`, `JsonReading`,
  `BoundedText`, `ContextBuilder` (what each reduction does), `ContextPromises`, `ContextWarnings`,
  `ContextMeasure` and `ContextEnvelope` (what that guarantees), `ContextFinalizer` (the program).
* **Inference.** Pricing, the budget tracker, the retry loop, the ladder of output modes and the
  aggregate figures, against a provider that may answer anything. `Cost`, `Inference`,
  `InferencePromises`, `InferenceFigures`, `InferenceOutcomes` (what each reply leads to),
  `InferenceEvaluation` (many calls), `InferenceBackend` (the program).
* **Business operations.** A client with bounded retries and a server with a cache keyed by idempotency
  key, over a network that may lose, delay and repeat requests, with the attempts of many clients interleaved.
  `BusinessServer`, `BusinessClient`, `BusinessInterleaving`, `BusinessOperations` (what the recorded
  calls say about the operations).
* **Operation life cycle and worker lease.** Unbounded interleaved runs of the status machine, and any
  number of polling workers around one advisory lock. `OperationLifecycle`, `WorkerLease`.
* **Data set round trip.** Reading an evaluation row, writing the example out, reading it again.
  `DatasetLoader`, `DatasetLabels` (what the words of a row mean), `DatasetRoundTrip`, `DatasetReload`,
  `DatasetReader` (the program).
* **Numeric fields.** From the numbers in a mail to an operation, and the check its fields must pass.
  `NumericFields`, `NumericPromises`. `Wrappers`, `Spans` and `Whitespace` are shared.

Code that updates variables in loops or objects in place is written as methods over the same
variables, each proved equal to a function of its input or of the old state; the promises are lemmas
about these functions. `real` stands for Python's floats and decimals. Regular-expression matches,
case folding, `str()`, `json.loads`, the decoding of provider responses and the network are inputs:
the theorems hold for all of them, or for all that satisfy laws which are written out next to the
datatype that holds them (`ContextBuilder.Builder.Valid`, `DatasetLoader.Text.Lawful`,
`NumericFields.Digits`).

Five results are sharper than, or differ from, what the code's comments suggest:

* The isotonic fit adds tied points one at a time and pools after each of them, so it is the
  least-squares fit under *every* labelling of a list of confidences if and only if at each confidence
  with `n` points on it and `m` below it, `(m - 1)(n - 1) <= 1`. The same condition decides, for a
  pattern of order and ties among confidences, whether calibration can ever worsen the Brier score.
  Pairwise distinct confidences satisfy it; `Calibration.TIED` is a list that does not, and whose
  calibrated score is worse than the raw one.
* The reported number of HTTP attempts is right under every provider that raises nothing unexpected exactly
  when every rung of the ladder can build its request, or not even the first one can: errors raised while
  building a later request are not audited. Over all providers it is right only in the second case,
  because other exceptions are not audited either: from the send, from the wait before a retry, from
  reading the figures or the message of an answer, or from the log-probability metrics of the report.
* An example survives writing and reloading unchanged (metadata aside) exactly when its row is not a
  legacy operation row with a lone identifier part that reads as null, such as `nan;`.
* Derived request statuses follow the request transition table over a step of one operation exactly when
  that step is none of those listed in `OperationLifecycle.Breaks`; each of these is taken in some history.
* A hint that a number is a PDV code or a phone number holds exactly when the number is in the
  corresponding format; only eight digits after a plus are in neither.

`dafny verify dfyconfig.toml` checks everything.

## Model

| member | source | states |
|---|---|---|
| Points.Sorted | src/snoc_agent/evaluation/calibration.py:74 | the points are taken in by confidence and then label, none lost or added |
| Isotonic.TakeIn | src/snoc_agent/evaluation/calibration.py:75-79 | a point joins the last block exactly when it repeats that block's bound, else it opens one |
| Isotonic.SummariesMerged | src/snoc_agent/evaluation/calibration.py:81-88 | a merge adds up sums and weights and keeps the right bound, and the comparison of quotients is that of the label means |
| Isotonic.PoolLast | src/snoc_agent/evaluation/calibration.py:80-88 | the merging loop over bounds, sums and weights keeps exactly the summaries of the pooled point lists |
| Isotonic.Probabilities | src/snoc_agent/evaluation/calibration.py:89-94 | each fitted step is a block's last confidence and the mean label of its points |
| Isotonic.FitIsotonic | src/snoc_agent/evaluation/calibration.py:72-94 | for every list of points the program computes the steps of the pooled partition of the ordered points |
| Isotonic.ReadSteps | src/snoc_agent/evaluation/calibration.py:102-106 | the loop reads a value from the first step whose bound it does not pass, else from the last |
| Isotonic.BlocksStructure | src/snoc_agent/evaluation/calibration.py:72-94 | the blocks partition the ordered points, never split a confidence, and have non-decreasing means |
| IsotonicOptimality.MergeCertified | src/snoc_agent/evaluation/calibration.py:83-88 | merging two blocks in the wrong order keeps the certificate: every part ending at a change of confidence has a mean no smaller than its block |
| IsotonicOptimality.PoolCertified | src/snoc_agent/evaluation/calibration.py:80-88 | the whole pooling loop keeps the certificate of all blocks |
| IsotonicOptimality.BlockOptimal | src/snoc_agent/evaluation/calibration.py:83-88 | on a certified block no non-decreasing assignment beats the block mean, by summation by parts |
| IsotonicOptimality.BlocksOptimal | src/snoc_agent/evaluation/calibration.py:72-94 | certified blocks together beat every non-decreasing assignment, by at least its squared distance |
| IsotonicOptimality.PredictGivesMeans | src/snoc_agent/evaluation/calibration.py:102-106 | reading the steps at a point's confidence gives the mean of the block that holds the point |
| IsotonicOptimality.PredictMonotone | src/snoc_agent/evaluation/calibration.py:97-106 | prediction is monotone in the raw confidence |
| ConfidenceTies.BlocksCertified | src/snoc_agent/evaluation/calibration.py:74-88 | with safe ties every block is certified after every prefix of the points |
| UnsafeTies.TrapBeaten | src/snoc_agent/evaluation/calibration.py:74-88 | on an unsafe tie, labelled as a trap, some non-decreasing assignment errs strictly less than the fit |
| Calibration.FitShape | src/snoc_agent/evaluation/calibration.py:72-94 | for all inputs: bounds strictly increase, probabilities are non-decreasing and in [0,1], the blocks hold exactly the points |
| Calibration.WeightConserved | src/snoc_agent/evaluation/calibration.py:77-87 | the block weights add up to the number of points |
| Calibration.EqualConfidencesShareBlock | src/snoc_agent/evaluation/calibration.py:75-79 | points of equal confidence are in one block |
| Calibration.FittedMonotone | src/snoc_agent/evaluation/calibration.py:97-106 | calibrated values are monotone and probabilities, on any raw confidence |
| Calibration.Conservation | src/snoc_agent/evaluation/calibration.py:72-106 | the calibrated probabilities of the points add up to the number of positive labels |
| Calibration.FittedNonDecreasing | src/snoc_agent/evaluation/calibration.py:72-106 | the fit itself is a non-decreasing assignment, for all inputs |
| Calibration.RisingLeftAlone | src/snoc_agent/evaluation/calibration.py:74-94 | points whose confidences rise and whose labels never fall are left alone: each keeps a step of its own with its label |
| Calibration.FitBeatsMonotone | src/snoc_agent/evaluation/calibration.py:72-106 | with safe ties the fit errs least among all non-decreasing assignments, with the gap as a lower bound of the difference |
| Calibration.FitUnique | src/snoc_agent/evaluation/calibration.py:72-106 | with safe ties the fit is the only minimiser on the points |
| Calibration.OptimalExactlyWhenTiesSafe | src/snoc_agent/evaluation/calibration.py:72-106 | under every labelling of a list of confidences the fit is a non-decreasing assignment that errs least, if and only if the ties are safe |
| Calibration.DistinctTieSafe | src/snoc_agent/evaluation/calibration.py:75-80 | pairwise distinct confidences have safe ties |
| Calibration.BrierIsMean | src/snoc_agent/evaluation/calibration.py:109-112 | the score of one point is its squared error, the score of two lists the mean of theirs weighted by length |
| Calibration.CalibratedBrierNotWorse | src/snoc_agent/evaluation/calibration.py:109-112 | with safe ties the calibrated Brier score is never worse than the raw one |
| Calibration.TiesCanWorsenBrier | src/snoc_agent/evaluation/calibration.py:72-112 | a witness: six tied points give one block at 2/3, squared error 4/3 against 5/4 for the raw scores |
| BrierTies.FittedRenamed | src/snoc_agent/evaluation/calibration.py:72-106 | the fit depends on the order and ties of the confidences, not on their values |
| BrierTies.StrictlyBeaten | src/snoc_agent/evaluation/calibration.py:72-106 | a fit that is beaten at all is beaten by a strictly increasing assignment between 0 and 1 |
| BrierTies.WorseWhenUnsafe | src/snoc_agent/evaluation/calibration.py:109-112 | every pattern with an unsafe tie has confidences between 0 and 1 and labels that calibration scores worse |
| BrierTies.ScoreSafeExactlyWhenTiesSafe | src/snoc_agent/evaluation/calibration.py:109-159 | calibration never worsens the Brier score of a pattern of confidences, whatever their values and labels, if and only if its ties are safe |
| BoundedText.MoveHead | src/snoc_agent/ai/context_builder.py:54-57 | the loop moves the head cut to the start of the first token it falls into, else leaves it |
| BoundedText.MoveTail | src/snoc_agent/ai/context_builder.py:58-62 | the loop moves the tail cut to the end of the first token it falls into, else leaves it |
| BoundedText.BoundText | src/snoc_agent/ai/context_builder.py:40-68 | the shortened text in all five cases, and whether it was shortened |
| BoundedText.BoundedFits | src/snoc_agent/ai/context_builder.py:66-68 | the text never exceeds its limit, so the error at the end cannot occur |
| BoundedText.TokensStayWhole | src/snoc_agent/ai/context_builder.py:51-64 | every protected token is whole in the prefix, whole in the suffix or outside both, after stripping too |
| BoundedText.RoomUsed | src/snoc_agent/ai/context_builder.py:47-65 | a shortened text is head, marker and tail; of the half of the room that each of them has nothing is given up but white space and the token the cut falls into |
| BoundedText.ShorteningShows | src/snoc_agent/ai/context_builder.py:43-68 | a shortened text shows it by the marker between a prefix and a suffix of the original, or by an ellipsis where the marker has no room |
| JsonText.UnescapeEscaped | src/snoc_agent/ai/context_builder.py:72 | an escaped text is the inside of a JSON string, without bare quote, lone backslash or control character, and denotes the text |
| JsonText.EscapedShortest | src/snoc_agent/ai/context_builder.py:72 | no JSON string that denotes the text is shorter than the escaped one |
| JsonText.SortKeysOrdered | src/snoc_agent/ai/context_builder.py:72 | in every object of the text, however deep, the keys are in ascending order |
| JsonText.DumpedLength | src/snoc_agent/ai/context_builder.py:71-72 | the measure that the reductions use is the length of the serialised text, for every value |
| JsonReading.DumpedReadsBack | src/snoc_agent/ai/context_builder.py:72 | the serialised text of every value whose numbers are printed as numbers reads back as that value with its keys in order |
| ContextBuilder.Create | src/snoc_agent/ai/context_builder.py:24-37 | a builder exists exactly for a cap of at least 256 and text limits of at least one |
| ContextPromises.EnvelopeLength | src/snoc_agent/ai/context_builder.py:200-208 | the fallback envelope is exactly 243 characters of JSON |
| ContextPromises.ShrunkFits | src/snoc_agent/ai/context_builder.py:94-116 | when shrinking reports success the context fits, although the search is not over a monotone predicate |
| ContextPromises.ShrunkKeeps | src/snoc_agent/ai/context_builder.py:94-116 | shrinking touches one key, leaves there the original, a blank or a bounding of the original, and a blank when it fails |
| ContextPromises.ReducedFits | src/snoc_agent/ai/context_builder.py:147-189 | every reduction that returns early returns a context within the cap |
| ContextPromises.SnippetsOnly | src/snoc_agent/ai/context_builder.py:158-164 | blanking and compacting leave every other part of a candidate record as it was, its snippet blank, and a record without one untouched |
| ContextPromises.MinimalFits | src/snoc_agent/ai/context_builder.py:191-246 | the minimal envelope fits whatever it was built from, carries only whole references and whole compact records, and forbids automatic execution |
| ContextPromises.FinalizedFits | src/snoc_agent/ai/context_builder.py:125-246 | for every context, warning list and cap the result is within the cap |
| ContextPromises.FailsClosed | src/snoc_agent/ai/context_builder.py:82-89 | the input comes back unchanged without warnings, or automatic execution is switched off |
| ContextPromises.NothingSubstituted | src/snoc_agent/ai/context_builder.py:128-189 | short of the envelope every other key keeps its value, loses prose, has its text shortened or its list cut from the end, entries verbatim except for candidates blanked as a whole list; the envelope holds only references as they were and a prefix of compact candidates |
| ContextPromises.LatestKept | src/snoc_agent/ai/context_builder.py:168-171 | the latest message is the input's, blank, or a bounding of it |
| ContextPromises.LatestGoesLast | src/snoc_agent/ai/context_builder.py:147-171 | the latest message changes only after all low-trust prose is gone and the subject and the agent's question are blank or absent |
| ContextPromises.FinalizedTwice | src/snoc_agent/ai/context_builder.py:135-139 | finalising again without warnings changes nothing |
| ContextMeasure.FitsIsText | src/snoc_agent/ai/context_builder.py:71-92 | a context fits exactly when its serialised text is within the cap |
| ContextMeasure.ProseDroppedOnNeed | src/snoc_agent/ai/context_builder.py:147-156 | each prose key is dropped only when the context without the keys before it is still too long |
| ContextMeasure.ShrunkToLastFitting | src/snoc_agent/ai/context_builder.py:94-116 | the search over limits, over a predicate that need not be monotone, ends at a limit that fits and whose next one does not |
| ContextMeasure.PoppedLongest | src/snoc_agent/ai/context_builder.py:184-187 | as many entries stay as fit: every longer part of the list is too long |
| ContextMeasure.CandidateKeysAre | src/snoc_agent/ai/context_builder.py:75-80 | the candidate keys are those of the two that hold lists, in order |
| ContextMeasure.CollectionsInOrder | src/snoc_agent/ai/context_builder.py:173-189 | a collection is touched only when all collections before it are gone |
| ContextMeasure.TextsAfterSnippets | src/snoc_agent/ai/context_builder.py:147-171 | a text is shortened only when every candidate snippet is blank, and candidates are touched only when all prose is gone |
| ContextMeasure.CollectionsGoLast | src/snoc_agent/ai/context_builder.py:147-189 | structured collections are cut only when all prose is gone and no free text is left |
| ContextMeasure.EnvelopeIsLastResort | src/snoc_agent/ai/context_builder.py:147-192 | the envelope is built only when the four kinds of prose are gone, the three texts blank and none of the five lists left |
| ContextEnvelope.NothingLeftOutFits | src/snoc_agent/ai/context_builder.py:209-243 | the minimal envelope is maximal: every warning, reference, next candidate or longer latest message that it leaves out would take it over the cap |
| ContextEnvelope.EnvelopeMode | src/snoc_agent/ai/context_builder.py:193-208 | the envelope has the mode of the context if that is a text of at most 64 characters and fits, else the fallback mode |
| ContextWarnings.MinimalLists | src/snoc_agent/ai/context_builder.py:196-218 | the envelope lists the two essential warnings first and then only warnings of the audit |
| ContextWarnings.RepeatsInOrder | src/snoc_agent/ai/context_builder.py:86-88 | warnings are listed in the order in which they were first raised |
| ContextWarnings.ReductionReported | src/snoc_agent/ai/context_builder.py:141-145 | a context that had to be reduced lists both limit warnings and nothing that was not raised, and is marked as having lost sections; short of the envelope every warning is listed once |
| ContextFinalizer.ApplyWarnings | src/snoc_agent/ai/context_builder.py:82-89 | in place: the deduplicated warnings and the execution switch, nothing on an empty list |
| ContextFinalizer.ShrinkTopLevelText | src/snoc_agent/ai/context_builder.py:94-116 | the low/high/best loop on the context leaves the best candidate and reports whether it fits |
| ContextFinalizer.RemoveProse | src/snoc_agent/ai/context_builder.py:147-156 | prose keys leave one by one until the context fits |
| ContextFinalizer.EmptySnippets | src/snoc_agent/ai/context_builder.py:158-166 | candidate snippets are blanked list by list until the context fits |
| ContextFinalizer.PopList | src/snoc_agent/ai/context_builder.py:184-187 | entries are popped from the end until the context fits, an emptied list is removed |
| ContextFinalizer.PopCollections | src/snoc_agent/ai/context_builder.py:173-189 | the collections are cut in order of importance until the context fits |
| ContextFinalizer.ListWarnings | src/snoc_agent/ai/context_builder.py:209-218 | each further warning is listed when it still fits |
| ContextFinalizer.KeepReferences | src/snoc_agent/ai/context_builder.py:219-226 | the two references are kept whole when they fit |
| ContextFinalizer.KeepCandidates | src/snoc_agent/ai/context_builder.py:227-238 | compact records are kept up to the first that does not fit |
| ContextFinalizer.BuildMinimal | src/snoc_agent/ai/context_builder.py:191-246 | the envelope is built in a new dictionary and the final error is unreachable |
| ContextFinalizer.FinalizeContext | src/snoc_agent/ai/context_builder.py:125-246 | a new context, equal to the specified one, whose serialised text is within the cap; nothing but the warnings is changed if their context fits; the caller's is untouched |
| Cost.ChargeShape | src/snoc_agent/ai/cost.py:33-86 | a charge has both parts or neither, parts add up to the total, and the total is missing exactly on unknown basis |
| Cost.FirstPresentAt | src/snoc_agent/ai/cost.py:57-76 | the rate that applies is the first entry that is there, even if only a later one is valid |
| Cost.ChargePrecedence | src/snoc_agent/ai/cost.py:44-86 | both reported parts come before a reported total and that before an estimate, each with its own figures; an estimate needs both token counts and both rates and uses nothing reported |
| Cost.EstimateByToken | src/snoc_agent/ai/cost.py:84-86 | rates are per million tokens: none cost nothing, one more prompt or completion token raises its own part by a millionth of its own rate and leaves the other alone |
| Cost.ProjectionSound | src/snoc_agent/ai/cost.py:33-86 | within the token bounds, at the same prices and without a reported cost, no charge exceeds its projection |
| Cost.BudgetTracker.constructor | src/snoc_agent/ai/cost.py:89-98 | a tracker starts with nothing spent, sent or unknown |
| Cost.BudgetTracker.BeforeAttempt | src/snoc_agent/ai/cost.py:100-111 | the two refusals, read only |
| Cost.BudgetTracker.RecordAttempt | src/snoc_agent/ai/cost.py:113-116 | one more request, nothing else |
| Cost.BudgetTracker.Record | src/snoc_agent/ai/cost.py:118-130 | tokens always, then either one more unknown cost or the cost |
| Cost.VerdictStable | src/snoc_agent/ai/cost.py:100-116 | counting attempts never changes the budget's verdict |
| Cost.StatusIsVerdict | src/snoc_agent/ai/cost.py:132-140 | the status says stopped exactly when an unprojected attempt would be refused, and each of the four says which case it is |
| Cost.Overshoot | src/snoc_agent/ai/cost.py:100-130 | in every legal run the spend exceeds the threshold by less than the last response's cost beyond its projection |
| Cost.SpendBelowStop | src/snoc_agent/ai/cost.py:100-130 | when no cost exceeds its projection, spend is below the threshold in every state after an attempt has crossed |
| Cost.UnknownCostIsLast | src/snoc_agent/ai/cost.py:100-105 | where unknown cost is forbidden, a response of unknown cost is the last of its run |
| Cost.ControlsAccepted | src/snoc_agent/cli/commands.py:746-779 | the arguments are accepted exactly if each is in range and the threshold within the budget; it is then the configured one or 95% of the budget, whichever is less |
| Cost.BudgetKept | src/snoc_agent/cli/commands.py:746-779 | under accepted controls the threshold is at most 95% of a non-negative budget and at most the one asked for, and a projected run spends less than these 95% |
| Inference.PayloadFitsWindow | src/snoc_agent/ai/openai_compatible_backend.py:257-278 | with a window, estimated input plus output limit plus margin fit in it, and the output asked for is all that was configured or all that is left, whichever is less |
| Inference.PayloadRefused | src/snoc_agent/ai/openai_compatible_backend.py:265-275 | a payload is refused for its length exactly if not even 64 tokens are left for its output |
| Inference.NextRung | src/snoc_agent/ai/openai_compatible_backend.py:604-616 | every fallback goes strictly down the ladder |
| InferencePromises.TransportCounts | src/snoc_agent/ai/openai_compatible_backend.py:168-231 | the retry loop sends as many requests as it reports, within its limit, and takes at most one decoded response, the last; an exception that escapes is counted too |
| InferencePromises.PostCounts | src/snoc_agent/ai/openai_compatible_backend.py:145-231 | a gated request sends nothing when refused; one that was sent had passed the gate |
| InferencePromises.RungSound | src/snoc_agent/ai/openai_compatible_backend.py:582-729 | one round counts its requests alike in its total and in the budget and accounts for exactly its decoded response |
| InferencePromises.ClimbSound | src/snoc_agent/ai/openai_compatible_backend.py:582-766 | from any rung: at most a full retry loop per remaining rung, all requests counted, all responses accounted for and charged |
| InferencePromises.GenerateSound | src/snoc_agent/ai/openai_compatible_backend.py:480-766 | at most four retry loops; recorded errors number parses minus one on success and all parses on an audited failure |
| InferenceOutcomes.RetriedExactly | src/snoc_agent/ai/openai_compatible_backend.py:168-230 | below the limit a request is sent again exactly after a time-out, a transport failure or a status 408, 429, 502, 503 or 504 whose wait returns |
| InferenceOutcomes.LoopEndsAt | src/snoc_agent/ai/openai_compatible_backend.py:168-231 | the loop passes over replies that are tried again only, and ends at the first other one or at its limit |
| InferenceOutcomes.AttemptsAllowed | src/snoc_agent/ai/openai_compatible_backend.py:148 | as long as every reply is tried again, one request more is sent than there are retries |
| InferenceOutcomes.OneMeaning | src/snoc_agent/ai/errors.py:103-128 | no reply is in two categories of the table |
| InferenceOutcomes.EndsAsLastReply | src/snoc_agent/ai/openai_compatible_backend.py:168-231 | a request ends as its last reply says: answered with its body, failed in the one category of that reply, or by an exception that its kind of reply may raise |
| InferenceOutcomes.HandsOn | src/snoc_agent/ai/openai_compatible_backend.py:596-729 | a rung hands on to the next exactly after an unparsed answer or a rejected output mode, if the configuration has that next rung; a rejection never leads to a repair |
| InferenceOutcomes.CallEnds | src/snoc_agent/ai/openai_compatible_backend.py:582-766 | a call succeeds only on a last reply that parses; an audited error has the category of its last reply, or the budget refuses the next request |
| InferenceOutcomes.CallModes | src/snoc_agent/ai/openai_compatible_backend.py:488-723 | a call ends in an output mode that the configuration asks for or allows |
| InferencePromises.AttemptsReported | src/snoc_agent/ai/openai_compatible_backend.py:579-616 | the reported attempts equal the requests sent unless a payload error or another uncaught exception takes the report after a request; the tracker counts them in every case |
| InferencePromises.NeverUncaught | src/snoc_agent/ai/openai_compatible_backend.py:173-230 | a provider whose replies raise nothing unexpected never makes an exception escape |
| InferencePromises.BrokenEscapes | src/snoc_agent/ai/openai_compatible_backend.py:169-191 | where the first rung builds its payload, a send that raises loses the report of a request that was counted |
| InferencePromises.AttemptsAlwaysReported | src/snoc_agent/ai/openai_compatible_backend.py:588-616 | over providers that raise nothing unexpected the report is right if and only if all rungs of the ladder build their payload or the first one does not; over all providers if and only if the first one does not |
| InferenceFigures.AggregateIsWorst | src/snoc_agent/ai/openai_compatible_backend.py:535-543 | the aggregate basis is the least trustworthy one among the responses |
| InferenceFigures.FiguresExact | src/snoc_agent/ai/openai_compatible_backend.py:522-543 | every aggregate is the exact sum over all responses or absent, the total may fall back to its parts, parts add up to the cost |
| InferenceFigures.BodyCharged | src/snoc_agent/ai/openai_compatible_backend.py:630-640 | a response is charged by its own reported parts, its reported total, or its token counts at its prices |
| InferenceFigures.TrackerExact | src/snoc_agent/ai/openai_compatible_backend.py:641-646 | after a call the tracker has counted every request and added up exactly the costs, tokens and unknown costs of its decoded responses |
| InferenceFigures.ClimbIsRun | src/snoc_agent/ai/openai_compatible_backend.py:582-646 | a call spends the budget in gated rounds and in no other way, each within its own projection if every response costs no more than was projected for the request it answers |
| InferenceFigures.GenerateWithinBudget | src/snoc_agent/ai/openai_compatible_backend.py:150-171 | if no response exceeds the projection of its own request, spend is below the threshold after any call that sent a request |
| InferenceFigures.BoundsProject | src/snoc_agent/ai/openai_compatible_backend.py:150-167 | when every response stays within the bytes of the prompt it answers and the output limit, at the projected prices and without a reported cost, no charge exceeds its own projection |
| InferenceFigures.CallsAreRun | src/snoc_agent/ai/openai_compatible_backend.py:168-171 | any number of calls on one tracker make one legal run of gated rounds |
| InferenceFigures.CallsWithinBudget | src/snoc_agent/ai/cost.py:100-130 | over a whole evaluation spend stays below the threshold once any request has been sent, if no response exceeds the projection of its request |
| InferenceFigures.CallsKnowCosts | src/snoc_agent/ai/cost.py:100-105 | where unknown cost is forbidden, a whole evaluation records at most one response of unknown cost |
| InferenceEvaluation.EvaluationWithinBudget | src/snoc_agent/cli/commands.py:746-779 | under accepted controls a whole evaluation whose responses stay within the token bounds of their requests spends less than 95% of its budget once it has sent anything |
| InferenceEvaluation.PostStops | src/snoc_agent/ai/openai_compatible_backend.py:193-210 | only the last request of a retry loop can have a decoded response |
| InferenceEvaluation.NoRequestAfterUnknown | src/snoc_agent/ai/cost.py:100-105 | where unknown cost is forbidden, the request answered at unknown cost is the last one a whole evaluation sends, and the only one of its kind |
| InferenceBackend.PreparePayload | src/snoc_agent/ai/openai_compatible_backend.py:257-318 | the output limit as set and lowered step by step, or one of the two refusals |
| InferenceBackend.TakeIn | src/snoc_agent/ai/openai_compatible_backend.py:647-672 | every sum and completeness flag after one more response |
| InferenceBackend.Backend.PostOnce | src/snoc_agent/ai/openai_compatible_backend.py:145-231 | the retry loop with its tracker calls, its waits and the exceptions it does not catch equals the specified one and leaves tracker and request count accordingly |
| InferenceBackend.Backend.TakeAnswer | src/snoc_agent/ai/openai_compatible_backend.py:618-729 | a decoded response is charged and added up, then ends the call or moves mode or repair, step by step |
| InferenceBackend.Backend.OneRound | src/snoc_agent/ai/openai_compatible_backend.py:582-729 | one turn of the loop: payload, request, failure or answer |
| InferenceBackend.Backend.GenerateStructured | src/snoc_agent/ai/openai_compatible_backend.py:480-766 | the loop ends exactly as the specified ladder does, tracker included, by result, audited error or exception that escapes |
| BusinessServer.MockBusinessApi.RecordCall | src/snoc_agent/business_api/mock_client.py:102-145 | replay, conflict and first use, with the whole new state |
| BusinessServer.LogIsFirsts | src/snoc_agent/business_api/mock_client.py:116-145 | after every trace the log is the first call of every key, in order |
| BusinessServer.RunConsistent | src/snoc_agent/business_api/mock_client.py:143-145 | log and cache always have the same keys, once each, and agree |
| BusinessServer.FirstWins | src/snoc_agent/business_api/mock_client.py:116-123 | the cache holds for each key its first command and that command's answer |
| BusinessServer.ReplayAnswered | src/snoc_agent/business_api/mock_client.py:116-123 | a repeated key gets the first answer or a conflict, and leaves the server as it was |
| BusinessServer.FingerprintsTellOperations | src/snoc_agent/business_api/mock_client.py:36-115 | two valid operations have one fingerprint exactly when they are the same operation with the same data |
| BusinessOperations.LoweredAsks | src/snoc_agent/business_api/mock_client.py:36-100 | a command is that of a valid operation exactly if, field by field, it has the action and path of its kind, its PDV code and phone number under their names, and nothing else but its additional data |
| BusinessOperations.Perform | src/snoc_agent/business_api/http_client.py:77-141 | the payload is put together entry by entry and posted; invalid additional data sends nothing; a result over a network where only the server reports success means that the operation is recorded once, field by field |
| BusinessOperations.PostPerforms | src/snoc_agent/business_api/http_client.py:77-233 | a posted operation that returned a result over such a network is recorded under its key with its own fields, once |
| BusinessOperations.InterleavedPerforms | src/snoc_agent/business_api/http_client.py:77-233 | the same among any number of interleaved posts with late or repeated requests |
| BusinessOperations.AnswerNames | src/snoc_agent/business_api/mock_client.py:102-145 | an accepted operation is answered under its key with the action and path it asked for |
| BusinessClient.Configure | src/snoc_agent/business_api/http_client.py:58-61 | accepted exactly for 0 to 5 retries and a non-negative delay |
| BusinessClient.HttpClient.Backoff | src/snoc_agent/business_api/http_client.py:235-238 | the time slept grows by the doubled delay |
| BusinessClient.HttpClient.Post | src/snoc_agent/business_api/http_client.py:153-233 | the loop over client and server ends with the specified result, server state and time slept |
| BusinessClient.RetriedExactly | src/snoc_agent/business_api/http_client.py:170-233 | below its limit a post is tried again exactly after a transport failure or a status 408, 429, 502, 503 or 504, and ends as the last answer says |
| BusinessClient.AttemptRuns | src/snoc_agent/business_api/http_client.py:170-233 | the server sees exactly the requests that arrive, and attempts stay within their bound |
| BusinessClient.PostAtMostOnce | src/snoc_agent/business_api/http_client.py:170-233 | over any network one post adds at most one effect; if only the server reports success, a post that returned a result has exactly one, for its own command |
| BusinessClient.ManyPostsOneEffect | src/snoc_agent/business_api/mock_client.py:116-145 | after posts by any clients over any networks, a key has exactly one effect once one of its posts returned a result over a network where only the server reports success |
| BusinessInterleaving.InterleavedPostsOneEffect | src/snoc_agent/business_api/http_client.py:170-233 | however the attempts of any number of clients interleave, and however late or often their requests arrive, no key has more than one effect, and a post to which only the server reports success has exactly one once it has returned a result, for its own command |
| BusinessInterleaving.AloneIsAttempt | src/snoc_agent/business_api/http_client.py:170-233 | a post whose attempts are sent, delivered and answered in turn ends as the retry loop does |
| BusinessClient.SingleRequest | src/snoc_agent/business_api/http_client.py:170 | without the guarantee exactly one request is sent, whatever the server |
| BusinessClient.RetriesReachServer | src/snoc_agent/business_api/http_client.py:170-183 | with the guarantee every allowed attempt can reach the server, so the cache is needed |
| BusinessClient.TotalBackoff | src/snoc_agent/business_api/http_client.py:235-238 | the time slept over a call is the delay times 2^(attempts-1) - 1 |
| OperationLifecycle.OperationRules | src/snoc_agent/domain/state_machine.py:10-37 | the operation table as rules, both ways: what is possible before, out of and after execution and escalation |
| OperationLifecycle.RequestRules | src/snoc_agent/domain/state_machine.py:40-89 | the request table by target, both ways: from where each status can be reached |
| OperationLifecycle.ExecutesOnce | src/snoc_agent/domain/state_machine.py:10-37 | an operation enters execution at most once, only from validation; a completed or failed one has done so |
| OperationLifecycle.FinalStays | src/snoc_agent/domain/state_machine.py:33-37 | final statuses stay, an escalated one can only be cancelled |
| OperationLifecycle.EscalatedNeverExecutes | src/snoc_agent/domain/state_machine.py:28-33 | an escalated operation never executes afterwards |
| OperationLifecycle.TracksArePaths | src/snoc_agent/domain/state_machine.py:92-94 | under any interleaving every operation goes a legal way of its own |
| OperationLifecycle.DeriveBySet | src/snoc_agent/domain/state_machine.py:102-122 | the derived status depends only on which statuses occur |
| OperationLifecycle.DeriveMeans | src/snoc_agent/domain/state_machine.py:102-122 | what each derived status says about which statuses occur; the cases exclude each other |
| OperationLifecycle.DeriveCompleted | src/snoc_agent/domain/state_machine.py:104-107 | it is completed exactly when there are operations and all are completed |
| OperationLifecycle.CompletedForever | src/snoc_agent/domain/state_machine.py:102-107 | once derived as completed, a request stays so for ever |
| OperationLifecycle.FollowsUnlessBreaks | src/snoc_agent/domain/state_machine.py:40-122 | for every list of operations and every legal step of one of them, the derived status keeps to the request table if and only if the step is not a breaking one |
| OperationLifecycle.StepFollows | src/snoc_agent/domain/state_machine.py:92-122 | any legal step of any one operation follows the table if and only if no operation breaks it there |
| OperationLifecycle.HistoriesFollow | src/snoc_agent/domain/state_machine.py:40-122 | the derived status follows the request table all through a history if and only if no step of it is a breaking one |
| OperationLifecycle.Reached | src/snoc_agent/domain/state_machine.py:10-37 | every list of statuses is reached from new operations alone |
| OperationLifecycle.BreakTaken | src/snoc_agent/domain/state_machine.py:40-122 | every breaking step is taken in some history and leaves the table there |
| OperationLifecycle.DerivedLeavesTable | src/snoc_agent/domain/state_machine.py:84 | a witness from a new operation: cancelling the only, escalated operation takes the request from escalated to active |
| WorkerLease.NextProtects | src/snoc_agent/cli/commands.py:386-412 | every step of every worker keeps the lock with the one live session in the lease body |
| WorkerLease.MutualExclusion | src/snoc_agent/cli/commands.py:378-412 | in every run of any number of workers at most one with a live session is inside the lease body |
| WorkerLease.FreeLockIsTaken | src/snoc_agent/cli/commands.py:386-396 | a worker that tries the lock gets into the lease body exactly if its session is alive and the lock is free |
| WorkerLease.LockComesFree | src/snoc_agent/cli/commands.py:402-412 | the lock is free as soon as no live session is in the lease body or leaving it |
| WorkerLease.IterationRuns | src/snoc_agent/cli/commands.py:415-479 | left alone, a live worker goes through a whole iteration, of one stage or three, and is ready for the next, still holding the lock |
| WorkerLease.RefusedStaysOutside | src/snoc_agent/cli/commands.py:395-396 | a worker that found the lock taken never enters the body nor owns the lock |
| WorkerLease.RefusedUnlockHarmless | src/snoc_agent/cli/commands.py:403-409 | the unlock after a failed acquisition leaves the lock with its holder |
| WorkerLease.StaleWorkerStops | src/snoc_agent/cli/commands.py:415-479 | after a session loss a worker does at most what was left of its iteration |
| Whitespace.StripTrims | src/snoc_agent/evaluation/dataset_loader.py:90 | stripping leaves no white space at either end and leaves trimmed texts alone |
| DatasetLabels.LabelMeans | src/snoc_agent/evaluation/dataset_loader.py:183-221 | for every legacy row and on the example read from it: vpn, otp, locked, reset and the canonical names are one operation of their action, the outcome words are outcomes without operations, multiple is neither, any other word is refused |
| DatasetLabels.CoercedMeans | src/snoc_agent/evaluation/dataset_loader.py:133-138 | a structured operation has the action that its word names, and is unknown for any other word |
| DatasetLabels.CoercedInOrder | src/snoc_agent/evaluation/dataset_loader.py:172 | listed operations are read one by one in order, and refused together if one cannot be read |
| DatasetLabels.OperationsWrapped | src/snoc_agent/evaluation/dataset_loader.py:159-172 | a list counts as it is, under `operations` or else `expected_operations`, or as JSON text; anything else is refused |
| DatasetLabels.CoercedIdentifiers | src/snoc_agent/evaluation/dataset_loader.py:140-143 | an operation's own columns come before its nested fields, for each identifier on its own |
| DatasetLabels.OutcomeMeans | src/snoc_agent/evaluation/dataset_loader.py:238-246 | what each outcome word of a structured row stands for; any other word is refused |
| DatasetLabels.FlagMeans | src/snoc_agent/evaluation/dataset_loader.py:100-108 | the five words that set a flag and the five that clear it; a null cell leaves it, any other word is refused |
| DatasetLabels.NullMeans | src/snoc_agent/evaluation/dataset_loader.py:90-91 | a trimmed text is null exactly if it folds to one of four words, and is kept otherwise |
| DatasetLabels.ScoringMeans | src/snoc_agent/evaluation/dataset_loader.py:191-269 | without flags of its own an example counts unless its status or label excludes it, and as an operation only if its identifiers are attributed; the reason is the row's own, else the label's, else the status |
| DatasetLabels.SplitJoins | src/snoc_agent/evaluation/dataset_loader.py:97 | splitting at semicolons loses nothing and leaves none in a part |
| DatasetLabels.PartsInOrder | src/snoc_agent/evaluation/dataset_loader.py:97 | parts keep their order and are dropped or kept one by one |
| DatasetLabels.IdentifierKept | src/snoc_agent/evaluation/dataset_loader.py:94-97 | a single identifier is kept to the letter |
| DatasetLabels.LegacyIdentifiers | src/snoc_agent/evaluation/dataset_loader.py:196-221 | a legacy row with at most one identifier of each kind gives an operation with just these |
| DatasetLabels.FirstIsFilled | src/snoc_agent/evaluation/dataset_loader.py:111-116 | a value is taken from the first of its columns that has one |
| DatasetLabels.MetadataMerged | src/snoc_agent/evaluation/dataset_loader.py:283-286 | the metadata are the cells of the row with those of its nested metadata over them |
| DatasetRoundTrip.CanonicalStable | src/snoc_agent/evaluation/dataset_loader.py:85-91 | a canonical value is empty or reads back as itself |
| DatasetRoundTrip.CoerceWritten | src/snoc_agent/evaluation/dataset_loader.py:123-156 | a written operation is read back with its action and additional fields intact and each identifier read on its own |
| DatasetRoundTrip.WrittenReread | src/snoc_agent/evaluation/dataset_loader.py:70-82 | a written example of regular shape reads back as itself with its identifiers reread |
| DatasetReload.PartsSurvive | src/snoc_agent/evaluation/dataset_loader.py:200-220 | joined legacy parts survive a reload unless they are one part that reads as null |
| DatasetReload.LegacyShape | src/snoc_agent/evaluation/dataset_loader.py:183-221 | what every readable legacy row yields: its operation if its label names an action, its outcome, its exclusion |
| DatasetReload.ReadRegular | src/snoc_agent/evaluation/dataset_loader.py:224-298 | every example read from any row has the regular shape |
| DatasetReload.Reloaded | src/snoc_agent/evaluation/dataset_loader.py:224-298 | writing and reloading changes nothing but metadata if and only if the row has no lone null part |
| DatasetReload.SecondReloadExact | src/snoc_agent/evaluation/dataset_loader.py:224-298 | any loss is confined to operation identifiers, and a second round trip loses nothing more |
| DatasetReload.LawsMet | src/snoc_agent/evaluation/dataset_loader.py:90-91 | the laws asked of folding and printing hold of ASCII text |
| DatasetReader.FirstValue | src/snoc_agent/evaluation/dataset_loader.py:111-116 | the loop returns the first non-empty column |
| DatasetReader.FindOperations | src/snoc_agent/evaluation/dataset_loader.py:175-180 | the loop returns the first operations column that holds something |
| DatasetReader.FindContradiction | src/snoc_agent/evaluation/dataset_loader.py:275-279 | the loop reads the first contradiction column that holds something |
| DatasetReader.ExampleFromMapping | src/snoc_agent/evaluation/dataset_loader.py:224-298 | the flags reassigned in sequence give exactly the specified example or its error |
| DatasetReader.LoadRows | src/snoc_agent/evaluation/dataset_loader.py:353-362 | rows are read in order, and the repeated ids are collected exactly |
| DatasetReader.LoadsWhen | src/snoc_agent/evaluation/dataset_loader.py:353-362 | a data set loads exactly when every row reads and no two examples share an id |
| DatasetReader.IdsOfRows | src/snoc_agent/evaluation/dataset_loader.py:271-353 | an example of a loaded data set has the first id its row gives, else the name of its number counting from one |
| DatasetReader.DatasetReloads | src/snoc_agent/evaluation/dataset_loader.py:339-362 | a loaded data set loads again with the same ids, each example unchanged exactly when its row has no lone null part |
| DatasetReader.NanIsDropped | src/snoc_agent/evaluation/dataset_loader.py:94-97 | the cell `nan;` gives an identifier that the next load drops |
| NumericFields.ExtractCandidates | src/snoc_agent/ai/candidate_extractor.py:45-73 | the loop over the matches appends one classified candidate for each that normalises |
| NumericFields.CollectEvidence | src/snoc_agent/ai/fallback_analyzer.py:148-176 | each needed slot is quoted or listed as missing, in the order of the loops |
| NumericFields.BuildOperation | src/snoc_agent/ai/fallback_analyzer.py:139-186 | the operation carries the first candidate of each kind for the slots its action needs |
| NumericFields.ValidateOperationFields | src/snoc_agent/domain/value_objects.py:50-69 | the reasons in order; it passes exactly when the action is supported, required fields are filled and given fields match |
| NumericPromises.NumericNormal | src/snoc_agent/domain/value_objects.py:33-41 | a matched number normalises to its sign and its 8 to 15 digits |
| NumericPromises.NormalizedTwice | src/snoc_agent/domain/value_objects.py:33-41 | normalising twice is normalising once |
| NumericPromises.DigitsMatch | src/snoc_agent/ai/candidate_extractor.py:21 | every number of 8 to 15 digits has the form of a match, with a plus before it or not |
| NumericPromises.CandidateHint | src/snoc_agent/ai/candidate_extractor.py:49-71 | a candidate's hint says exactly which format its value is in, its digits are those of the mail, its context quotes it |
| NumericPromises.CandidatesHinted | src/snoc_agent/ai/candidate_extractor.py:46-73 | every match gives one such candidate, in order |
| NumericPromises.ContextReaches | src/snoc_agent/ai/candidate_extractor.py:58-71 | the text around a number reaches 60 characters to either side or to the end of the mail |
| NumericPromises.FirstWithFirst | src/snoc_agent/ai/fallback_analyzer.py:139-140 | the candidate picked is the first of its kind, none only if there is none |
| NumericPromises.TablesAgree | src/snoc_agent/ai/fallback_analyzer.py:25-30 | the builder's slots are the domain's required fields, for every action |
| NumericPromises.SlotsPartitioned | src/snoc_agent/ai/fallback_analyzer.py:148-176 | each required slot is in exactly one of evidence and missing fields, once, and no other slot is in either |
| NumericPromises.EvidenceIsField | src/snoc_agent/ai/fallback_analyzer.py:142-174 | the evidence of a slot quotes the value the operation carries for it |
| NumericPromises.EvidenceQuotes | src/snoc_agent/ai/fallback_analyzer.py:148-174 | evidence quotes the first candidate of its kind, its value and the text around it |
| NumericPromises.BuiltValidates | src/snoc_agent/domain/value_objects.py:58-69 | for every action and every list of candidates whose hints name their formats, as all extracted ones do, the validator's reasons are exactly the builder's missing slots, so it passes exactly when none is missing |
| NumericPromises.ReasonsTell | src/snoc_agent/domain/value_objects.py:58-69 | each reason is given exactly when its own condition holds |
| NumericPromises.TextValidates | src/snoc_agent/ai/fallback_analyzer.py:123-186 | from any mail text: nothing is missing exactly when the validator passes, exactly when the needed numbers occur |

## Left out

- The logistic calibration method: floating-point Newton iteration and `exp`.
- Rounding of floats and decimals: `real` arithmetic throughout.
- The regular-expression engine, Unicode normalisation and case folding: matches are given spans, folding is any function with the stated laws.
- Lone surrogates in serialised text: each Python character counts as one character of JSON or its escape.
- A dictionary key spelled like a named key through `Other`: it cannot occur in a Python dictionary, and the theorems hold with it.
- Clocks, sleeping between inference retries, jitter and latency figures.
- The decoding of provider responses into token counts, reported costs, message and pricing, and the texts of errors, fallback reasons, reasoning and log probabilities; of their metrics only whether they can be computed.
- A pricing resolver that raises before a request: for the projection it is a function that returns.
- Exceptions of the business client other than HTTP errors and invalid payloads: they end the call without a result, which none of the stated effects depends on.
- Where exactly an uncaught exception leaves the code: reading the figures of an answer raises after the retry loop, the model lets it escape from the loop, with the same requests counted and nothing charged.
- Concurrent use of one budget tracker: calls share it one after the other.
- The pattern and length checks of single business command fields; the request headers; the text of server responses beyond success and size.
- The lease on databases other than PostgreSQL, where the source takes no lock at all.
- A final unlock that fails on a session which stays alive: the model's unlock succeeds or the session is gone.
- The polling loops have no end, so they are steps of a state machine instead of methods; their mail, queue and outbox work is opaque.
- `resolve_escalation`, which writes statuses without the transition check.
- Reading CSV, JSON and JSON-lines files: the model starts from decoded rows.
- The Pydantic-object branch of operation coercion: operations are mappings.
- The confidence threshold, the fallback to the language model and the escalation result of the hybrid analyzer.
- Workflow services, correlation, the decision engine, mail parsing, repositories, routes and user interfaces.
