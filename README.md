# Toponym resolution by weighted minimum distance, and its evaluators

This project models the core of fieldspring's toponym resolver and proves properties of the model. A toponym is a place name in a sentence. It has a list of candidate locations from a gazetteer, an optional gold index (the right candidate) and an optional selected index (the candidate a resolver picked).

**The resolver.** `WeightedMinDistResolver` keeps a weight for every candidate of every toponym type (every form), indexed through a lexicon of forms.
- To resolve a toponym it gives each candidate a total. For every other toponym of the document that has candidates, the total grows by the least distance from the candidate to one of that toponym's candidates, divided by the product of the two weights. The loop stops early once the total reaches the best total so far.
- The candidate with the least total wins. When no candidate gets a total, the fall-back is the heaviest candidate whose weight is above 1.0.
- Training repeats a pass in which every toponym votes for its winner, then turns each type's votes into new weights.
- In the ADDTOPO mode every document gets an extra synthetic toponym whose single candidate is the document's gold coordinate.

**The evaluators.**
- `SignatureEvaluator` joins gold and predicted toponyms by a signature: up to 20 filtered characters on each side of the toponym in its sentence, followed by the document id. It then counts true positives, false positives and false negatives.
- `SharedNEEvaluator` walks the two corpora in lockstep and pairs toponyms by position.
- `AccuracyEvaluator` compares gold and selected indices.

**The geometry.** The evaluators use `Region` and `RectRegion`: bounding boxes in radians, their centres and corners, containment, and minimum distances over representative points.

The modules follow the source:
- `Geometry` covers `Region` and `RectRegion`.
- `Text`, `Lexicons` and `Reports` hold the entities the core works on.
- `Scoring` and `Tables` are the specification functions of the resolver. `Resolver` is the resolver class, with its loops as methods proved against those functions.
- `Signatures`, `SharedNE` and `Accuracy` are the three evaluators.
- `Folds` holds the running-minimum, running-maximum and sum scans they share.

Every path below is relative to the repository root.

## Model

| member | source | states |
|---|---|---|
| Scoring.CheckCandidateIgnores | src/main/java/opennlp/fieldspring/tr/resolver/WeightedMinDistResolver.java:395 | `checkCandidate` gives the same result over a document as over only the other toponyms that have candidates: the toponym itself and toponyms without candidates are skipped |
| Scoring.CheckCandidateAbstains | src/main/java/opennlp/fieldspring/tr/resolver/WeightedMinDistResolver.java:435-436 | when no other toponym of the document has candidates, `checkCandidate` returns null |
| Scoring.CheckCandidateBelowMin | src/main/java/opennlp/fieldspring/tr/resolver/WeightedMinDistResolver.java:429-431 | a total `checkCandidate` returns is strictly below the current minimum it was given |
| Scoring.IncrementNonNegative | src/main/java/opennlp/fieldspring/tr/resolver/WeightedMinDistResolver.java:396-421 | with non-negative weights, what one other toponym adds to a total (its least weighted distance, or `Double.MAX_VALUE`) is never negative |
| Scoring.EarlyExitMatchesFullTotal | src/main/java/opennlp/fieldspring/tr/resolver/WeightedMinDistResolver.java:375-436 | with non-negative weights the early exit happens exactly when the unterminated total of a candidate reaches the bound; otherwise the scan ends with the unterminated total and count |
| Scoring.CandidateTotalIsCompleted | src/main/java/opennlp/fieldspring/tr/resolver/WeightedMinDistResolver.java:371-437 | `checkCandidate` returns the unterminated total exactly when it is below the current minimum, and null otherwise |
| Scoring.ChoiceStep | src/main/java/opennlp/fieldspring/tr/resolver/WeightedMinDistResolver.java:278-285 | one more candidate of the candidate loop becomes the minimum exactly when `checkCandidate` returns a total for it |
| Scoring.ChoiceIsMinScan | src/main/java/opennlp/fieldspring/tr/resolver/WeightedMinDistResolver.java:274-285 | after any number of candidates, the candidate loop with early exit is the strict running-minimum scan over the unterminated totals, from `Double.MAX_VALUE` |
| Scoring.EarlyExitPicksFirstArgMin | src/main/java/opennlp/fieldspring/tr/resolver/WeightedMinDistResolver.java:274-285 | with non-negative weights the candidate loop picks the first candidate whose unterminated total is least and below `Double.MAX_VALUE`, and -1 exactly when there is none |
| Scoring.Winner | src/main/java/opennlp/fieldspring/tr/resolver/WeightedMinDistResolver.java:274-300 | the candidate a toponym resolves to is -1 or an index within its candidates |
| Scoring.FallbackPicksFirstHeaviest | src/main/java/opennlp/fieldspring/tr/resolver/WeightedMinDistResolver.java:288-300 | when the candidate loop finds nothing, the winner is the first candidate whose weight is above 1.0 and above every earlier weight; it is -1 exactly when no weight is above 1.0; NaN weights never win |
| Folds.MinScanIsFirstArgMin | src/main/java/opennlp/fieldspring/tr/resolver/WeightedMinDistResolver.java:274-285 | a strict running-minimum scan ends on the first index of the least value below its start, and on -1 exactly when no value is below the start |
| Folds.MaxScanIsFirstArgMax | src/main/java/opennlp/fieldspring/tr/resolver/WeightedMinDistResolver.java:290-299 | a strict running-maximum scan ends on the first index of the greatest value above its start, and on -1 exactly when no value is above it; NaN never wins |
| Folds.MinScanBelowBound | src/main/java/opennlp/fieldspring/tr/resolver/WeightedMinDistResolver.java:274-285 | started from a finite bound, the running minimum stays finite and never rises above the bound |
| Tables.ResetConsistent | src/main/java/opennlp/fieldspring/tr/resolver/WeightedMinDistResolver.java:265-270 | after the reset, with a non-negative initial count, every type's sum is the total of its counts |
| Tables.VoteConsistent | src/main/java/opennlp/fieldspring/tr/resolver/WeightedMinDistResolver.java:303-311 | a vote adds one to one count and one to that type's sum, so the sum stays the total of the counts |
| Tables.VoteInCorpusConsistent | src/main/java/opennlp/fieldspring/tr/resolver/WeightedMinDistResolver.java:272-314 | the voting pass over a corpus keeps every sum equal to the total of its counts |
| Tables.VoteInCorpusBounded | src/main/java/opennlp/fieldspring/tr/resolver/WeightedMinDistResolver.java:272-314 | the voting pass raises the grand total of the sums by at most one per toponym visited, and never lowers it |
| Tables.UpdatedTallyConsistent | src/main/java/opennlp/fieldspring/tr/resolver/WeightedMinDistResolver.java:265-314 | after the reset and the votes of one `updateWeights` pass, every sum is the total of its type's counts, none negative |
| Tables.RatioRowSum | src/main/java/opennlp/fieldspring/tr/resolver/WeightedMinDistResolver.java:317-324 | the weights a row of counts gives add up to the number of counts when the sum is positive |
| Tables.RatioRowNormal | src/main/java/opennlp/fieldspring/tr/resolver/WeightedMinDistResolver.java:317-324 | a row of non-negative counts with a positive sum gives weights that are numbers (not NaN), non-negative, and add up to the number of candidates |
| Tables.UpdatedWeightsNormal | src/main/java/opennlp/fieldspring/tr/resolver/WeightedMinDistResolver.java:263-325 | after a pass, a type none of whose instances voted has NaN weights throughout; every other type's weights are non-negative and add up to its number of candidates |
| Tables.InitializedShaped | src/main/java/opennlp/fieldspring/tr/resolver/WeightedMinDistResolver.java:202-245 | when the lexicon holds only forms of the corpus and toponyms of a form agree on their number of candidates, `initializeCountsAndWeights` gives every type a count list and a non-empty weight list of its size, and every lookup of a pass succeeds |
| Tables.ExpandedRows | src/main/java/opennlp/fieldspring/tr/resolver/WeightedMinDistResolver.java:146-160 | `expandWeightsArray` returns the old table when it has a list per lexicon index; otherwise every old list stays at its index, every new list holds 1.0 per candidate of its type, and every toponym with candidates gets a list |
| Tables.ExpandedFits | src/main/java/opennlp/fieldspring/tr/resolver/WeightedMinDistResolver.java:146-160 | after `expandWeightsArray`, every list is present and every lookup of the final pass succeeds |
| Tables.FitsByShape | src/main/java/opennlp/fieldspring/tr/resolver/WeightedMinDistResolver.java:317-324 | a lookup that succeeds on a table succeeds on any table with its lists at the same indices and of the same lengths |
| Tables.SelectInCorpusRanges | src/main/java/opennlp/fieldspring/tr/resolver/WeightedMinDistResolver.java:330-367 | the final pass changes only the selections of the toponyms it visits, and only to an index within their candidates |
| Tables.SelectInCorpusAway | src/main/java/opennlp/fieldspring/tr/resolver/WeightedMinDistResolver.java:330-367 | a toponym the pass does not visit keeps its selection |
| Tables.SelectInCorpusAt | src/main/java/opennlp/fieldspring/tr/resolver/WeightedMinDistResolver.java:346-362 | a toponym that occurs once in the pass ends with the winner of its document, or keeps its selection when there is none |
| Tables.SelectInCorpusWinners | src/main/java/opennlp/fieldspring/tr/resolver/WeightedMinDistResolver.java:330-367 | after the whole pass, every toponym that occurs once has its document's winner, or its old selection when it has no winner |
| Resolver.DigitsRoundTrip | src/main/java/opennlp/fieldspring/tr/resolver/WeightedMinDistResolver.java:176-178 | reading back the decimal digits of a document index gives the index, so distinct indices give distinct synthetic forms |
| Resolver.SynthForm | src/main/java/opennlp/fieldspring/tr/resolver/WeightedMinDistResolver.java:176-178 | the form of a synthetic toponym starts with the `__TOPO_` prefix |
| Resolver.ListsWith | src/main/java/opennlp/fieldspring/tr/resolver/WeightedMinDistResolver.java:190-200 | the toponyms of each document are its sentences' toponyms in order, followed by its synthetic toponym in the ADDTOPO mode |
| Resolver.RealListed | src/main/java/opennlp/fieldspring/tr/resolver/WeightedMinDistResolver.java:190-200 | every toponym of the corpus is visited, and so is its form when it has candidates |
| Resolver.SynthListed | src/main/java/opennlp/fieldspring/tr/resolver/WeightedMinDistResolver.java:195-199 | in the ADDTOPO mode the synthetic toponym of each document is visited with that document |
| Resolver.ListedParts | src/main/java/opennlp/fieldspring/tr/resolver/WeightedMinDistResolver.java:190-200 | a visited toponym is a toponym of the corpus or, in the ADDTOPO mode, a synthetic toponym |
| Resolver.ListsAgree | src/main/java/opennlp/fieldspring/tr/resolver/WeightedMinDistResolver.java:190-200 | the visited toponyms agree on the number of candidates of each form |
| Resolver.ListsKnown | src/main/java/opennlp/fieldspring/tr/resolver/WeightedMinDistResolver.java:206-209 | a lexicon holding the corpus forms and the synthetic forms knows the form of every visited toponym with candidates |
| Resolver.NewFormsListed | src/main/java/opennlp/fieldspring/tr/resolver/WeightedMinDistResolver.java:123-124 | every form the lexicon gained is the form of a visited toponym |
| Resolver.TrainingSetUp | src/main/java/opennlp/fieldspring/tr/resolver/WeightedMinDistResolver.java:77-109 | with the lexicon built from the corpus and its synthetic toponyms, every type gets count and weight lists of its size, and every lookup of a pass succeeds |
| Resolver.CorpusFits | src/main/java/opennlp/fieldspring/tr/resolver/WeightedMinDistResolver.java:371-437 | every toponym of the corpus fits a table that every pass fits |
| Resolver.ExpansionSetUp | src/main/java/opennlp/fieldspring/tr/resolver/WeightedMinDistResolver.java:120-125 | the trained table stays valid for the extended lexicon, and expanding it gives a table every pass fits |
| Resolver.SynthStep | src/main/java/opennlp/fieldspring/tr/resolver/WeightedMinDistResolver.java:173-185 | one document's synthetic form added to the lexicon keeps every earlier index and covers one more document |
| Resolver.UpToStep | src/main/java/opennlp/fieldspring/tr/resolver/WeightedMinDistResolver.java:173-185 | one iteration of `initializeSyntheticToponyms` keeps the loop invariant: the document has its synthetic toponym, made new with the next index when it had none |
| Resolver.ResetCounts | src/main/java/opennlp/fieldspring/tr/resolver/WeightedMinDistResolver.java:265-267 | the first loop of `updateWeights` sets every count back to the initial count |
| Resolver.InitialSums | src/main/java/opennlp/fieldspring/tr/resolver/WeightedMinDistResolver.java:269-270 | each sum starts at the initial count times the number of counts of its type |
| Resolver.Renormalise | src/main/java/opennlp/fieldspring/tr/resolver/WeightedMinDistResolver.java:317-324 | each weight becomes its count over its type's sum, times the number of weights of the type |
| Resolver.NullRows | src/main/java/opennlp/fieldspring/tr/resolver/WeightedMinDistResolver.java:79-82 | `train` starts its count and weight lists as one null per lexicon index |
| Resolver.NewRows | src/main/java/opennlp/fieldspring/tr/resolver/WeightedMinDistResolver.java:213-227 | a new type gets the initial count per candidate, and the file's weights when it has a non-empty list for the type, 1.0 each otherwise |
| Resolver.OnesRow | src/main/java/opennlp/fieldspring/tr/resolver/WeightedMinDistResolver.java:252-256 | `initializeWeights` gives a new type 1.0 per candidate |
| Resolver.WeightedMinDistResolver.constructor | src/main/java/opennlp/fieldspring/tr/resolver/WeightedMinDistResolver.java:51-57 | a new resolver holds its number of iterations, its mode and its distance table, is untrained, and has no synthetic toponyms |
| Resolver.WeightedMinDistResolver.CorpusLists | src/main/java/opennlp/fieldspring/tr/resolver/WeightedMinDistResolver.java:190-200 | there is one toponym list per document, each the one `iterToponyms` yields |
| Resolver.WeightedMinDistResolver.IterToponyms | src/main/java/opennlp/fieldspring/tr/resolver/WeightedMinDistResolver.java:190-200 | returns the toponyms of the document's sentences in order, with its synthetic toponym appended in the ADDTOPO mode |
| Resolver.WeightedMinDistResolver.NearestOther | src/main/java/opennlp/fieldspring/tr/resolver/WeightedMinDistResolver.java:396-421 | the inner loop of `checkCandidate` gives the least weighted distance below `Double.MAX_VALUE` to a candidate of the other toponym |
| Resolver.WeightedMinDistResolver.CheckCandidate | src/main/java/opennlp/fieldspring/tr/resolver/WeightedMinDistResolver.java:371-437 | returns the candidate's total over the document, or null on early exit or when no other toponym counts; the `Scoring` lemmas above state what that total is |
| Resolver.WeightedMinDistResolver.StoppedStays | src/main/java/opennlp/fieldspring/tr/resolver/WeightedMinDistResolver.java:429-431 | once `checkCandidate` has returned early, the rest of the document changes nothing |
| Resolver.WeightedMinDistResolver.CandidateLoop | src/main/java/opennlp/fieldspring/tr/resolver/WeightedMinDistResolver.java:274-285 | returns the index the candidate loop settles on, which `Scoring.EarlyExitPicksFirstArgMin` identifies as the first argmin of the unterminated totals |
| Resolver.WeightedMinDistResolver.HeaviestCandidate | src/main/java/opennlp/fieldspring/tr/resolver/WeightedMinDistResolver.java:288-300 | returns the first candidate whose weight exceeds 1.0 and every earlier weight, or -1 |
| Resolver.WeightedMinDistResolver.SelectCandidate | src/main/java/opennlp/fieldspring/tr/resolver/WeightedMinDistResolver.java:274-300 | returns the toponym's winner: the candidate loop's choice, or the fall-back's |
| Resolver.WeightedMinDistResolver.ApplySelection | src/main/java/opennlp/fieldspring/tr/resolver/WeightedMinDistResolver.java:360-362 | a winner other than -1 becomes the toponym's selected index; with -1 nothing changes |
| Resolver.WeightedMinDistResolver.SelectInDocument | src/main/java/opennlp/fieldspring/tr/resolver/WeightedMinDistResolver.java:332-363 | the final pass over one document gives the selections that the specification of the pass gives |
| Resolver.WeightedMinDistResolver.FinalDisambiguationStep | src/main/java/opennlp/fieldspring/tr/resolver/WeightedMinDistResolver.java:330-367 | the new selections of the visited toponyms are the specified final pass from their old selections; with `Tables.SelectInCorpusRanges` and `Tables.SelectInCorpusWinners` they stay in range, and single occurrences get their winners |
| Resolver.WeightedMinDistResolver.CountVote | src/main/java/opennlp/fieldspring/tr/resolver/WeightedMinDistResolver.java:303-311 | one vote raises one count and its type's sum by one |
| Resolver.WeightedMinDistResolver.VoteInDocument | src/main/java/opennlp/fieldspring/tr/resolver/WeightedMinDistResolver.java:273-313 | each toponym of one document, in order, votes for its winner |
| Resolver.WeightedMinDistResolver.VotePass | src/main/java/opennlp/fieldspring/tr/resolver/WeightedMinDistResolver.java:272-314 | each toponym of the corpus, in order, votes for its winner |
| Resolver.WeightedMinDistResolver.UpdateWeights | src/main/java/opennlp/fieldspring/tr/resolver/WeightedMinDistResolver.java:263-325 | the new weights and counts are one specified pass over the old weights (reset, votes, renormalisation); with `Tables.UpdatedTallyConsistent` and `Tables.UpdatedWeightsNormal` the sums are consistent and the weights normal |
| Resolver.WeightedMinDistResolver.InitInDocument | src/main/java/opennlp/fieldspring/tr/resolver/WeightedMinDistResolver.java:207-243 | `initializeCountsAndWeights` over one document gives its specified rows |
| Resolver.WeightedMinDistResolver.InitializeCountsAndWeights | src/main/java/opennlp/fieldspring/tr/resolver/WeightedMinDistResolver.java:202-245 | the first toponym of each type gives it its count list and first weights; nothing else changes |
| Resolver.WeightedMinDistResolver.FillInDocument | src/main/java/opennlp/fieldspring/tr/resolver/WeightedMinDistResolver.java:249-259 | `initializeWeights` over one document fills the types that lack a list |
| Resolver.WeightedMinDistResolver.InitializeWeights | src/main/java/opennlp/fieldspring/tr/resolver/WeightedMinDistResolver.java:247-261 | the first toponym of each type without a weight list gives it 1.0 per candidate; lists already present are kept |
| Resolver.WeightedMinDistResolver.ExpandWeightsArray | src/main/java/opennlp/fieldspring/tr/resolver/WeightedMinDistResolver.java:146-160 | returns the old weights when they have a list per lexicon index; otherwise the old lists, then nulls, filled by `initializeWeights` (see `Tables.ExpandedRows`) |
| Resolver.WeightedMinDistResolver.SynthesiseFor | src/main/java/opennlp/fieldspring/tr/resolver/WeightedMinDistResolver.java:174-183 | a document keeps its synthetic toponym; a new one takes the next document index, is fresh, and has one candidate at the document's gold coordinate, named by its form |
| Resolver.WeightedMinDistResolver.SynthesiseStep | src/main/java/opennlp/fieldspring/tr/resolver/WeightedMinDistResolver.java:173-185 | one iteration of the document loop keeps the invariant of `initializeSyntheticToponyms` |
| Resolver.WeightedMinDistResolver.InitializeSyntheticToponyms | src/main/java/opennlp/fieldspring/tr/resolver/WeightedMinDistResolver.java:169-186 | outside the ADDTOPO mode nothing changes; in it, every document gets a synthetic toponym (new ones fresh and numbered from the next index), old ones are kept, and the lexicon gains exactly their forms |
| Resolver.WeightedMinDistResolver.BuildTrainingLexicon | src/main/java/opennlp/fieldspring/tr/resolver/WeightedMinDistResolver.java:77-78 | the lexicon holds exactly the corpus forms with candidates and the synthetic forms, and every type gets lists of its size |
| Resolver.WeightedMinDistResolver.Iterate | src/main/java/opennlp/fieldspring/tr/resolver/WeightedMinDistResolver.java:111-114 | the weights become `numIterations` passes of `updateWeights` from the first weights, with every list keeping its length |
| Resolver.WeightedMinDistResolver.Train | src/main/java/opennlp/fieldspring/tr/resolver/WeightedMinDistResolver.java:72-115 | the lexicon, synthetic toponyms and first lists are set up as above, and the weights are `numIterations` specified passes from them |
| Resolver.WeightedMinDistResolver.ExtendIndex | src/main/java/opennlp/fieldspring/tr/resolver/WeightedMinDistResolver.java:123-124 | the lexicon keeps its indices and gains the corpus forms and the synthetic forms; expanding the weights gives a table every pass fits |
| Resolver.WeightedMinDistResolver.PrepareWeights | src/main/java/opennlp/fieldspring/tr/resolver/WeightedMinDistResolver.java:118-125 | an untrained resolver is trained on the corpus; a trained one keeps its lexicon indices and its weights are the expansion of the old ones |
| Resolver.WeightedMinDistResolver.Disambiguate | src/main/java/opennlp/fieldspring/tr/resolver/WeightedMinDistResolver.java:117-128 | the weights are prepared as above; the final pass gives every visited toponym its specified selection; every toponym of the corpus keeps its old selection or gets one in range; a toponym that occurs once gets its document's winner when it has one |
| Lexicons.Get | src/main/java/opennlp/fieldspring/tr/resolver/WeightedMinDistResolver.java:209 | the index of a known form, whose entry is that form; -1 for an unknown form |
| Lexicons.GetOrAdd | src/main/java/opennlp/fieldspring/tr/resolver/WeightedMinDistResolver.java:184 | a known form keeps its index and the lexicon; a new form is appended with the next index; every other index is kept |
| Lexicons.AddToponyms | src/main/java/opennlp/fieldspring/tr/resolver/WeightedMinDistResolver.java:123 | the lexicon keeps its indices and gains exactly the forms of the corpus's toponyms that have candidates |
| Lexicons.BuildLexicon | src/main/java/opennlp/fieldspring/tr/resolver/WeightedMinDistResolver.java:77 | a fresh lexicon holds exactly the forms of the corpus's toponyms that have candidates |
| Text.ToponymsOfMembers | src/main/java/opennlp/fieldspring/tr/resolver/WeightedMinDistResolver.java:192-193 | the toponyms of a sentence are exactly its toponym tokens |
| Signatures.Filter | src/main/java/opennlp/fieldspring/tr/eval/SignatureEvaluator.java:87 | filtering never lengthens a form |
| Signatures.FilterKept | src/main/java/opennlp/fieldspring/tr/eval/SignatureEvaluator.java:87 | a filtered form holds only the characters a-z and 0-9 |
| Signatures.FilterCounts | src/main/java/opennlp/fieldspring/tr/eval/SignatureEvaluator.java:87 | filtering keeps every occurrence of a-z and 0-9 and drops every other character, upper case and punctuation included |
| Signatures.FilterConcat | src/main/java/opennlp/fieldspring/tr/eval/SignatureEvaluator.java:87 | filtering a concatenation filters its parts |
| Signatures.FilterKeepsKept | src/main/java/opennlp/fieldspring/tr/eval/SignatureEvaluator.java:87 | a string of kept characters is left as it is |
| Signatures.FilterIdempotent | src/main/java/opennlp/fieldspring/tr/eval/SignatureEvaluator.java:87 | filtering twice is filtering once |
| Signatures.Signature | src/main/java/opennlp/fieldspring/tr/eval/SignatureEvaluator.java:248-253 | the signature is the buffer's slice from `w` before the centre to `w` after it, clipped at both ends; it is in bounds and at most `2w` long |
| Signatures.BufferKept | src/main/java/opennlp/fieldspring/tr/eval/SignatureEvaluator.java:87 | the context buffer holds only a-z and 0-9 |
| Signatures.BufferPrefix | src/main/java/opennlp/fieldspring/tr/eval/SignatureEvaluator.java:63-88 | the buffer of a prefix of the tokens is a prefix of the buffer |
| Signatures.PickFormAtStart | src/main/java/opennlp/fieldspring/tr/eval/SignatureEvaluator.java:70-87 | each recorded toponym's filtered form sits in the buffer at its recorded start: the start is the buffer length before its form is appended |
| Signatures.LocationOf | src/main/java/opennlp/fieldspring/tr/eval/SignatureEvaluator.java:72-83 | on the gold side, the gold candidate, with a gold index past the end standing for the last candidate; on the predicted side, the selected candidate, and null exactly for a toponym without candidates |
| Signatures.RecordDocsShape | src/main/java/opennlp/fieldspring/tr/eval/SignatureEvaluator.java:52-104 | recording a whole side keeps every gold key located and a candidate list for every predicted key |
| Signatures.SidesWalkable | src/main/java/opennlp/fieldspring/tr/eval/SignatureEvaluator.java:129-132 | the gold and predicted tables that `evaluate` records can be joined |
| Signatures.ValidSelectionsLocatable | src/main/java/opennlp/fieldspring/tr/eval/SignatureEvaluator.java:67-83 | with selections in range, every predicted toponym can be recorded |
| Signatures.PredictionRecordable | src/main/java/opennlp/fieldspring/tr/eval/SignatureEvaluator.java:131-132 | the current selections of a predicted corpus with selections in range let the predicted side be recorded |
| Signatures.NoneCloserMeans | src/main/java/opennlp/fieldspring/tr/eval/SignatureEvaluator.java:226-229 | the loop of `isClosestMatch` finds no closer candidate exactly when no candidate is strictly closer |
| Signatures.IsClosestMatchMeans | src/main/java/opennlp/fieldspring/tr/eval/SignatureEvaluator.java:220-231 | `isClosestMatch` holds exactly when there is a prediction and no candidate is strictly closer to the gold location than it |
| Signatures.ClosestIndexIsFirstClosest | src/main/java/opennlp/fieldspring/tr/eval/SignatureEvaluator.java:233-246 | `getClosestMatch` is null exactly when every candidate is at an infinite distance, the empty list included; otherwise it is the first candidate at the least distance |
| Signatures.ClosestMatchIsClosest | src/main/java/opennlp/fieldspring/tr/eval/SignatureEvaluator.java:233-246 | the closest match passes `isClosestMatch` |
| Signatures.ClosestMatchFound | src/main/java/opennlp/fieldspring/tr/eval/SignatureEvaluator.java:233-246 | a located gold location always has a closest match among a non-empty list of located candidates |
| Signatures.StepEffect | src/main/java/opennlp/fieldspring/tr/eval/SignatureEvaluator.java:136-189 | scoring one gold signature counts its outcome, and records a distance exactly when its outcome calls for one |
| Signatures.WalkTally | src/main/java/opennlp/fieldspring/tr/eval/SignatureEvaluator.java:136-189 | walking distinct gold signatures counts one true positive per true-positive outcome, one false positive and one false negative per mismatch, one false negative per missing prediction, and no instances |
| Signatures.WalkDistances | src/main/java/opennlp/fieldspring/tr/eval/SignatureEvaluator.java:141-169 | the walk records one distance per signature that records one |
| Signatures.OutcomesPartition | src/main/java/opennlp/fieldspring/tr/eval/SignatureEvaluator.java:136-189 | every gold signature has exactly one outcome, and outside oracle mode none is left unscored |
| Signatures.EvaluateCounts | src/main/java/opennlp/fieldspring/tr/eval/SignatureEvaluator.java:136-196 | in any walk order, each gold signature gives exactly one of TP, FP-and-FN or FN (never nothing outside oracle mode); each predicted signature the gold side lacks gives one FP; one distance is recorded per recording signature |
| Signatures.OracleMatch | src/main/java/opennlp/fieldspring/tr/eval/SignatureEvaluator.java:158-169 | in oracle mode a matched signature with candidates is a true positive, and the recorded distance is the one from the gold location to its closest candidate |
| Signatures.CountUnmatched | src/main/java/opennlp/fieldspring/tr/eval/SignatureEvaluator.java:190-196 | adds one false positive per predicted signature the gold side lacks |
| Signatures.ScanToken | src/main/java/opennlp/fieldspring/tr/eval/SignatureEvaluator.java:65-86 | one token records the toponym the side includes, if any |
| Signatures.ScanSentence | src/main/java/opennlp/fieldspring/tr/eval/SignatureEvaluator.java:63-88 | the token loop builds the sentence's buffer and its recorded toponyms |
| Signatures.SignatureEvaluator.constructor | src/main/java/opennlp/fieldspring/tr/eval/SignatureEvaluator.java:27-30 | the evaluator holds the gold corpus and the oracle flag, with empty candidate and correct-location tables and no distance report |
| Signatures.SignatureEvaluator.EvaluateOwn | src/main/java/opennlp/fieldspring/tr/eval/SignatureEvaluator.java:36-38 | `evaluate()` returns no report |
| Signatures.SignatureEvaluator.RecordSentence | src/main/java/opennlp/fieldspring/tr/eval/SignatureEvaluator.java:89-99 | each recorded toponym's key (signature plus document id) maps to its location, its candidates on the predicted side, and its toponym; later keys overwrite earlier ones |
| Signatures.SignatureEvaluator.ScanAndRecord | src/main/java/opennlp/fieldspring/tr/eval/SignatureEvaluator.java:57-99 | one sentence is scanned into a buffer and its recorded toponyms, which are then put in the tables |
| Signatures.SignatureEvaluator.RecordDocument | src/main/java/opennlp/fieldspring/tr/eval/SignatureEvaluator.java:57-100 | every sentence of a document is recorded in order |
| Signatures.SignatureEvaluator.Populate | src/main/java/opennlp/fieldspring/tr/eval/SignatureEvaluator.java:52-104 | the tables of one side are every document recorded in order, starting from empty location and toponym tables |
| Signatures.SignatureEvaluator.ScoreSignature | src/main/java/opennlp/fieldspring/tr/eval/SignatureEvaluator.java:137-188 | scoring one gold signature updates the report, the distance report and the correct locations as specified |
| Signatures.SignatureEvaluator.WalkGold | src/main/java/opennlp/fieldspring/tr/eval/SignatureEvaluator.java:136-189 | the gold signatures are each visited once, in some order, and the report, distances and correct locations are that walk |
| Signatures.SignatureEvaluator.RecordSides | src/main/java/opennlp/fieldspring/tr/eval/SignatureEvaluator.java:129-132 | the gold side is recorded, then the predicted side from the current selections; the candidate table ends as the predicted side leaves it |
| Signatures.SignatureEvaluator.Evaluate | src/main/java/opennlp/fieldspring/tr/eval/SignatureEvaluator.java:123-218 | the tables are recorded; the report is a walk over every gold signature once, plus one FP per unmatched predicted signature; so `Signatures.EvaluateCounts` applies to it |
| SharedNE.NearestCandidateIsFirstNearest | src/main/java/opennlp/fieldspring/tr/eval/SharedNEEvaluator.java:69-77 | the index is -1 exactly when no gold candidate's centre is at a finite distance (no candidates included); otherwise it is the first candidate whose centre is nearest to the selected region |
| SharedNE.HitMeaning | src/main/java/opennlp/fieldspring/tr/eval/SharedNEEvaluator.java:65-88 | a pair is a true positive exactly when the predicted toponym has a selection and the gold index is the first candidate nearest to the selected region |
| SharedNE.TallyCounts | src/main/java/opennlp/fieldspring/tr/eval/SharedNEEvaluator.java:81-88 | scoring never touches FP or FN; it adds one TP per hit and exactly one TP-or-instance per pair |
| SharedNE.EvaluateCounts | src/main/java/opennlp/fieldspring/tr/eval/SharedNEEvaluator.java:44-94 | `evaluate` has no FP or FN, one TP per hit, and TP plus instances equal to the number of aligned pairs |
| SharedNE.LockstepPrefix | src/main/java/opennlp/fieldspring/tr/eval/SharedNEEvaluator.java:51-56 | the walk stops as soon as either corpus runs out: only the first documents of each side play a part |
| SharedNE.IgnoresSurplus | src/main/java/opennlp/fieldspring/tr/eval/SharedNEEvaluator.java:51 | predicted documents beyond the end of the gold corpus are never looked at |
| SharedNE.NearestIndex | src/main/java/opennlp/fieldspring/tr/eval/SharedNEEvaluator.java:69-77 | the candidate loop returns the first candidate whose centre is strictly nearest, or -1 |
| SharedNE.ScoreToponym | src/main/java/opennlp/fieldspring/tr/eval/SharedNEEvaluator.java:64-88 | one pair is judged and counted: TP on a hit, an instance otherwise, including when there is no selection |
| SharedNE.ScoreSentence | src/main/java/opennlp/fieldspring/tr/eval/SharedNEEvaluator.java:63-89 | the toponym pairs of two sentences are scored in order |
| SharedNE.ScoreDocument | src/main/java/opennlp/fieldspring/tr/eval/SharedNEEvaluator.java:56-90 | the sentence pairs of two documents are scored in lockstep |
| SharedNE.SharedNEEvaluator.constructor | src/main/java/opennlp/fieldspring/tr/eval/SharedNEEvaluator.java:32-34 | the evaluator holds the gold corpus |
| SharedNE.SharedNEEvaluator.ScoreDocumentAt | src/main/java/opennlp/fieldspring/tr/eval/SharedNEEvaluator.java:51-90 | one more document pair carries the tally over the first documents to one more |
| SharedNE.SharedNEEvaluator.Evaluate | src/main/java/opennlp/fieldspring/tr/eval/SharedNEEvaluator.java:44-94 | the report is the lockstep tally over as many documents as the shorter corpus has, with the predicted selections as they are; `SharedNE.EvaluateCounts` gives its counts |
| SharedNE.SharedNEEvaluator.EvaluateOwn | src/main/java/opennlp/fieldspring/tr/eval/SharedNEEvaluator.java:38-40 | `evaluate()` scores the gold corpus against itself |
| SharedNE.SharedNEEvaluator.EvaluateDefault | src/main/java/opennlp/fieldspring/tr/eval/SharedNEEvaluator.java:97-99 | `evaluate(pred)` is `evaluate(pred, false)` |
| Accuracy.TallyCounts | src/main/java/opennlp/fieldspring/tr/eval/AccuracyEvaluator.java:21-35 | scoring never touches FP or FN; the TPs are the gold toponyms whose selected index is the gold index; each gold toponym adds exactly one TP or instance, and other toponyms add nothing |
| Accuracy.TallyConcat | src/main/java/opennlp/fieldspring/tr/eval/AccuracyEvaluator.java:21-35 | scoring a concatenation is scoring its parts one after the other |
| Accuracy.ScoreToponyms | src/main/java/opennlp/fieldspring/tr/eval/AccuracyEvaluator.java:23-32 | the toponym loop of one sentence is the specified tally |
| Accuracy.AccuracyEvaluator.constructor | src/main/java/opennlp/fieldspring/tr/eval/AccuracyEvaluator.java:12-14 | the evaluator holds the corpus |
| Accuracy.AccuracyEvaluator.Evaluate | src/main/java/opennlp/fieldspring/tr/eval/AccuracyEvaluator.java:17-37 | the report is the tally over every toponym of the corpus in order |
| Accuracy.AccuracyEvaluator.EvaluatePred | src/main/java/opennlp/fieldspring/tr/eval/AccuracyEvaluator.java:40-42 | `evaluate(pred, useSelected)` returns no report whatever it is given |
| Accuracy.EvaluateCounts | src/main/java/opennlp/fieldspring/tr/eval/AccuracyEvaluator.java:17-37 | `evaluate()` has no FP or FN, TP equal to the gold toponyms whose selection is right, and TP plus instances equal to the number of gold toponyms |
| Geometry.FromDegrees | src/main/java/opennlp/fieldspring/tr/topo/RectRegion.java:42-47 | a box from degrees has ordered latitude (longitude) bounds exactly when the degrees are ordered |
| Geometry.FromCoordinates | src/main/java/opennlp/fieldspring/tr/topo/RectRegion.java:49-51 | the south-west corner is the first representative and the north-east corner the third |
| Geometry.Center | src/main/java/opennlp/fieldspring/tr/topo/RectRegion.java:57-60 | the centre of a box is halfway between its latitude bounds and halfway between its longitude bounds, and lies within ordered bounds |
| Geometry.Representatives | src/main/java/opennlp/fieldspring/tr/topo/RectRegion.java:95-102 | a box has exactly four representatives |
| Geometry.SetCenter | src/main/java/opennlp/fieldspring/tr/topo/RectRegion.java:62-63 | setting the centre of a box changes neither its centre nor its representatives |
| Geometry.SetRepresentatives | src/main/java/opennlp/fieldspring/tr/topo/RectRegion.java:104-106 | setting the representatives of a box changes neither its centre nor its representatives |
| Geometry.AsWrittenWrappedBoxContainsEverything | src/main/java/opennlp/fieldspring/tr/topo/RectRegion.java:75-76 | as written, a box that wraps past +-180 degrees contains every longitude of [-PI, PI] within its latitude bounds |
| Geometry.AsWrittenContainsGreenwichInPacificBox | src/main/java/opennlp/fieldspring/tr/topo/RectRegion.java:75-76 | as written, the box from 170 to -170 degrees of longitude contains longitude 0, which the intended test excludes |
| Geometry.ContainsRadiansMeaning | src/main/java/opennlp/fieldspring/tr/topo/RectRegion.java:68-77 | corrected test: a latitude outside the bounds is never contained; an ordinary box holds exactly its longitude interval; a wrapped box holds exactly the longitudes outside the gap it goes around |
| Geometry.ContainsAgreesUnlessWrapped | src/main/java/opennlp/fieldspring/tr/topo/Region.java:36-38 | `contains`, as written and as intended, agree on every box that does not wrap |
| Geometry.RectContainsItsCorners | src/main/java/opennlp/fieldspring/tr/topo/Region.java:36-38 | every corner of a box with ordered latitudes and longitudes in [-PI, PI] lies in the box, as written and as intended |
| Geometry.RectContainsCenter | src/main/java/opennlp/fieldspring/tr/topo/Region.java:36-38 | a box with ordered bounds contains its centre, as written and as intended |
| Geometry.DegreesAsWrittenBreakRoundTrip | src/main/java/opennlp/fieldspring/tr/topo/Region.java:40-54 | as written, a box rebuilt from its degree accessors is not the box |
| Geometry.DegreesRoundTrip | src/main/java/opennlp/fieldspring/tr/topo/Region.java:40-54 | corrected accessors: a box rebuilt from its degrees is the box, and a box built from degrees reports those degrees |
| Geometry.MinPairDistanceIsMinimum | src/main/java/opennlp/fieldspring/tr/topo/Region.java:58-65 | the nested loop's minimum is at most every pairwise distance, is attained when both lists are non-empty, and is +Infinity exactly when either is empty |
| Geometry.DistanceIsLeastRepresentativeDistance | src/main/java/opennlp/fieldspring/tr/topo/Region.java:56-67 | `distance(Region)` is at most every distance between representatives, is attained by some pair when both have representatives, and is +Infinity exactly when either has none |
| Geometry.DistanceSymmetric | src/main/java/opennlp/fieldspring/tr/topo/Region.java:56-67 | `distance(Region)` is symmetric whenever the coordinate distance is |
| Geometry.DistanceToCoordinateIsLeast | src/main/java/opennlp/fieldspring/tr/topo/Region.java:69-78 | `distance(Coordinate)` is the least distance of a representative, attained, and +Infinity exactly for no representatives |
| Geometry.DistanceInKmCases | src/main/java/opennlp/fieldspring/tr/topo/Region.java:80-94 | between two single-representative regions the result is the centre-to-centre kilometre distance; between two boxes it is finite and is 6372.8 times the least corner-to-corner distance |
| Folds.MinAllIsMinimum | src/main/java/opennlp/fieldspring/tr/topo/Region.java:69-78 | the running minimum from +Infinity is a lower bound of the list, is attained when the list is not empty, and is +Infinity exactly for the empty list |

## Left out

- Tables.UpdatedWeightsNormal: weights and distances are exact reals, not doubles. The sum of a type's weights is exactly its number of candidates, where Java's doubles round. Overflow of a total past `Double.MAX_VALUE` to +Infinity is not modelled.
- Scoring.Weighted: a weighted distance whose weights are NaN or whose product is zero (+Infinity or NaN in Java) is modelled as +Infinity. Both compare below nothing, as in Java.
- Tables.Ratio: the NaN of a zero sum is kept as `None`. Java's `+Infinity` for a positive count over a zero sum cannot arise, because every sum is the total of its counts (`Tables.UpdatedTallyConsistent`).
- Resolver.WeightedMinDistResolver.Train: reading a weights file (WeightedMinDistResolver.java:84-107) is left out, so `Train` passes no file. File weights are still modelled through the `file` parameter of `InitializeCountsAndWeights` and `NewRows`, which use a file list only when it is non-empty (WeightedMinDistResolver.java:219-221).
- Resolver.WeightedMinDistResolver.constructor: the file and log-path parameters are dropped. So is the `System.exit` when a weights file comes without a log path (WeightedMinDistResolver.java:58-61).
- Resolver.DocumentCoord: the WEIGHTED mode (WeightedMinDistResolver.java:33, WeightedMinDistResolver.java:222-224, WeightedMinDistResolver.java:228-240) is left out, because the source marks it not implemented and it uses inverse floating-point distances. The modes are `No` and `AddTopo`.
- Resolver.WeightedMinDistResolver.Disambiguate: the backoff to `DocDistResolver` or `RandomResolver` (WeightedMinDistResolver.java:129-140) is left out. Those resolvers are not part of this model, and one of them is random. They run without overwriting selections, so they can only fill toponyms that the final pass left unselected.
- Resolver.WeightedMinDistResolver.Disambiguate: the winner is stated only for a toponym object that occurs once in the pass. A toponym met twice gets the selection of its last occurrence. The full pass is stated by `Tables.SelectInCorpus`, but no per-toponym lemma covers that case.
- Resolver.WeightedMinDistResolver.Disambiguate: `KnownFit` demands that every toponym of a form the trained lexicon knows fits the trained weights. Java throws when a later corpus has a known form with more candidates.
- Resolver.CorpusAgrees: this precondition of `Train` and `Disambiguate` demands that all toponyms of one form have the same number of candidates. Java also accepts a later instance with fewer candidates than the first, which reads only a prefix of the type's weights. Java throws on an instance with more.
- Resolver.WeightedMinDistResolver.InitializeCountsAndWeights: `AllKnown` demands that every visited form with candidates is in the lexicon. Java prints to standard error (WeightedMinDistResolver.java:210-212) and then throws on index -1. The printing is left out.
- Resolver.WeightedMinDistResolver.UpdateWeights: Java updates the count lists in place. The model returns the new counts and keeps the weights in the resolver's field.
- Resolver.WeightedMinDistResolver.Iterate: the progress line printed per iteration (WeightedMinDistResolver.java:112) is left out.
- Resolver.WeightedMinDistResolver.CheckCandidate: Java compares toponyms with `equals` (WeightedMinDistResolver.java:395). The model uses object identity, because the toponym classes are not part of this model.
- Resolver.WeightedMinDistResolver.FinalDisambiguationStep: the ghost set `S` only names the toponyms whose selected index may change. The Java returns the same corpus it was given, which the model does not return.
- Signatures.SignatureEvaluator.Evaluate: the `errors.txt` writer (SignatureEvaluator.java:198-215) is file I/O and is left out, with the per-name error lists it writes (SignatureEvaluator.java:144-147, SignatureEvaluator.java:164-167) and its `System.exit`.
- Signatures.SignatureEvaluator.WalkGold: Java visits the gold signatures in the iteration order of a hash map. The model returns that order as the ghost `order`, and every stated count holds for any order.
- Signatures.SignatureEvaluator.Evaluate: in oracle mode it demands located candidates (`CorpusLocated`). Java would throw on a null closest match, which arises when every candidate has no representatives.
- Signatures.TokenLocatable: this demands that a gold toponym with a gold index has a candidate. Java throws at SignatureEvaluator.java:76 when it has none.
- Text.SelectionsValid: this demands that every selected index is below the candidate count. That excludes a predicted toponym with no candidates and a non-negative selected index, for which Java records a null location at SignatureEvaluator.java:79-82. It also excludes a selected index past the candidates, for which Java throws.
- SharedNE.SharedNEEvaluator.Evaluate: `Aligned` is the Java `assert` at SharedNEEvaluator.java:62. With assertions disabled, Java throws when a predicted sentence has fewer toponyms, and ignores the surplus when it has more.
- Lexicons: the `Lexicon` class and `TopoUtil` are not part of this model. The lexicon is modelled from how the resolver uses it: `get` gives -1 for an unknown form, and `getOrAdd` appends.
- Geometry: `Coordinate.distance`, `Coordinate.distanceInKm` and the resolver's `DistanceTable` are spherical trigonometry that is not part of this model. They are the parameters `cd`, `cdKm` and `dist`. `dist` is assumed non-negative. `Geometry.DistanceSymmetric` assumes symmetry where it needs it.
- Geometry.Points: the region subclasses other than `RectRegion` are not part of this model. They are given by their centre and representatives.
- Geometry.Pi: `Math.PI` is the decimal 3.141592653589793 as an exact real.
- Reports: `Report` and `DistanceReport` are not part of this model. They are four counters and a list of distances. Precision, recall and the distance statistics are left out.
- Resolver.Digits: the document index is an unbounded `nat`, so the wrap-around of a 32-bit `int` after 2^31 documents is not modelled. Counts and sums are likewise unbounded. They stay below the number of toponyms in the corpus (`Tables.VoteInCorpusBounded`).

## Findings

| source | as written | input that shows it | evidently intended | confidence | as-written member | corrected member |
|---|---|---|---|---|---|---|
| src/main/java/opennlp/fieldspring/tr/topo/RectRegion.java:75-76 | a box that wraps past +-180 degrees tests `lng >= maxLng && lng <= PI` or `lng >= -PI && lng <= minLng`, which covers every longitude | `fromDegrees(-10, 10, 170, -170)` and the coordinate (0, 0): reported as contained, though the box spans 170 to -170 degrees across the antimeridian | `lng >= minLng && lng <= PI` or `lng >= -PI && lng <= maxLng` | not executed | Geometry.ContainsRadiansAsWritten, Geometry.AsWrittenContainsGreenwichInPacificBox | Geometry.ContainsRadians, Geometry.ContainsRadiansMeaning, Geometry.ContainsIntended |
| src/main/java/opennlp/fieldspring/tr/topo/Region.java:40-54 | `get*Degrees` multiply the radian bound by PI/180 | a box with every bound at 1 radian reports about 0.01745 "degrees" instead of about 57.3; rebuilding it with `fromDegrees` does not give the box back | multiply by 180/PI, as `RectRegion.toString` does | not executed | Geometry.MinLatDegreesAsWritten, Geometry.DegreesAsWrittenBreakRoundTrip | Geometry.MinLatDegrees, Geometry.DegreesRoundTrip |
