# Drug interaction analysis, analog search, contraindication catalogue and login

This project is a Dafny model of the core of a desktop drug reference application. It also proves properties of that model. The core has three parts, plus a login.

- **Interaction scoring** (`interactions.py`). Each drug's free-text pharmacology lines (targets, metabolising enzymes, side effects) are normalised and parsed into entries with a target, a role and a strength. Three detector passes score pairs of entries:
  - the metabolic pass: an inhibitor or inducer against a substrate on a shared enzyme;
  - the dynamical pass: a double blockade, or an agonist against a blocker, on a shared target;
  - the toxicity pass: shared danger words in the side effects.

  The engine caps the sum of the three scores to [0, 1] and classifies it as low, medium or high. With no mechanism found it synthesises fallback mechanisms, then adds extra warnings. It analyses every pair of a list of drugs, turning a failed pair into a placeholder. The report keeps the significant results, sorted by score.
- **Analog search** (`search_engine.py`). Drugs count as analogs when they share an active substance with the drug searched for. Each analog gets a similarity score from overlap, form, manufacturer and price proximity. Analogs are sorted, filtered by optional criteria, and compared side by side.
- **Catalogue helpers** (`database.py`). The splitter that turns a substance field into the `LIKE` parameters of the substance query. The sorted catalogue of distinct contraindications.
- **Login** (`user_auth.py`). A fixed table of two accounts, with login, logout and role queries.

Modules:
- `Wrappers`: `Option` and `Result`.
- `Text`: the Python `str` operations the code relies on.
- `Iteration`: set iteration, where Python leaves the order open.
- `Sorting`: Python's `sort`, as a permutation that is sorted under a total preorder.
- `PairSums`: sums and concatenations over two nested loops.
- `Normalization`, `EntryParser`, `Metabolic`, `Dynamical`, `Toxicity`, `Analyzer`, `Engine`, `Report`: the interaction core.
- `Catalog`: the `database.py` pieces.
- `Search`: the analog search.
- `Auth`: the login.

The database is an input:
- The engine reads a map from drug id to name and pharmacology.
- The search engine reads a `Database` whose fields are the three queries it makes.

The loops of the source are methods. Each is proved equal to a specification function. The lemmas about those functions state what the code promises: symmetry in the two drugs, bounds, if-and-only-if conditions, permutation and order.

## Model

| member | source | states |
|---|---|---|
| Text.Strip | interactions.py:26 | `strip()`: the result is the input without its leading and trailing whitespace, has none of its own, and is empty exactly when the input is all whitespace |
| Text.Lower | interactions.py:26 | `lower()`, as the model's one-to-one case mapping (see "## Left out"): every character is mapped on its own and the length is kept |
| Text.SplitOn | database.py:158 | `split(sep)`: at least one piece, and no piece holds a separator |
| Text.JoinSplit | database.py:158 | joining the pieces of a split with the separator gives the text back |
| Text.SplitAfterReplace | database.py:158 | replacing one separator by another before splitting is splitting on both |
| Text.StrippedPiecesMembers | database.py:394 | the kept pieces are exactly the non-blank pieces, stripped |
| Text.StripStripped | interactions.py:26 | `strip()` leaves a stripped string as it is, so it is idempotent |
| Text.Words | interactions.py:281 | `split()`: non-empty words without whitespace |
| Text.WordsConcat | interactions.py:281 | `split()`: the words, one after the other, are the text's non-whitespace characters in order, and there are none exactly when the text is all whitespace |
| Text.WordsSkipSpaces | interactions.py:281 | leading whitespace adds no word |
| Text.WordsCons | interactions.py:281 | a non-whitespace character in front starts a new first word before whitespace and otherwise extends the first word |
| Text.WordsOfJoin | interactions.py:281 | splitting words joined by single spaces gives the same words back |
| Text.JoinWordsStripped | interactions.py:36 | words joined by single spaces have no surrounding whitespace |
| Text.StripAround | interactions.py:36 | stripping a stripped text with whitespace around it gives the text |
| Text.NatToString | interactions.py:368 | `str(n)`: decimal digits with no leading zero |
| Text.NatToStringValue | interactions.py:368 | the digits of `str(n)` spell `n` |
| Text.NatToStringInjective | interactions.py:368 | different counts give different texts |
| Text.IntToString | interactions.py:414 | `str(i)`: not empty, with a minus sign exactly for negative numbers |
| Text.IntToStringValue | interactions.py:414 | `str(i)` read back with its sign is `i` |
| Text.ContainsAt | search_engine.py:92 | the `in` test holds exactly when the pattern occurs at some index |
| Text.ReplaceChar | database.py:393 | replacing one character by another maps each character and keeps the length |
| Iteration.Enumerate | interactions.py:197 | iterating over a set visits each element exactly once |
| Sorting.SortBy | interactions.py:586 | the sorted list is a permutation of its input, ordered under any total preorder |
| Sorting.Insert | interactions.py:586 | inserting adds exactly the one element |
| Sorting.InsertSorted | interactions.py:586 | inserting into a sorted list keeps it sorted |
| Sorting.StrLeIsTotalPreorder | database.py:396 | Python's string comparison is a total preorder |
| Sorting.StrLeAntisymmetric | database.py:396 | two strings each at most the other are equal |
| Sorting.SortedDistinctIncreasing | database.py:396 | a sorted list without repeats is strictly ascending |
| Sorting.DistinctCounts | database.py:395-396 | a list has no repeats exactly when every element occurs once in its multiset |
| Normalization.MaskChars | interactions.py:35 | every character outside a-z, 0-9, а-я, ё, space and hyphen becomes a space, and the rest are kept |
| Normalization.CollapseSpaces | interactions.py:36 | no two whitespace characters remain in a row, and only kept characters come out of kept characters |
| Normalization.CollapseSpacesWords | interactions.py:36 | `re.sub(r"\s+", " ", t)` is the words of `t` joined by single spaces, with one space in front when `t` starts with whitespace and one at the end when a word is followed by trailing whitespace |
| Normalization.CollapseUnpadded | interactions.py:36 | the same for a text that does not start with whitespace |
| Normalization.CollapseLeading | interactions.py:36 | the same for a text that starts with whitespace |
| Normalization.Cleanup | interactions.py:35-36 | the clean-up always yields a clean key: kept characters only, stripped, single spaces |
| Normalization.CleanupWords | interactions.py:35-36 | the clean-up is the masked text's words joined by single spaces |
| Normalization.CleanupKeepsWords | interactions.py:35-36 | the clean-up keeps exactly the masked text's words, in order |
| Normalization.CleanupOfCleanKey | interactions.py:35-36 | a clean key is a fixed point of the clean-up |
| Normalization.CleanupIdempotent | interactions.py:35-36 | cleaning twice is cleaning once |
| Normalization.Normalizer.Normalize | interactions.py:23-37 | blank text gives ""; otherwise the stripped, lower-cased text maps through the target table, then the effect table; failing both it is the masked text's words joined by single spaces, which is a clean key |
| Normalization.Normalizer.FuzzyMatch | interactions.py:39-46 | an empty key or no candidates give []; an error exactly for a cutoff outside [0, 1]; at most three results, each a candidate whose normalised form reaches the cutoff |
| Normalization.Normalizer.CandidateMap | interactions.py:43 | every candidate's normalised form is a key, and each key maps to a candidate with that normalised form |
| Normalization.Normalizer.DistinctKeys | interactions.py:44 | the listed keys are exactly the keys of the candidate map |
| Normalization.LookUpAll | interactions.py:46 | each match is replaced by its candidate, position by position |
| Normalization.CloseMatches | interactions.py:45 | at most three possibilities, each reaching the cutoff |
| Normalization.NotIdempotentOnSynonymValue | interactions.py:30-31 | `normalize` is not idempotent: "at1-рецептор" gives "AT1 receptor", which normalises again to "at1 receptor" |
| Normalization.NotIdempotentOnCleanedKey | interactions.py:32-36 | "Гипотензия!" cleans to "гипотензия", which is itself an effect synonym and normalises to "низкое давление" |
| EntryParser.KeywordsNonEmpty | interactions.py:123-127 | no deleted keyword is empty |
| EntryParser.FirstHit | interactions.py:109-112 | the index of the first key the text contains, or the end of the table |
| EntryParser.FirstClass | interactions.py:116-119 | the first role class, in table order, with a keyword in the text |
| EntryParser.StrengthOf | interactions.py:108-112 | the weight of the first strength keyword in the text, or 1.0 when it has none |
| EntryParser.RoleOf | interactions.py:115-119 | the role of the first class with a keyword in the text, or unknown when there is none |
| EntryParser.RemoveAll | interactions.py:130-132 | deleting keywords never lengthens the text |
| EntryParser.RemoveAllNoKeyword | interactions.py:130-132 | a text without keywords passes the deletion unchanged |
| EntryParser.TargetOf | interactions.py:135-139 | the target has at least two characters; it is "systemic" exactly when the normalised remainder is shorter than two characters, and otherwise it is that remainder |
| EntryParser.Parsed | interactions.py:100-141 | the parsed entry keeps the original line, and its target, role and strength are the ones the lower-cased line determines (`TargetOf`, `RoleOf`, `StrengthOf`) |
| EntryParser.FindStrength | interactions.py:108-112 | the strength loop computes `StrengthOf` |
| EntryParser.FindRole | interactions.py:115-119 | the role loop computes `RoleOf` |
| EntryParser.DeleteKeywords | interactions.py:130-132 | the deletion loop computes `RemoveAll` in the iteration order |
| EntryParser.ParseEntry | interactions.py:100-141 | `_parse_entry` computes `Parsed` |
| PairSums.PairSumSwap | interactions.py:203-204 | a sum over two nested loops does not depend on which list is outer, once the term is swapped |
| PairSums.PairSumNonNegative | interactions.py:203-204 | non-negative terms give a non-negative sum |
| PairSums.PairSumAdd | interactions.py:203-204 | the sum of a sum of terms is the sum of the two sums |
| PairSums.PairSumFilter | interactions.py:203-204 | a term that vanishes unless both entries satisfy a test sums over the entries that satisfy it |
| PairSums.PairSumCongruent | interactions.py:203-204 | the sum depends only on the term's values at pairs of members |
| PairSums.PairSumZeroIff | interactions.py:203-204 | the sum of non-negative terms is zero exactly when every term is zero |
| PairSums.PairFlatLength | interactions.py:203-204 | the number of appended items is the sum of the items per pair |
| PairSums.Filter | interactions.py:184-190 | the kept elements satisfy the test and come from the list |
| Metabolic.MetabolicTermCases | interactions.py:205-230 | a pair fires at most one branch, adding 0.4 or 0.3 times the acting entry's strength; the term is symmetric, non-negative, and zero exactly when no mechanism is reported |
| Metabolic.MetabolicTexts | interactions.py:210-230 | a pair reports one mechanism per branch fired and one comment per mechanism |
| Metabolic.MapEnzymes | interactions.py:184-190 | the map's keys are the targets of the entries, each mapped to its entries in order |
| Metabolic.SharedTargetsCommon | interactions.py:195 | every target the two drugs share is a key of both maps |
| Metabolic.VisitedAll | interactions.py:197-201 | once every shared enzyme is visited, the sum covers all same-target pairs |
| Metabolic.ScoreMetabolicPair | interactions.py:205-230 | the inner loop body adds the pair's term, mechanisms and comments |
| Metabolic.ScoreMetabolicRow | interactions.py:204-230 | the inner loop computes the row sum and the row's mechanisms |
| Metabolic.ScoreEnzyme | interactions.py:203-230 | the two nested loops of one enzyme compute the pair sum |
| Metabolic.VisitEnzyme | interactions.py:197-201 | "systemic" is skipped, and any other enzyme adds its pairs to the running totals |
| Metabolic.AnalyzeMetabolic | interactions.py:177-232 | the score is the sum over same-enzyme pairs not on "systemic"; there are as many mechanisms as branches fired, and one comment per mechanism |
| Dynamical.Min | interactions.py:255 | `min(x, y)` is at most both and equal to one of them |
| Dynamical.DynamicalTermCases | interactions.py:245-266 | the term is symmetric and non-negative; it is positive exactly on a shared target other than "systemic" that both entries block (as blocker or inhibitor), or where one is an agonist and the other a blocker; it is zero exactly when nothing is reported |
| Dynamical.ScoreDynamicalPair | interactions.py:242-266 | the inner loop body adds the pair's term, mechanism and comment |
| Dynamical.ScoreDynamicalRow | interactions.py:241-266 | the inner loop computes the row sum and the row's texts |
| Dynamical.AnalyzeDynamical | interactions.py:234-268 | the score is the sum over all pairs of target entries; the texts are appended row by row |
| Toxicity.ToxicityFindings | interactions.py:287-296 | only danger words are reported |
| Toxicity.ToxicitySymmetric | interactions.py:279-296 | the findings and the score do not depend on which drug is first |
| Toxicity.CollectWords | interactions.py:279-285 | the loop collects the words of every normalised effect |
| Toxicity.AnalyzeToxicity | interactions.py:270-303 | 0.3, one mechanism listing the shared danger words and one comment when there are any; nothing otherwise |
| Analyzer.ParseAll | interactions.py:149-153 | each line is parsed, in order |
| Analyzer.MetabolicProperties | interactions.py:177-232 | the metabolic score is non-negative and symmetric, and zero exactly when no mechanism is reported |
| Analyzer.DynamicalProperties | interactions.py:234-268 | the dynamical score is non-negative and symmetric, and zero exactly when no mechanism is reported |
| Analyzer.PassesSymmetric | interactions.py:155-175 | the uncapped score and the number of mechanisms do not depend on the order of the drugs |
| Analyzer.PassesZeroIff | interactions.py:155-175 | the uncapped score is zero exactly when no pass reports a mechanism |
| Analyzer.RunPasses | interactions.py:155-175 | the score is the sum of the passes capped at 1.0; one comment per mechanism; no mechanisms exactly when the score is 0; the metabolic texts come first, then the dynamical texts of every target pair, then one toxicity text exactly when the effects share a danger word |
| Analyzer.Analyze | interactions.py:143-175 | `analyze`: parses once and runs the passes, with the same guarantees: capped score, one comment per mechanism, no mechanism exactly at score zero, and the mechanisms hold the dynamical texts for every pair of parsed targets, followed by exactly one toxicity text when the effects share a danger word |
| Engine.DetermineLevel | interactions.py:388-394 | low exactly below 0.3, medium exactly in [0.3, 0.6), high exactly from 0.6 |
| Engine.LevelMonotone | interactions.py:388-394 | a higher score never gets a lower level |
| Engine.Clamp | interactions.py:344 | the result is in [0, 1], and a score already there is kept |
| Engine.ProfileLines | interactions.py:367-379 | one line per non-empty pharmacology list, giving its length; no lines exactly for a bare drug |
| Engine.FallbackMechanisms | interactions.py:362-386 | never empty; the single no-profile sentence exactly when both drugs are bare, otherwise a header and then the lines of A and of B |
| Engine.ExtraWarnings | interactions.py:396-401 | the toxicity risk exactly when the score exceeds 0.5, the hepatotoxicity warning exactly when the mechanisms mention the liver, at most two warnings |
| Engine.AddExtraWarnings | interactions.py:396-401 | the warnings are appended to the comments |
| Engine.AnalyzeInteraction | interactions.py:332-360 | an error exactly when a drug id is missing (A checked first); otherwise the names, the capped score and its level, the pass mechanisms or the fallback, and the comments with the extra warnings joined by "; " |
| Engine.DescribesSymmetric | interactions.py:332-360 | swapping the drugs keeps the score and the level |
| Engine.ToxicityRiskLast | interactions.py:348-356 | above 0.5 the comment text ends with the toxicity risk warning |
| Engine.JoinEndsWith | interactions.py:356 | a joined text ends with its last part |
| Engine.Row | interactions.py:407-409 | the pairs of one index with every later index, in order |
| Engine.AllPairsLength | interactions.py:405-407 | there are n(n-1)/2 pairs |
| Engine.PairsMembers | interactions.py:406-409 | the pairs are exactly an id with an id at a later index |
| Engine.Placeholder | interactions.py:413-420 | a failed pair scores 0 at the low level with no mechanisms |
| Engine.OutcomesAt | interactions.py:421 | the result at each index belongs to the pair at that index |
| Engine.CombinePair | interactions.py:410-420 | one pair: the analysis, or the placeholder carrying its error |
| Engine.CombinationRow | interactions.py:407-421 | the inner loop gives one outcome per pair of the row |
| Engine.AnalyzeCombination | interactions.py:403-422 | n(n-1)/2 results, one per pair in order, each the analysis or the placeholder |
| Report.ScoreGeIsTotalPreorder | interactions.py:586 | descending score order is a total preorder |
| Report.SuccessCount | interactions.py:579 | at most the number of analyses |
| Report.Significant | interactions.py:581-582 | no more kept results than successful analyses |
| Report.SignificantMembers | interactions.py:581-582 | a result is kept exactly when a successful analysis produced it above the low level |
| Report.AnalysesSummary | interactions.py:575-584 | the count is the number of pairs with both drugs in the store; every kept result scores at least 0.3 and carries its score's level |
| Report.Tally | interactions.py:578-582 | a success is counted, and kept when its level is not low |
| Report.ReportStep | interactions.py:577-582 | one pair is analysed and tallied, extending the count and the kept results by that analysis |
| Report.ReportRow | interactions.py:576-584 | the inner loop analyses one row of pairs and tallies it |
| Report.SummaryConcat | interactions.py:575-584 | the count and the kept results of two runs add up |
| Report.GenerateReport | interactions.py:567-592 | every pair is analysed; the total is the number that succeeded; the results are the significant ones, a permutation sorted by descending score |
| Catalog.SubstancePieces | database.py:158 | every piece is non-empty and stripped |
| Catalog.SubstancePiecesSplit | database.py:158 | the pieces are the stripped non-blank pieces between the '+' and ',' of the field, and none holds either separator |
| Catalog.SubstanceQuery | database.py:158-166 | no query exactly when no piece remains; otherwise one `%piece%` parameter per piece |
| Catalog.ItemsMembers | database.py:392-394 | an item is exactly a non-empty stripped piece of the text between delimiters |
| Catalog.AllItemsComplete | database.py:387-395 | every item of every row is in the catalogue |
| Catalog.AllItemsSound | database.py:387-395 | every catalogue entry is an item of some row |
| Catalog.UnifyDelimiters | database.py:392-393 | after the loop every ',', ';' and '+' is a ',', and every other character is unchanged |
| Catalog.SplitMasked | database.py:392-394 | splitting the unified text on ',' splits the original on every delimiter |
| Catalog.CollectItems | database.py:387-395 | the row loop collects the items of every row |
| Catalog.ItemsClean | database.py:392-395 | every entry is non-empty, stripped and free of delimiters |
| Catalog.SortedList | database.py:396 | `sorted` of a list without repeats: the same elements, strictly ascending |
| Catalog.GetAllContraindications | database.py:375-396 | exactly the items of the rows, each once, strictly ascending, each non-empty, stripped and free of delimiters |
| Search.LowerAll | search_engine.py:83 | every substance lower-cased, in order |
| Search.HasMatchingSubstance | search_engine.py:69-94 | true exactly when some substance of one drug equals or contains, or is contained in, some substance of the other |
| Search.MatchesAny | search_engine.py:89-94 | the outer loop finds a match exactly when one exists |
| Search.MatchesSome | search_engine.py:90-93 | the inner loop finds a match for one substance exactly when one exists |
| Search.SubstancesMatchSymmetric | search_engine.py:81-94 | matching does not depend on which drug is the main one |
| Search.SubstancesMatchSelf | search_engine.py:81-94 | a drug matches itself exactly when it lists a substance |
| Search.OverlapBonus | search_engine.py:125-130 | the overlap bonus is in [0, 0.3], and 0 when neither drug has several substances |
| Search.OverlapBonusFull | search_engine.py:125-130 | the full 0.3 exactly for the same several substances |
| Search.OverlapBonusSymmetric | search_engine.py:125-130 | the overlap bonus is symmetric |
| Search.SameSizeIntersection | search_engine.py:126-127 | an intersection as large as the union means equal sets |
| Search.PriceBonus | search_engine.py:141-146 | 0.2 exactly when both prices are positive and differ by less than 10% of the first; 0.1 exactly when the difference is between 10% and 30%; 0 otherwise |
| Search.PriceBonusAsymmetric | search_engine.py:142 | 100 against 110 earns 0.1, but 110 against 100 earns 0.2 |
| Search.CalculateSimilarity | search_engine.py:96-148 | the similarity is between 1.0 and 2.0 |
| Search.SimilarityToItself | search_engine.py:114-148 | a drug against itself scores 1.5, plus 0.3 for several substances and 0.2 for a positive price |
| Search.SimilarityNearlySymmetric | search_engine.py:114-148 | only the price bonus depends on the order of the drugs |
| Search.CandidatesMembers | search_engine.py:51-62 | a candidate is exactly a scored row that is not the main drug and shares a substance with it |
| Search.AnalogLeIsTotalPreorder | search_engine.py:65 | the key (-similarity, price) is a total preorder |
| Search.AnalogsOfProperties | search_engine.py:24-67 | no name match gives []; the analogs are sorted by that key; an analog is exactly a candidate of the first name match |
| Search.CollectCandidates | search_engine.py:50-62 | the loop, with its two `continue`s, computes the candidates |
| Search.FindAnalogs | search_engine.py:24-67 | `find_analogs` computes `AnalogsOf` |
| Search.FindAnalogsById | search_engine.py:150-164 | an unknown id gives []; otherwise the analogs of the record's name |
| Search.FilteredProperties | search_engine.py:188-213 | the filtered list keeps analogs in order, and keeps exactly the analogs that pass every supplied filter |
| Search.NoFiltersKeepAll | search_engine.py:188-213 | without filters every analog is kept |
| Search.SubsequenceWeaken | search_engine.py:211 | a kept selection stays one when the list grows |
| Search.ApplyFilters | search_engine.py:189-211 | the loop with its five filters computes the filtered list |
| Search.SearchWithFilters | search_engine.py:166-213 | the filtered analogs of the query |
| Search.RecordsMembers | search_engine.py:225-229 | at most one record per id, and a record is compared exactly when some id finds it |
| Search.CompareLeIsTotalPreorder | search_engine.py:232 | the key (substance, price) is a total preorder |
| Search.LoadRecords | search_engine.py:225-229 | the lookup loop keeps the records of the known ids, in order |
| Search.CompareDrugs | search_engine.py:215-234 | the records of the known ids, a permutation sorted by (substance, price) |
| Auth.InitialUsers | user_auth.py:11-14 | the table holds exactly "admin" and "user", with the roles of the same names |
| Auth.OnlyAdminIsAdmin | user_auth.py:11-14 | only the "admin" account has the admin role |
| Auth.UserAuth.constructor | user_auth.py:9-15 | the table is loaded and nobody is logged in |
| Auth.UserAuth.Login | user_auth.py:17-34 | success exactly for an existing account with its password; success logs that account in with its role; failure changes nothing |
| Auth.UserAuth.Logout | user_auth.py:36-38 | nobody is logged in afterwards, so neither role query holds |
| Auth.UserAuth.IsAdmin | user_auth.py:40-42 | true only for a logged-in user, and in a valid state exactly when "admin" is logged in |
| Auth.UserAuth.IsAuthenticated | user_auth.py:44-46 | true exactly when somebody is logged in |

## Notes on the code

The model follows the code in each of these points.
- `WEIGHTS` (interactions.py:306-310) are read only by scripts/tune_weights.py:4-6 and 32-37, which prints proposed new values. No pass of interactions.py reads them. `analyze` (interactions.py:142-175) adds up the three pass scores and caps the sum at 1.0.
- `normalize` is not idempotent. A synonym value or a cleaned key can normalise to something else. `Normalization.NotIdempotentOnSynonymValue` and `Normalization.NotIdempotentOnCleanedKey` give the inputs. Only the clean-up step on its own is idempotent (`Normalization.CleanupIdempotent`).
- verify_database.py:43-45 and reset_database.py:22 refer to a `drug_interaction_cache` table. `analyze_interaction` (interactions.py:332-360) neither reads nor writes it and computes every result afresh.

## Left out

- The user interface (`ui_main.py`, `login_dialog.py`), CSV export, and the maintenance scripts: they are presentation and data maintenance, not the core.
- The SQL queries of `database.py` are inputs. The engine reads a map from id to drug record. The search engine reads a `Database` value holding the results of `search_drugs_by_name`, `get_drugs_by_substance` and `get_drug_by_id`. The `LIKE` matching of SQLite is not modelled.
- `get_all_drugs` is an input: `Report.GenerateReport` takes the list of ids.
- Floating point: scores and prices are exact reals, with no rounding error.
- `round(score, 3)` in `analyze_interaction` is not modelled. The score is kept exact and the report sorts by the exact score.
- The `timestamp` of a result is left out. It is a clock read.
- `difflib`'s similarity ratio is a function parameter of `Normalization.Normalizer.FuzzyMatch`.
- Text.Lower: `Text.LowerChar` changes only A-Z and U+0400-U+042F, and `Text.UpperChar` only a-z and U+0430-U+045F; every other character is left as it is. Python's `lower()` and `upper()` map all of Unicode. For example, 'Ö', 'É' and 'Ґ' are lowered, 'İ' becomes "i̇" (two characters) and the Kelvin sign becomes 'k'. Consequences in the model:
  - `Search.FormBonus`, `Search.ManufacturerBonus` and `Search.Filtered` (search_engine.py:133, 137, 191, 195) treat "BÖHRINGER" and "Böhringer" as different, where Python treats them as equal.
  - `normalize` (interactions.py:26 and 35) turns "İbuprofen" into "buprofen", where Python gives "i buprofen".
  - The lowered text always has the length of the input.
- Python runs the keyword deletion, the enzyme loop and the joining of danger words in set order, which the language leaves open. The model takes the deletion order as a parameter and chooses the other orders nondeterministically.
- Metabolic.AnalyzeMetabolic: states the number of mechanisms and comments, not their texts, because the texts come out in the set order of the shared enzymes.
- Engine.AnalyzeInteraction: through `Engine.Describes`, states the number of mechanisms from the passes, not their texts, for the same reason.
- Engine.DescribesSymmetric: states the same number of mechanisms, not the same texts, for swapped drugs, because the texts name the drugs in order.
- Toxicity.AnalyzeToxicity: states that the mechanism lists the shared danger words in some order, because the source joins a set.
- Sorting.SortBy: does not state that the sort is stable, as Python's is.
- The 'antagonist' role that `_analyze_dynamical` compares against (interactions.py:261-262): `_parse_entry` never produces it, since it maps "antagonist" to the blocker role.
- Exceptions other than a missing drug id, such as database errors, are not modelled. The `except Exception` path of `analyze_combination` therefore carries only that error, and the broad `except` of `generate_report` skips only it.
- In-place appends and sorts of Python lists are modelled on values. Every list a method builds is its own local value.
- `UserAuth` stores its passwords in plain text. There is nothing to model beyond the comparison.
