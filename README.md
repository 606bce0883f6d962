# Notion productivity scoring, modelled in Dafny

This project models the productivity service of `ms-productivity`
(`NotionProductivityServiceImpl`). The service fetches a Notion task database
and keeps the items whose "Feito" (done) checkbox is ticked. It counts, for the
completed items and for all items, how many have the priority URGENTE,
IMPORTANTE or SEM_PRESSA. Each count triple becomes a weighted number of points.
The two point totals and the two list sizes go into a productivity entity, which
is saved. The caller gets back code 200 (OK), or code 404 with status
BAD_REQUEST when no database could be fetched.

Files:

- `java_lang.dfy` (module `JavaLang`): null as `Option`, the one exception the
  code can raise (`ArithmeticException`) as `Result`, and Java `int`
  arithmetic: 32-bit wrap-around, and division that truncates toward zero and
  throws on a zero divisor.
- `notion_items.dfy` (module `NotionItems`): items, classification of a
  priority name (blank, one of the three enum names after upper-casing, or
  unmatched), the order-preserving "done" filter and per-class counts, with
  their properties (subsequence, multiplicities, partition, order-independence,
  monotonicity).
- `scoring.dfy` (module `Scoring`): the counting loop of
  `extractPriorityItems` proved against the count function, the weighted points
  of `extractPointsItems` in Java arithmetic, and `calculateProductivity`,
  including the division that throws when the total points are zero.
- `productivity_service.dfy` (module `ProductivityService`): the response
  builders, the empty-headers guard of `findNotionDatabase`, the entity class
  `NotionDatabaseProductivity`, and the service class, whose methods
  `CreateProductivityModel`, `Save` and `Calculate` update objects in place.

The priority weights come from an enum whose file is not part of this model. They
are the `Weights` parameter, kept as a constant field of the service object.
The enum constants are assumed to print as their own names.

An empty item list might be expected to score zero without any division.
In the code, however, `calculateProductivity` always evaluates `(completed * 100) / total`
and then discards the quotient (line 95). Any database whose items score zero
total points therefore makes `calculate` throw `ArithmeticException` before
anything is saved. This includes an empty database and one whose items all have
blank or unknown priorities. `Calculate` models that outcome as
`Err(ArithmeticException)`. `UnprioritisedItemsScoreZero` shows which inputs
reach it.

## Model

| member | source | states |
|---|---|---|
| `JavaLang.Div` | src/main/java/com/ms/productivity/services/impl/NotionProductivityServiceImpl.java:95 | Java `int` division throws ArithmeticException exactly when the divisor is zero; otherwise it gives the quotient truncated toward zero, wrapped to an `int` |
| `NotionItems.Completed` | src/main/java/com/ms/productivity/services/impl/NotionProductivityServiceImpl.java:81-84 | the completed items are no more than the input; every one is an input item with its checkbox ticked; every ticked input item is among them |
| `NotionItems.CompletedIsSubsequence` | src/main/java/com/ms/productivity/services/impl/NotionProductivityServiceImpl.java:81-84 | the filter keeps input order: its result is a subsequence of the input |
| `NotionItems.CompletedMultiplicity` | src/main/java/com/ms/productivity/services/impl/NotionProductivityServiceImpl.java:81-84 | each done item occurs in the result as often as in the input; an item that is not done does not occur |
| `NotionItems.CompletedPermutation` | src/main/java/com/ms/productivity/services/impl/NotionProductivityServiceImpl.java:81-84 | filtering is order-independent: permuted inputs give permuted results |
| `NotionItems.ClassifyIgnoresCase` | src/main/java/com/ms/productivity/services/impl/NotionProductivityServiceImpl.java:111-117 | priority matching ignores case: a name and its upper-cased form fall into the same class |
| `NotionItems.Count` | src/main/java/com/ms/productivity/services/impl/NotionProductivityServiceImpl.java:105-120 | a per-class count never exceeds the number of items |
| `NotionItems.CountAppend` | src/main/java/com/ms/productivity/services/impl/NotionProductivityServiceImpl.java:110-118 | counting a concatenation adds the counts of its parts |
| `NotionItems.CountPartition` | src/main/java/com/ms/productivity/services/impl/NotionProductivityServiceImpl.java:110-118 | every item falls into exactly one of urgent, important, unhurried, unmatched or blank: the five counts add up to the number of items |
| `NotionItems.CountPermutation` | src/main/java/com/ms/productivity/services/impl/NotionProductivityServiceImpl.java:110-118 | counts are invariant under any reordering of the items |
| `NotionItems.CompletedCountAtMost` | src/main/java/com/ms/productivity/services/impl/NotionProductivityServiceImpl.java:85-88 | in every class, the completed items count at most as many as all items |
| `Scoring.ExtractPriorityItems` | src/main/java/com/ms/productivity/services/impl/NotionProductivityServiceImpl.java:105-120 | the loop of three counters with its blank skip and three independent upper-case comparisons returns exactly the urgent, important and unhurried counts |
| `Scoring.PriorityCountsBounded` | src/main/java/com/ms/productivity/services/impl/NotionProductivityServiceImpl.java:105-120 | the result has three entries, each between 0 and the number of items, and their sum is at most the number of items |
| `Scoring.PriorityCountsAppend` | src/main/java/com/ms/productivity/services/impl/NotionProductivityServiceImpl.java:110-118 | one more item raises only the count of its own class, by one; an item with a blank or unknown priority raises none |
| `Scoring.PriorityCountsPermutation` | src/main/java/com/ms/productivity/services/impl/NotionProductivityServiceImpl.java:110-118 | the three counts do not depend on the order of the items |
| `Scoring.ExtractPointsItems` | src/main/java/com/ms/productivity/services/impl/NotionProductivityServiceImpl.java:99-103 | the weighted sum computed step by step in Java `int` is an `int` equal to the exact sum `c0*W_URGENTE + c1*W_IMPORTANTE + c2*W_SEM_PRESSA` wrapped once to 32 bits |
| `Scoring.PointsExact` | src/main/java/com/ms/productivity/services/impl/NotionProductivityServiceImpl.java:99-103 | with non-negative weights and no overflow the points are exactly the weighted sum, and not negative |
| `Scoring.CompletedPointsAtMostTotal` | src/main/java/com/ms/productivity/services/impl/NotionProductivityServiceImpl.java:85-93 | with non-negative weights and a total that fits in an `int`, the completed points lie between 0 and the total points |
| `Scoring.PointsPermutation` | src/main/java/com/ms/productivity/services/impl/NotionProductivityServiceImpl.java:85-93 | reordering the fetched items changes neither the total nor the completed points |
| `Scoring.UnprioritisedItemsCountZero` | src/main/java/com/ms/productivity/services/impl/NotionProductivityServiceImpl.java:110-118 | items that all have blank or unknown priorities (the empty list among them) have counts 0, 0, 0 |
| `Scoring.UnprioritisedItemsScoreZero` | src/main/java/com/ms/productivity/services/impl/NotionProductivityServiceImpl.java:85-95 | such items score 0 total points whatever the weights, which is the divisor at line 95 |
| `Scoring.CalculateProductivity` | src/main/java/com/ms/productivity/services/impl/NotionProductivityServiceImpl.java:85-98 | throws ArithmeticException exactly when the total points are zero; otherwise returns a map whose keys are exactly "Total Items" and "Completed Items", bound to the points of all items and of the completed items |
| `ProductivityService.SuccessProductivityResponse` | src/main/java/com/ms/productivity/services/impl/NotionProductivityServiceImpl.java:121-126 | the success response has code 200 and status OK |
| `ProductivityService.ErrorProductivityResponse` | src/main/java/com/ms/productivity/services/impl/NotionProductivityServiceImpl.java:128-133 | the failure response has code 404 and status BAD_REQUEST |
| `ProductivityService.FindNotionDatabase` | src/main/java/com/ms/productivity/services/impl/NotionProductivityServiceImpl.java:58-66 | empty headers give no database; otherwise the database is whatever the client returns |
| `ProductivityService.ScoreRecordBounds` | src/main/java/com/ms/productivity/services/impl/NotionProductivityServiceImpl.java:45-52 | a saved record has completedItems at most totalItems; with non-negative weights and no overflow, its productivity lies between 0 and its total |
| `ProductivityService.ScoreRecordPermutation` | src/main/java/com/ms/productivity/services/impl/NotionProductivityServiceImpl.java:45-52 | the saved record does not depend on the order of the fetched items |
| `ProductivityService.NotionDatabaseProductivity.constructor` | src/main/java/com/ms/productivity/services/impl/NotionProductivityServiceImpl.java:41 | a new entity has all five fields null |
| `ProductivityService.NotionProductivityServiceImpl.CreateProductivityModel` | src/main/java/com/ms/productivity/services/impl/NotionProductivityServiceImpl.java:68-78 | returns the same object, with productivity and total set to the map's "Completed Items" and "Total Items" values (null when absent), the two sizes and the save date set, and no other object changed |
| `ProductivityService.NotionProductivityServiceImpl.Save` | src/main/java/com/ms/productivity/services/impl/NotionProductivityServiceImpl.java:140-142 | the repository gains exactly one record, the entity's current field values, at its end |
| `ProductivityService.NotionProductivityServiceImpl.Calculate` | src/main/java/com/ms/productivity/services/impl/NotionProductivityServiceImpl.java:39-56 | no database: 404/BAD_REQUEST and nothing saved; zero total points: ArithmeticException and nothing saved; otherwise exactly one record is saved, with the completed and total points, the completed-list size, the all-items size and the clock value, and the answer is 200/OK |

## Left out

- The Notion HTTP client (`getNotionDatabase`) is not modelled: `Calculate` takes what it would return as the input `fetched`.
- The parameter lookups (`findBaseUrlNotion`, `findHeaderNotion`, `extractNotionHeaders`) are not modelled: `Calculate` takes the extracted headers as the input `headers`. The base URL is only passed on to the client, so it is dropped.
- `LocalDateTime.now()` is not modelled: the clock reading is the input `now`.
- The `log.error` call for an item without a priority is not modelled. The item is skipped, and a comment marks the spot.
- The Kafka field, which is never used, is not modelled.
- The persistence behind `repository.save` is not modelled: generated ids and failures are left out. The model appends a snapshot of the entity's five fields to the `repository` sequence.
- The `parallelStream` in `notionItemsCompleted` is modelled as a sequential filter. Collecting a parallel stream keeps the encounter order, so the result is the same.
- Null values inside an item (no properties, no "Feito", a null checkbox, no "Prioridade" or no select) would throw NullPointerException in the source. These are not modelled. A null priority name is modelled, and counts as blank.
- A database whose `items` list is null would make `notionItemsCompleted` throw NullPointerException out of `calculate` before anything is saved. This is not modelled: `NotionDatabase` always holds a list.
- `toUpperCase` and `isBlank` are modelled for ASCII only. Unicode case mappings (for example 'ı' to 'I') and Unicode space separators are left out.
- NotionItems.ToUpper is the locale-independent mapping. The source calls `toUpperCase()` with the JVM's default locale. Under a Turkish or Azeri locale, 'i' upper-cases to 'İ', so "importante" would match no priority there. That locale dependence is left out.
- The weight values of the priority enum are not modelled, because that file is not part of this model. They are a parameter.
- Scoring.ExtractPriorityItems: the counters are unbounded integers. They do not wrap at 2^31, because a Java list returned by the client holds fewer than 2^31 items.
- Scoring.CompletedPointsAtMostTotal: stated only when the weighted total fits in an `int`. Java `int` arithmetic wraps, so the ordering can fail for overflowing totals.
- ProductivityService.ScoreRecordBounds: the points ordering is stated under the same no-overflow condition as CompletedPointsAtMostTotal.
- The percentage computed at line 95 is modelled only for whether it throws. Its value is discarded in the source and is not stored.
- The other fields of `NotionDatabaseProductivity` and `ResponseHttpUtilsDTO` are not part of this model. Only the fields the service sets are modelled.
- `NotionDatabaseIntegration` and `NotionIntegrationDTO` are plain data holders without logic, and are not modelled.
