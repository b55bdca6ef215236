# DataGemma RIG flow and Data Commons client, in Dafny

This project models the Retrieval Interleaved Generation (RIG) flow of DataGemma and the
deterministic part of its Data Commons client.

The RIG flow works in four steps:
1. A fine-tuned language model answers a question. Its answer embeds spans of the form
   `[__DC__("QUERY") --> "CLAIM"]`.
2. The flow finds these spans and groups the claims by query in order of first appearance.
3. It fetches one Data Commons record per distinct query, possibly in parallel. It then keeps,
   if asked to, only the records a validator accepts.
4. For each fetched and kept query, and each of its claims, it replaces the first occurrence of
   the closed span `[__DC__("QUERY") --> "CLAIM"]` by `[DC#id(...)]`. Spans of queries that were
   not fetched or not kept, and spans without the closing `]`, stay in the text. The rewritten
   span shows the fetched value with a footnote index and keeps the claim. It marks the value
   with `*` when the fetched value lies more than 5% away from the claimed one. The footnotes
   are listed in index order.

The model compares the fetched value with the claim's intended value: the claim's number times
its unit word's multiplier. `_flag_value` as written instead prints that product with `str()`
and reads it back. The two agree whenever `str()` prints the product positionally. They differ
when it prints an exponent (see Findings).

The client side covers three things:
- the request URL, built from the environment, the query and the API key;
- how one response becomes a point record or a table record;
- how a batch of lookups becomes a query-to-record dictionary whose records are numbered 1, 2, 3, ….

The modules:
- `Wrappers`: `Option` and `Result`.
- `Text`: Python's string operations as used here. These are `find`, `replace` (first occurrence
  and all occurrences), `strip`, `join`, repetition and integer formatting.
- `OrderedDict`: a Python `dict` as a key list plus a map. Assigning to an existing key keeps its
  place; a new key goes at the end.
- `Records`: the values the flow exchanges (`DataCommonsCall`, `LLMCall`, `FlowResponse`).
- `Markup`: the span pattern, scanned left to right as `re.findall` does, and the grouping of
  claims by query.
- `Discrepancy`: `_clean_float` and `_flag_value`, on exact reals.
- `Reconcile`: `_evaluate`. It is a method with nested loops, proved against folds over the
  claims, with lemmas about the footnotes and the numbering.
- `DataCommonsApi`: `_call_api`'s URL, `point`, `table`, `_src` and `calln`.
- `Rig`: `_call_dc` and `RIGFlow.query`.

Collaborators the core calls but does not define are parameters:
- the language model;
- the in-context prompt template;
- the HTTP GET and JSON decoding;
- `utils.round_float`;
- `csv.reader`;
- `DataCommonsCall.val_and_unit` and `footnote`;
- Python's `float()` on the fetched value;
- `validate.run_validation`.

Three behaviours of the code are kept exactly as written:
- A claim that reads as zero is always flagged, even when the fetched value is zero as well.
  `pct_diff` is set to 1.0 in that case, and the model follows the code.
- `_flag_value` removes only `" million"` from the claim, also for billion and trillion claims.
  This is harmless, as proved by `ReplaceMillionKeepsNumber`.
- The closing `]` of a span is optional in the pattern. A span without it is counted and
  fetched, but the rewrite looks for the closed form, so such a span stays in the text (see
  `UnclosedSpanNotTarget`).

## Model

| member | source | states |
|---|---|---|
| Text.ReplaceFirst | data_gemma/rig.py:150 | `str.replace(orig, new, 1)`: the text is unchanged when the pattern does not occur; otherwise exactly its leftmost occurrence is replaced |
| Text.StripIsInfix | data_gemma/datacommons.py:161 | `strip()` yields the infix of the query left after removing leading and trailing whitespace, and that infix starts and ends with a non-space |
| Text.StripIdempotent | data_gemma/datacommons.py:161 | stripping twice is stripping once |
| Text.NatToStringRoundTrip | data_gemma/rig.py:121 | the decimal text of a record id or footnote index reads back as that number |
| OrderedDict.Put | data_gemma/rig.py:99 | dict assignment: the value map is updated at the key, an existing key keeps its place in iteration order and a new key is appended |
| OrderedDict.Filter | data_gemma/rig.py:74-77 | the validated dictionary keeps exactly the entries the validator accepts, with their values unchanged |
| Markup.MatchAt | data_gemma/rig.py:28 | the pattern tried at one position matches a span starting there and ending inside the text |
| Markup.FindAllFrom | data_gemma/rig.py:28 | `re.findall(_DC_PATTERN, text)`: the matches are in text order, do not overlap, and each is the pattern's match at its own start |
| Markup.FindAllFromGapless | data_gemma/rig.py:98 | no match is skipped: between consecutive matches, and after the last, no position starts a match |
| Markup.MatchAtSound | data_gemma/rig.py:28 | a match at `i` is `[__DC__("` + query + `") --> "` + claim + `"` there, with a non-empty quote-free query and a quote-free claim, followed by `]` exactly when it is closed |
| Markup.MatchAtComplete | data_gemma/rig.py:28 | conversely, every such text at `i` is matched there with its query and claim |
| Markup.TargetRoundTrip | data_gemma/rig.py:143 | the replacement target `orig` built from a query and claim is matched back to that query and claim, closed |
| Markup.UnclosedSpanNotTarget | data_gemma/rig.py:143-150 | a span matched without its closing `]` is not the text `orig` that the rewrite looks for |
| Markup.GroupedContents | data_gemma/rig.py:97-99 | `q2llmval`: its keys are the distinct queries in order of first appearance, each with all of that query's claims in text order, and a query absent from it has no claims |
| Markup.GroupedCount | data_gemma/rig.py:97-99 | the claims in `q2llmval` add up to the number of matches |
| Discrepancy.KeepNumeric | data_gemma/rig.py:171 | `re.sub(r'[^0-9.]', '', s)` keeps only digits and dots and never lengthens the text |
| Discrepancy.Decimal | data_gemma/rig.py:171 | `float()` of a digits-and-dots string succeeds exactly when it has at most one dot and some digit, and then gives a non-negative number |
| Discrepancy.DecimalReading | data_gemma/rig.py:171 | `float()` of `a.b`, for digit runs `a` and `b` not both empty, is `a` plus `b` over ten to the number of digits of `b` |
| Discrepancy.CleanFloat | data_gemma/rig.py:170-171 | `_clean_float` succeeds exactly when the digits and dots of the text hold at most one dot and some digit, and then gives a non-negative number |
| Discrepancy.PositionalReadsBack | data_gemma/rig.py:170-171 | `_clean_float` of a whole number's positional text `"<digits>.0"` gives back that number |
| Discrepancy.FirstMultiplier | data_gemma/rig.py:177-185 | the multiplier is that of the first unit word (million, billion, trillion, in that order) found in the claim, and there is none exactly when no unit word occurs |
| Discrepancy.ReplaceMillionKeepsNumber | data_gemma/rig.py:183 | removing `" million"` from a claim never changes the number `_clean_float` reads from it |
| Discrepancy.ClaimedValueScaled | data_gemma/rig.py:177-186 | for a claim with a unit word, the claimed value is the claim's number times that word's multiplier, and there is none when the claim has no number |
| Discrepancy.ClaimedNonNegative | data_gemma/rig.py:170-186 | a claimed value is never negative |
| Discrepancy.FlagValueAsWrittenMeaning | data_gemma/rig.py:174-190 | `_flag_value` as written raises the flag exactly when the claim, printed and read back, and the fetched value both read as numbers and either the claim reads as zero or the fetched value lies more than 5% of it away |
| Discrepancy.FlagValueMeaning | data_gemma/rig.py:174-190 | with the claim read as intended, the flag is raised exactly when both values read as numbers and either the claim is zero or the fetched value lies more than 5% of the claim above or below it |
| Discrepancy.BoundaryNotFlagged | data_gemma/rig.py:190 | a difference of exactly 5% either way is not flagged |
| Discrepancy.ZeroClaimFlagged | data_gemma/rig.py:187 | a claim that reads as zero is flagged whatever number was fetched |
| Discrepancy.AsWrittenAgrees | data_gemma/rig.py:183-186 | when `str()` prints a whole product `n` as `"<digits of n>.0"`, the value `_flag_value` reads back is the intended product |
| Discrepancy.ExponentMisread | data_gemma/rig.py:183-186 | with `str(1e16) == '1e+16'`, the source reads "10000 trillion" as 116 and flags it against a fetched 10^16, which the intended reading does not flag |
| Reconcile.Rendered | data_gemma/rig.py:143-159 | the four replacement texts: `{dcval} [{idx}] \|\|` for an empty claim with a value, `--- \|\| ---` with neither, `\|\| {claim}` without a value, and `{dcval} [{idx}] \|\| {claim}` otherwise, with `*` right after `]` exactly when the claim is flagged |
| Reconcile.Tag | data_gemma/rig.py:120-121 | `_rtag` is `[DC#`, the record id, then the text in parentheses and a closing `]` |
| Reconcile.CallsOf | data_gemma/rig.py:129-132 | `dc_calls` has one record per claim in order; the k-th is numbered k+1 and carries its claim, and is otherwise the fetched record |
| Reconcile.ReconcileClaim | data_gemma/rig.py:128-161 | one claim: the record is numbered after the calls so far, the footnote is added or reused, the span is replaced by its tag, and the record is appended |
| Reconcile.Evaluate | data_gemma/rig.py:112-167 | `_evaluate` returns the text rewritten claim by claim, the footnote lines in index order and the numbered records, all in `q2resp` order and then claim order |
| Reconcile.ItemsCount | data_gemma/rig.py:125-128 | the records reconciled number as many as the claims of the fetched queries |
| Reconcile.AddNoteFacts | data_gemma/rig.py:135-141 | one claim adds a footnote exactly when a value is shown for a new query, numbered one past the last; an existing footnote is reused and left unchanged |
| Reconcile.NotesNumbered | data_gemma/rig.py:135-141 | the k-th footnote added has index k+1, so sorting the footnotes by index lists them in the order they were added |
| Reconcile.NoteWhenShown | data_gemma/rig.py:136-139 | a query has a footnote exactly when some claim of it was shown with a fetched value |
| Reconcile.FootnoteShared | data_gemma/rig.py:137-141 | every claim shown with a value cites the footnote of its query as it stood when the claim was reached; later claims of the same query reuse it |
| Reconcile.TextUntouched | data_gemma/rig.py:143-159 | when no claim's span occurs in the text, the text is returned unchanged |
| DataCommonsApi.Src | data_gemma/datacommons.py:169-173 | `_src` is the name of the first source when there is one, and empty otherwise |
| DataCommonsApi.EncodeQuery | data_gemma/datacommons.py:161 | the query is stripped and every space becomes `+`, keeping every other character in place |
| DataCommonsApi.Url | data_gemma/datacommons.py:161-164 | the URL starts with `https://{env}.datacommons.org/nodejs/query?&q=` and the encoded query, ends with the key when one is set, and holds no space unless the environment, the parameters or the key hold one |
| DataCommonsApi.UrlIgnoresSurroundingSpace | data_gemma/datacommons.py:161 | whitespace around the query does not change the URL |
| DataCommonsApi.FirstSeries | data_gemma/datacommons.py:62-67 | the chart chosen is the first LINE or HIGHLIGHT chart, and there is none exactly when no chart has either type |
| DataCommonsApi.Match | data_gemma/datacommons.py:81-83 | the score and variable are the first entries of their lists, -1 and "" when a list is absent; reading them fails exactly when a present list is empty |
| DataCommonsApi.Point | data_gemma/datacommons.py:56-95 | `point` is the record of the response fetched from the point URL |
| DataCommonsApi.PointEmptyValue | data_gemma/datacommons.py:68-74 | with no series chart, or an empty rounded value, the record holds only the query |
| DataCommonsApi.PointFromFirstSeries | data_gemma/datacommons.py:71-95 | a point with a value takes its value, unit, title, date, source and URL from the first series chart, and a score |
| DataCommonsApi.RoundAll | data_gemma/datacommons.py:121 | every cell of a body row is rounded, in place |
| DataCommonsApi.TableParts | data_gemma/datacommons.py:117-123 | the parts are the joined header, a dash rule as long as it, each rounded body row joined by ` \| `, and a final newline |
| DataCommonsApi.TableLayout | data_gemma/datacommons.py:117-124 | the table text starts with the header line, then the dash rule line, and ends in a blank line |
| DataCommonsApi.RenderTable | data_gemma/datacommons.py:117-124 | the loop builds the newline-joined table parts |
| DataCommonsApi.Table | data_gemma/datacommons.py:97-139 | `table` is the record of the response fetched from the table URL |
| DataCommonsApi.TableEmpty | data_gemma/datacommons.py:103-111 | with no chart, an empty CSV or a CSV without rows, the record holds only the query, and a successful record with an empty table is that query-only record |
| DataCommonsApi.Collect | data_gemma/datacommons.py:146-152 | the batch fails exactly when some lookup fails, with the first failure's error; otherwise the results are the lookups' records in query order |
| DataCommonsApi.Results | data_gemma/datacommons.py:152 | reading the futures in order yields the collected results |
| DataCommonsApi.NumberResults | data_gemma/datacommons.py:154-158 | the numbering loop stores each result under its query with id position plus one, building the numbered dictionary |
| DataCommonsApi.NumberedKeys | data_gemma/datacommons.py:154-158 | the numbered dictionary's keys are exactly the queries |
| DataCommonsApi.NumberedOrder | data_gemma/datacommons.py:154-158 | for distinct queries the keys are the queries in order |
| DataCommonsApi.NumberedIds | data_gemma/datacommons.py:155-157 | a query's record is the result of its last occurrence, numbered by that position plus one |
| DataCommonsApi.Fetched | data_gemma/datacommons.py:141-158 | a successful batch is a dictionary keyed by exactly the queries |
| DataCommonsApi.CallN | data_gemma/datacommons.py:141-158 | sequentially or through futures, `calln` gives the batch result, failing before any lookup when the pool size is below one |
| DataCommonsApi.BatchPoolSize | data_gemma/datacommons.py:146-152 | `calln` fails exactly when the pool size is below one or some lookup raises; a pool size below one always fails, and any other size gives the fetched batch |
| DataCommonsApi.CallNResult | data_gemma/datacommons.py:141-158 | `calln` raises exactly when some lookup raises; for distinct queries the result lists them in order, the i-th record being its lookup's record numbered i+1 |
| Rig.FetchedOrEmpty | data_gemma/rig.py:101-108 | `q2resp` is the batch result, keyed by exactly the queries, when the lookup succeeds, and empty when it raised |
| Rig.Checked | data_gemma/rig.py:70-77 | without validation every fetched record is kept and the model calls are the answer alone; with it, exactly the records the validator accepts are kept, unchanged, and the validator's model calls follow the answer |
| Rig.GroupClaims | data_gemma/rig.py:97-99 | the grouping loop appends each match's claim to its query's list, building `q2llmval` |
| Rig.CallDc | data_gemma/rig.py:90-110 | `_call_dc` groups the claims of the matches by query and fetches the point records of the grouped queries, or none when that raised |
| Rig.Query | data_gemma/rig.py:51-88 | `RIGFlow.query` returns the flow response of the model answer, the fetched and validated records, and the reconciliation |
| Rig.EmptyAnswer | data_gemma/rig.py:63-65 | an empty model answer returns a response holding only that model call |
| Rig.FetchFailureKeepsText | data_gemma/rig.py:101-108 | when the batch lookup raises, the answer is returned unchanged with no footnotes and no records |
| Rig.NoMarkupKeepsText | data_gemma/rig.py:97-99 | an answer without spans is returned unchanged with no footnotes and no records |
| Rig.EveryClaimNumbered | data_gemma/rig.py:125-161 | without validation and with a successful lookup, every matched claim yields one record, numbered 1, 2, 3, … in order |

## Left out

- The HTTP session, JSON decoding and network errors are one parameter, `Services.get`, whose failure stands for any exception raised. Python `dict.get` defaults on a malformed JSON shape are not modelled: a response is a typed `ApiResponse`.
- The thread pool in `calln`: a pool size below one is refused as `ThreadPoolExecutor` refuses it, with its error text. Each lookup is a function of its query, so parallel and sequential runs give the same results in the same order. Interleaving and timing are not modelled.
- Timing (`dc_duration_secs`, `time.time()`), logging and `vlog` output are left out.
- Floating point: numbers are exact reals, so IEEE rounding of `x * multiplier` and of the percentage is not modelled.
- Discrepancy.ClaimedValueAsWritten: Python's `str()` on a float is the parameter `pyStr`; only the facts the lemmas state about it are used.
- `utils.round_float`, `csv.reader`, `DataCommonsCall.val_and_unit`/`footnote` and `float()` on the fetched value are parameters; utils.py and base.py are not part of this model.
- The fields of a record built from the query alone are taken to be empty, with id 0 and no score or date, because base.py is not part of this model. `base.DC` is taken to be `"DC"`.
- DataCommonsApi.PointOf: the highlight value arrives as text, so Python's `str()` on a numeric JSON value is not modelled.
- `validate.run_validation` is a parameter: a predicate choosing the records to keep and the model calls it makes. Its prompts are not modelled.
- Reconcile.ReconcileClaim: the `*` flag uses the intended claimed value (`Discrepancy.FlagValue`), not `_flag_value` as written. The two differ only when `str()` prints the scaled product with an exponent, as in Findings. `Discrepancy.AsWrittenAgrees` proves they agree when the product prints as `"<digits>.0"`.
- Reconcile.Evaluate: the rewritten text carries the `*` flag of `Reconcile.ReconcileClaim`, so it shares that deviation from `_flag_value` as written.
- OrderedDict.Filter: states which entries are kept and their values, but not that the kept keys stay in their original order.
- The prompt texts (prompts.py), the Hugging Face and OpenAI model wrappers and the baseline flow are not part of this model.
- A fetched record is deep-copied per claim in the source; records are values here, so copies never alias.

## Findings

| source | as written | input that shows it | evidently intended | confidence | as-written member | corrected member |
|---|---|---|---|---|---|---|
| data_gemma/rig.py:183-186 | the scaled claim is turned into text with `str()` and read back with `_clean_float`, which keeps only digits and dots | claim "10000 trillion" with fetched value "10000000000000000": `str(1e16)` is `'1e+16'`, read back as 116, so the claim is flagged | compare the product itself: 10^16, not flagged | not executed; rests only on Python printing 1e16 as '1e+16' | Discrepancy.ExponentMisread | Discrepancy.ClaimedValueScaled |
