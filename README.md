# GTM outreach pipeline: a verified model of its control and data shaping

`GTM_Outreach_Agent.py` is a Streamlit app. It drives five text-generation
agents (company finder, contact finder, phone finder, researcher, email
writer) through one outreach run. It can also run that pipeline once per row
of an uploaded spreadsheet. This project models the deterministic code
around the agent calls and proves what that code guarantees:

- `extract_json_or_raise`: the three-strategy cascade that recovers a JSON
  value from a free-text reply. `json.loads` is an oracle; the fenced-block
  regular expression is specified exactly (leftmost fence, nearest closing
  brace); `find` and `rfind` are concrete (module `Extraction`, on top of
  `Text` and `Json`).
- The five `run_*` stage functions: one agent call, extraction, one
  `data.get(key, [])`, and for company discovery the slice
  `companies[:max_companies]`. Also `get_email_style_instruction`, the style
  table with its Professional fallback (module `Stages`).
- `run_pipeline`: the five stages in order, with early returns on empty
  companies or contacts, a swallowed phone-stage failure, and propagation of
  every other failure. It is modelled as a function and as a method that
  fills `results` stage by stage (module `Pipeline`).
- The batch loop of `main`: the validity checks before it, the row text built
  from a row's cells, one pipeline run per row inside a `try`, and the
  appends to `all_results` and `combined_emails_for_csv`. The loop is a
  method whose loop invariant ties it to a function of the rows (module
  `Batch`).

Agents are functions from a `Prompt` (which stage, and which data feeds it)
to a `Reply` (the reply text, or an exception). A Python exception is modelled
as `Err(Failure)` of a `Result`. The properties of the batch loop are proved
for any `RowRunner`, a function from a row's index and text to that row's
pipeline outcome. `Batch.PipelineRunner` is the runner that `main` actually
uses.

## Model

| member | source | states |
|---|---|---|
| Json.GetOrEmpty | GTM_Outreach_Agent.py:381 | `data.get(key, [])` succeeds exactly on a dict. It yields the key's value when present and the empty list when absent; any other value raises AttributeError |
| Json.PyPrefix | GTM_Outreach_Agent.py:382 | `s[:n]` is a prefix of `s` of length min(n, len(s)) for n ≥ 0, and max(0, len(s) + n) for negative n |
| Json.SlicePrefix | GTM_Outreach_Agent.py:382 | slicing succeeds exactly on a list or a string; any other value raises |
| Json.SliceFailures | GTM_Outreach_Agent.py:382 | slicing a dict raises TypeError "unhashable type: 'slice'", because a dict looks the slice up as a key; slicing a number, a boolean or None raises TypeError "'<type>' object is not subscriptable" |
| Text.StripLeftShape | GTM_Outreach_Agent.py:727 | `lstrip` removes a blank prefix and stops at the first non-space |
| Text.StripRightShape | GTM_Outreach_Agent.py:727 | `rstrip` removes a blank suffix and stops at the last non-space |
| Text.StripRemovesOuterWhitespace | GTM_Outreach_Agent.py:714 | `strip()` is empty exactly for a blank string; otherwise it is the infix between a blank prefix and a blank suffix, and it neither starts nor ends with a space |
| Text.JoinShape | GTM_Outreach_Agent.py:728 | a join starts with its first part, and its length is the parts' lengths plus one separator between each two neighbouring parts |
| Text.JoinAppend | GTM_Outreach_Agent.py:728 | the join's contents: joining one more part appends the separator and that part to the join of the parts before it |
| Text.Find | GTM_Outreach_Agent.py:354 | `find` gives -1 exactly when the character is absent; otherwise it gives an index of it with no earlier occurrence |
| Text.RFind | GTM_Outreach_Agent.py:355 | `rfind` gives -1 exactly when the character is absent; otherwise it gives an index of it with no later occurrence |
| Extraction.SpaceRun | GTM_Outreach_Agent.py:347 | the greedy `\s*` consumes a maximal run of whitespace |
| Extraction.OpenBrace | GTM_Outreach_Agent.py:347 | the `{` that opens a fenced group lies after the fence, inside the text |
| Extraction.OpenBraceMeaning | GTM_Outreach_Agent.py:347 | a `{` is found exactly after a fence at `i`, the optional `json` tag and a run of whitespace only; when none is found after a fence, every later `{` has a non-space between the tag and it |
| Extraction.NearestClose | GTM_Outreach_Agent.py:347 | the lazy `.*?` stops at the nearest `}` that is followed by spaces and a closing fence; no earlier position closes |
| Extraction.FenceSearch | GTM_Outreach_Agent.py:348 | `re.search` reports a match exactly when one exists; it is the leftmost fence and, at it, the nearest closing brace |
| Extraction.FencedCandidate | GTM_Outreach_Agent.py:348-351 | `match.group(1)` begins with `{` and ends with `}` |
| Extraction.BraceCandidate | GTM_Outreach_Agent.py:354-357 | the brace slice exists exactly when a `{` precedes a later `}`; it runs from the first `{` to the last `}`, inclusive |
| Extraction.FailureMessage | GTM_Outreach_Agent.py:362 | the ValueError text is the fixed head, then the first min(500, len(text)) characters, then `...` |
| Extraction.Extract | GTM_Outreach_Agent.py:341-362 | a text that parses whole is returned as parsed; any failure is the MalformedOutput error with that message |
| Extraction.Candidates | GTM_Outreach_Agent.py:343-361 | the texts handed to `json.loads`, in the order tried: the whole reply first, then at most two fallbacks |
| Extraction.FirstParsed | GTM_Outreach_Agent.py:343-361 | the first candidate that parses; every earlier candidate fails to parse |
| Extraction.ExtractIsFirstParsedCandidate | GTM_Outreach_Agent.py:341-362 | the strategies are tried strictly in order: the result is the first parseable candidate's value, and the error arises exactly when no candidate parses |
| Extraction.FencedHasBracePair | GTM_Outreach_Agent.py:347-357 | a fenced match implies a `{` before a later `}` |
| Extraction.NoBracePairRaises | GTM_Outreach_Agent.py:354-362 | a reply that does not parse whole and has no `{` before a later `}` always raises, with a message of bounded length that embeds `text[:500]` |
| Extraction.FallbacksYieldObjects | GTM_Outreach_Agent.py:346-361 | only the direct parse can produce something other than a dict, because both fallback candidates begin with `{` |
| Extraction.FencedObjectRecovered | GTM_Outreach_Agent.py:346-351 | a reply of prose, a json code fence around an object text, and a trailer yields the parsed object when the whole reply is not JSON |
| Extraction.FencedCandidateIsBody | GTM_Outreach_Agent.py:347-348 | for such a reply, the fenced group is exactly the object text |
| Extraction.FencedGroupIsBody | GTM_Outreach_Agent.py:347-348 | for such a reply, the search matches at the fence after the prose, and the group spans exactly the body |
| Extraction.LeftmostNearestMatch | GTM_Outreach_Agent.py:347-348 | a match with no fence before it and no closing brace inside its group is the one `re.search` reports |
| Stages.AskOutcome | GTM_Outreach_Agent.py:379-381 | how a stage call ends: an agent exception, an extraction error, a non-dict reply (AttributeError), a missing key (empty list), or the key's value |
| Stages.MissingKeyMeansEmpty | GTM_Outreach_Agent.py:381-475 | each of the five stages returns the empty list, not an error, when its key is absent from the reply object |
| Stages.CompanyFinderTruncates | GTM_Outreach_Agent.py:379-382 | company discovery returns exactly the first min(max, len(listed)) companies, in order; extras are dropped without error |
| Stages.StyleFallsBackToProfessional | GTM_Outreach_Agent.py:179-214 | a style gets the Professional instruction exactly when it is not Casual, Cold or Consultative; no other known style gives the Professional text |
| Stages.KnownStylesDiffer | GTM_Outreach_Agent.py:179-214 | the four known instructions are pairwise different |
| Pipeline.RunPipeline | GTM_Outreach_Agent.py:478-529 | the step-by-step filling of `results` returns what the stage composition returns, or raises the same failure |
| Pipeline.NoCompaniesStopsTheRun | GTM_Outreach_Agent.py:496-503 | no companies: success with every other field empty, decided by the company agent alone |
| Pipeline.NoContactsStopsTheRun | GTM_Outreach_Agent.py:505-510 | no contacts: success with the companies kept and the later fields empty; the phone, research and email agents are not consulted |
| Pipeline.PhoneFailureIsTolerated | GTM_Outreach_Agent.py:512-527 | a failing phone stage gives an empty phone list, and research and emails are still computed |
| Pipeline.PhonesNeverDecideTheRun | GTM_Outreach_Agent.py:512-527 | whatever the phone agent answers, the run succeeds or fails alike; two runs differ at most in their phone list |
| Pipeline.FatalStagesPropagate | GTM_Outreach_Agent.py:499-527 | a failure of the company, contact, research or email stage is the run's failure, unchanged, and no results are returned |
| Pipeline.ResultsFillInStageOrder | GTM_Outreach_Agent.py:496-529 | in a successful result, the companies are the discovery stage's; contacts are non-empty only after companies, and phones, research and emails only after contacts |
| Batch.RowValuesAreThePresentCells | GTM_Outreach_Agent.py:727 | the row values are exactly the present, non-blank cells, unstripped |
| Batch.RowValuesConcat | GTM_Outreach_Agent.py:727 | the comprehension keeps column order and every occurrence: the values of two column runs are the values of the first followed by those of the second |
| Batch.RowValuesOfCell | GTM_Outreach_Agent.py:727 | one cell contributes its string exactly when it is present and not blank, and nothing otherwise |
| Batch.RowTextAppendCell | GTM_Outreach_Agent.py:727-728 | one more column leaves the row text unchanged when the cell is missing or blank; otherwise the value replaces the placeholder, or follows the old text after the cell separator |
| Batch.RowTextNeverBlank | GTM_Outreach_Agent.py:727-728 | the row text is never blank: the placeholder when no cell has a value, and otherwise the join of the values with the cell separator, starting with the first value |
| Batch.RowConfigLink | GTM_Outreach_Agent.py:732-740 | the row text is the target; a blank calendar link is passed as none, and any other is passed stripped |
| Batch.GuardAdmitsOnlyFilledForms | GTM_Outreach_Agent.py:712-716 | the batch starts exactly when both keys are given and offering, name and company are not blank; every run then gets non-empty strings for these three fields |
| Batch.TagItemsTagsTheDictPrefix | GTM_Outreach_Agent.py:744-752 | the email loop tags the longest prefix of dicts, in order; it stops with AttributeError at the first non-dict, and it ends cleanly exactly when every entry is a dict |
| Batch.WalkItems | GTM_Outreach_Agent.py:744-752 | the imperative email loop over a list computes that tagging and its fault |
| Batch.WalkEmails | GTM_Outreach_Agent.py:744 | the email loop over any value: a list is walked; a non-empty str or dict raises; None, bools and numbers cannot be iterated |
| Batch.TaggedWithRow | GTM_Outreach_Agent.py:746 | every email a row contributes carries its row number |
| Batch.RecordRows | GTM_Outreach_Agent.py:731-761 | a row leaves one or two records, all with its number and text, and emails only when its run succeeded |
| Batch.RecordShape | GTM_Outreach_Agent.py:741-761 | a failed run writes one error record and no emails. A successful run writes its result record first and its tagged emails, plus a second error record exactly when the email walk raised |
| Batch.RunRow | GTM_Outreach_Agent.py:727-761 | the loop body appends exactly what the row's outcome prescribes |
| Batch.RunBatch | GTM_Outreach_Agent.py:717-763 | the loop leaves in `all_results` and `combined_emails_for_csv` the batch function of the rows |
| Batch.RowRecordsCarryRow | GTM_Outreach_Agent.py:741-761 | row `k + 1` writes one or two records, all numbered `k + 1` |
| Batch.RecordsFollowRowOrder | GTM_Outreach_Agent.py:725-761 | after `n` rows there are between `n` and `2n` records, numbered 1 to `n`, in non-decreasing order |
| Batch.EmailsComeFromSucceededRows | GTM_Outreach_Agent.py:741-752 | every collected email carries the number of a row whose run succeeded |
| Batch.RecordsStable | GTM_Outreach_Agent.py:725-761 | later rows never change the records of earlier rows |
| Batch.RecordsIsolated | GTM_Outreach_Agent.py:725-761 | the records numbered `k + 1` are exactly what row `k + 1`'s own iteration wrote, whatever other rows did, failures included |
| Batch.EmailsStable | GTM_Outreach_Agent.py:744-752 | later rows never change the emails of earlier rows |
| Batch.EmailsIsolated | GTM_Outreach_Agent.py:744-752 | the emails numbered `k + 1` are exactly those row `k + 1`'s own iteration collected |
| Batch.CleanRowsGiveOneRecordEach | GTM_Outreach_Agent.py:725-761 | when no row's email walk raises, there is exactly one record per row, the `k`-th for row `k + 1` with its text |
| Batch.AsWrittenRecordsARowTwice | GTM_Outreach_Agent.py:741-761 | as written, a successful row whose emails list holds a string gets two records: its result and then an error |
| Batch.CorrectedEntryShape | GTM_Outreach_Agent.py:741-761 | the intended record carries the row's number and text; it is the result exactly when the run succeeded and its emails were walked without error |
| Batch.CorrectedRecordsAreEntries | GTM_Outreach_Agent.py:725-761 | as intended, the `k`-th record is row `k + 1`'s single entry |
| Batch.CorrectedEmailsFromResultRows | GTM_Outreach_Agent.py:744-752 | as intended, every collected email comes from a row recorded as a result |
| Batch.CorrectedBatchRecordsEachRowOnce | GTM_Outreach_Agent.py:725-761 | as intended: exactly one record per row, in order, with its text, and the result exactly when the row is clean; every email points at a result record |

## Left out

- Agent construction and the external services (OpenAI, Exa, memory, session ids) are not modelled. Each `agent.run` is a function from the stage's `Prompt` to a reply text or an exception. Which agents run a row is the parameter `env(idx)`.
- The wording of the prompts is not modelled. A `Prompt` records only the stage and the data that feeds it.
- `json.loads` is the oracle `parse`, which gives `None` where Python raises JSONDecodeError. Its own behaviour is not modelled, beyond the stated assumption that text beginning with `{` never parses to a non-object.
- Dict key order is not modelled: a dict is a `map`. Key order affects nothing modelled: the pipeline reads keys and tests truthiness. The email loop over a non-empty dict raises on its first key, which is always a str. The stage prompts serialize dicts with `json.dumps`, but prompt wording is not modelled.
- `str(resp.content)` is taken to be the reply text, and only text replies are modelled.
- Floats keep Python's `int`/`float` split, but floating-point arithmetic is not modelled, and neither are NaN cells. `pd.notna` is modelled as a cell being present (`Some`).
- Pandas file ingestion and `df.iterrows()` are not modelled. The sheet is given as a sequence of rows of optional cell strings, with a default index, so `idx` counts from 0.
- The Streamlit UI is not modelled: widgets, status text and `row_text[:80]`, the progress bar, the per-row expander with `render_results_tabs`, the summary loop, and the JSON and CSV downloads. An exception raised inside `render_results_tabs` would also reach the row's `except`. The model treats rendering as never raising.
- `require_env` and environment variables are not modelled. The API keys are plain string parameters of `Batch.Guard`.
- The batch error record stores the `Failure` itself. `Json.Message` gives its `str(e)` text, which is what the source stores under "error".
- Batch.CleanRowsGiveOneRecordEach: one record per row holds only when no row's email walk raises; as written, the code writes two records in that case (see Findings).
- Stages.CompanyFinderTruncates: a negative `max_companies` is not covered by this lemma. The form's `min_value=1` excludes it, and slicing with a negative bound is stated in `Json.PyPrefix`.
- Extraction.NoBracePairRaises: requires that the whole text fail to parse. A reply that is itself JSON without braces (`[]`, `42`) is returned by the direct parse, and only the later `data.get` raises.
- Json.SliceFailures: slicing a dict follows Python 3.11 and earlier, where it raises TypeError "unhashable type: 'slice'". From Python 3.12, slices are hashable, so the lookup raises KeyError with the slice's repr as its text instead.
- Extraction.FencedObjectRecovered: proved for prose without backticks and a body without three backticks in a row (single backticks, as in inline code, are allowed), the shape of a typical reply. Replies with earlier fences or nested fences are covered only by the general search specification in `Extraction.FenceSearch`.

## Findings

| source | as written | input that shows it | evidently intended | confidence | as-written member | corrected member |
|---|---|---|---|---|---|---|
| GTM_Outreach_Agent.py:741-761 | The result record is appended before the emails are walked. An exception during that walk (an entry without `get`, or an emails value that cannot be iterated) is caught by the row's `except`, which appends a second, error record for the same row. | One row whose run succeeds with `emails == ["Hello"]`: `all_results` gets `{row: 1, result: ...}` and then `{row: 1, error: "'str' object has no attribute 'get'"}`, and the summary shows the row both as succeeded and as failed. | Exactly one record per row: the error in place of the result when the emails cannot be collected, and no emails kept for that row. | not executed; medium (the code path is plain, the intent is inferred from the summary listing one line per row) | Batch.AsWrittenRecordsARowTwice (with Batch.Record) | Batch.CorrectedBatchRecordsEachRowOnce (with Batch.CorrectedRecord) |

`Batch.RunBatch` models the loop as written. The corrected definitions stand beside it, with the one-record-per-row property proved about them.
