/** The batch loop of `main`: one pipeline run per spreadsheet row, in
    order, each run's outcome recorded, and the emails of successful runs
    gathered into one row-tagged list. */
module Batch {

  import opened Wrappers
  import opened Json
  import opened Text
  import opened Extraction
  import opened Stages
  import opened Pipeline

  /** A cell as the loop sees it: `None` where pandas holds a missing value,
      otherwise `str(v)`. */
  type Cell = Option<string>

  type Row = seq<Cell>

  const NoRowData: string := "No row data provided"

  const CellSeparator: string := " | "

  /** `[str(v) for v in row if pd.notna(v) and str(v).strip()]`: the present,
      non-blank cells in column order, unstripped. */
  function RowValues(row: Row): seq<string> {
    if row == [] then []
    else if row[0].Some? && !IsBlank(row[0].value) then [row[0].value] + RowValues(row[1..])
    else RowValues(row[1..])
  }

  /** Exactly the present, non-blank cells are kept, none added. */
  lemma {:induction false} RowValuesAreThePresentCells(row: Row)
    ensures |RowValues(row)| <= |row|
    ensures forall s :: s in RowValues(row) ==> !IsBlank(s) && Some(s) in row
    ensures forall i :: 0 <= i < |row| && row[i].Some? && !IsBlank(row[i].value) ==> row[i].value in RowValues(row)
  {
    if row != [] {
      RowValuesAreThePresentCells(row[1..]);
      assert forall i :: 1 <= i < |row| ==> row[i] == row[1..][i - 1];
    }
  }

  /** The values of a row are those of its first columns followed by
      those of the rest: the comprehension keeps column order and every
      occurrence. */
  lemma {:induction false} RowValuesConcat(a: Row, b: Row)
    ensures RowValues(a + b) == RowValues(a) + RowValues(b)
  {
    if a == [] {
      assert a + b == b;
    } else {
      assert (a + b)[0] == a[0];
      assert (a + b)[1..] == a[1..] + b;
      RowValuesConcat(a[1..], b);
    }
  }

  /** A single cell contributes its string exactly when it is present and
      not blank. */
  lemma RowValuesOfCell(c: Cell)
    ensures RowValues([c]) == (if c.Some? && !IsBlank(c.value) then [c.value] else [])
  {
    assert [c][1..] == [];
  }

  /** `row_text`: the values joined by " | ", or the placeholder when the
      row has none. */
  function RowText(row: Row): string {
    var vals := RowValues(row);
    if vals == [] then NoRowData else Join(CellSeparator, vals)
  }

  /** Every row gets a target description that is not blank, and it starts
      with the row's first non-blank value. */
  lemma RowTextNeverBlank(row: Row)
    ensures !IsBlank(RowText(row))
    ensures RowValues(row) == [] ==> RowText(row) == NoRowData
    ensures RowValues(row) != [] ==> RowValues(row)[0] <= RowText(row) && |RowText(row)| == JoinedLength(CellSeparator, RowValues(row))
  {
    var vals := RowValues(row);
    RowValuesAreThePresentCells(row);
    if vals == [] {
      assert !IsSpace(NoRowData[0]);
    } else {
      var t := Join(CellSeparator, vals);
      JoinShape(CellSeparator, vals);
      assert vals[0] in vals;
      var i :| 0 <= i < |vals[0]| && !IsSpace(vals[0][i]);
      assert vals[0] <= t && t[i] == vals[0][i];
    }
  }

  /** One more column extends the row text: a blank or missing cell leaves
      it as it was, and a value is added after " | ", or replaces the
      placeholder when it is the first value. */
  lemma RowTextAppendCell(row: Row, c: Cell)
    ensures !(c.Some? && !IsBlank(c.value)) ==> RowText(row + [c]) == RowText(row)
    ensures c.Some? && !IsBlank(c.value) && RowValues(row) == [] ==> RowText(row + [c]) == c.value
    ensures c.Some? && !IsBlank(c.value) && RowValues(row) != [] ==>
      RowText(row + [c]) == RowText(row) + CellSeparator + c.value
  {
    RowValuesConcat(row, [c]);
    RowValuesOfCell(c);
    if !(c.Some? && !IsBlank(c.value)) {
      assert RowValues([c]) == [];
      assert RowValues(row) + [] == RowValues(row);
      assert RowValues(row + [c]) == RowValues(row);
    } else if RowValues(row) != [] {
      JoinAppend(CellSeparator, RowValues(row), c.value);
    }
  }

  /** The settings form, raw as typed. */
  datatype Form = Form(
    offering: string,
    senderName: string,
    senderCompany: string,
    calendarLink: string,
    numCompanies: int,
    emailStyle: string)

  /** The arguments the loop passes to `run_pipeline` for a row: its text as
      target, the stripped form fields, and no calendar link when the link
      is blank. */
  function RowConfig(form: Form, text: string): Config {
    var link := Strip(form.calendarLink);
    Config(text, Strip(form.offering), Strip(form.senderName), Strip(form.senderCompany),
           if link == [] then None else Some(link), form.numCompanies, form.emailStyle)
  }

  /** The row text is the target; a blank calendar link means none, any
      other is passed stripped. */
  lemma RowConfigLink(form: Form, text: string)
    ensures RowConfig(form, text).target == text
    ensures RowConfig(form, text).calendarLink.None? <==> IsBlank(form.calendarLink)
    ensures RowConfig(form, text).calendarLink.Some? ==> RowConfig(form, text).calendarLink.value == Strip(form.calendarLink)
  {
    StripRemovesOuterWhitespace(form.calendarLink);
  }

  /** One entry of `combined_emails_for_csv`. */
  datatype TaggedEmail = TaggedEmail(row: int, company: Json, contact: Json, subject: Json, body: Json, personalization: Json)

  /** `email.get(key, "")` */
  function FieldOr(fields: map<string, Json>, key: string): Json {
    if key in fields then fields[key] else JStr("")
  }

  function Tag(row: int, fields: map<string, Json>): TaggedEmail {
    TaggedEmail(row, FieldOr(fields, "company"), FieldOr(fields, "contact"), FieldOr(fields, "subject"),
                FieldOr(fields, "body"), FieldOr(fields, "personalization_used"))
  }

  /** The tagged emails a row contributes and the exception, if any, that
      stopped the `for email in ...` loop. */
  datatype Tagging = Tagging(tagged: seq<TaggedEmail>, fault: Option<Failure>)

  /** The email loop over a list: each dict is tagged in order; the first
      entry that is not a dict has no `get` and stops the loop, after the
      entries before it were appended. */
  function TagItems(row: int, items: seq<Json>): Tagging {
    if items == [] then Tagging([], None)
    else if items[0].JObj? then
      var rest := TagItems(row, items[1..]);
      Tagging([Tag(row, items[0].fields)] + rest.tagged, rest.fault)
    else Tagging([], Some(NoAttributeGet(TypeOf(items[0]))))
  }

  /** The walk tags the longest prefix of dicts, in order, and stops with
      the missing-`get` error at the first entry that is not a dict; it
      ends cleanly exactly when every entry is a dict. */
  lemma {:induction false} TagItemsTagsTheDictPrefix(row: int, items: seq<Json>)
    ensures var r := TagItems(row, items);
      && |r.tagged| <= |items|
      && (forall i :: 0 <= i < |r.tagged| ==> items[i].JObj? && r.tagged[i] == Tag(row, items[i].fields))
      && (r.fault.None? <==> |r.tagged| == |items|)
      && (r.fault.Some? ==> !items[|r.tagged|].JObj? && r.fault == Some(NoAttributeGet(TypeOf(items[|r.tagged|]))))
  {
    if items != [] && items[0].JObj? {
      TagItemsTagsTheDictPrefix(row, items[1..]);
    }
  }

  /** `for email in result.get("emails", [])`: a list is walked as above; a
      non-empty str or dict yields a str first, which has no `get`; None,
      booleans and numbers cannot be iterated. */
  function TagEmails(row: int, emails: Json): Tagging {
    match emails
    case JArr(items) => TagItems(row, items)
    case JStr(s) => if s == [] then Tagging([], None) else Tagging([], Some(NoAttributeGet(StrType)))
    case JObj(fields) => if fields == map[] then Tagging([], None) else Tagging([], Some(NoAttributeGet(StrType)))
    case _ => Tagging([], Some(NotIterable(TypeOf(emails))))
  }

  /** One entry of `all_results`. An error entry keeps the exception;
      the text stored under "error" is its `Message`. */
  datatype RowRecord =
    | RowResult(row: int, targetDesc: string, result: Results)
    | RowError(row: int, targetDesc: string, error: Failure)

  /** What the loop has produced so far. */
  datatype BatchOutput = BatchOutput(allResults: seq<RowRecord>, combinedEmails: seq<TaggedEmail>)

  /** What a row's `run_pipeline` call returns, given the row's index and
      text. The loop's properties hold whatever it returns. */
  type RowRunner = (nat, string) -> Result<Results, Failure>

  /** The real runner: `run_pipeline` on the row's text and the form, with
      the agents `env(idx)` created for the row at `idx`. */
  function PipelineRunner(env: nat -> Agents, parse: Parser, form: Form): RowRunner {
    (idx: nat, text: string) => Pipeline.Pipeline(env(idx), parse, RowConfig(form, text))
  }

  /** What the loop body records for row number `row` (one-based) once its
      run is known, as written: on success the result record is appended
      before the emails are walked, so a failure in that walk appends a
      second, error record for the same row. */
  function Record(row: int, text: string, run: Result<Results, Failure>): BatchOutput {
    match run
    case Err(e) => BatchOutput([RowError(row, text, e)], [])
    case Ok(res) =>
      var t := TagEmails(row, res.emails);
      var recorded := [RowResult(row, text, res)];
      if t.fault.None? then BatchOutput(recorded, t.tagged)
      else BatchOutput(recorded + [RowError(row, text, t.fault.value)], t.tagged)
  }

  /** What the loop body does for the row at `idx` with text `text`. */
  function RowOutcome(runner: RowRunner, idx: nat, text: string): BatchOutput {
    Record(idx + 1, text, runner(idx, text))
  }

  /** The loop's output after the first `n` rows, given their texts. */
  function BatchUpTo(runner: RowRunner, texts: seq<string>, n: nat): BatchOutput
    requires n <= |texts|
  {
    if n == 0 then BatchOutput([], [])
    else
      var before := BatchUpTo(runner, texts, n - 1);
      var here := RowOutcome(runner, n - 1, texts[n - 1]);
      BatchOutput(before.allResults + here.allResults, before.combinedEmails + here.combinedEmails)
  }

  /** The inner `for email in ...` loop over a list of emails: the emails
      tagged, in order, and the exception that stopped the loop, if any. */
  method WalkItems(row: int, items: seq<Json>) returns (tagged: seq<TaggedEmail>, failure: Option<Failure>)
    ensures Tagging(tagged, failure) == TagItems(row, items)
  {
    tagged := [];
    failure := None;
    var j := 0;
    while j < |items| && failure.None?
      invariant j <= |items|
      invariant failure.None? ==> TagItems(row, items) == Tagging(tagged + TagItems(row, items[j..]).tagged, TagItems(row, items[j..]).fault)
      invariant failure.Some? ==> TagItems(row, items) == Tagging(tagged, failure)
      decreases |items| - j, if failure.None? then 1 else 0
    {
      var email := items[j];
      ghost var rest := TagItems(row, items[j..]);
      if email.JObj? {
        assert items[j..][1..] == items[j + 1..];
        assert rest.tagged == [Tag(row, email.fields)] + TagItems(row, items[j + 1..]).tagged;
        tagged := tagged + [Tag(row, email.fields)];
        j := j + 1;
      } else {
        failure := Some(NoAttributeGet(TypeOf(email)));
      }
    }
  }

  /** The inner `for email in result.get("emails", [])` loop of the batch on
      any value: the emails it tags for the row and the exception that
      stopped it, if any. */
  method WalkEmails(row: int, emails: Json) returns (tagged: seq<TaggedEmail>, failure: Option<Failure>)
    ensures Tagging(tagged, failure) == TagEmails(row, emails)
  {
    tagged := [];
    failure := None;
    match emails {
      case JArr(items) =>
        tagged, failure := WalkItems(row, items);
      case JStr(s) =>
        if s != [] { failure := Some(NoAttributeGet(StrType)); }
      case JObj(fields) =>
        if fields != map[] { failure := Some(NoAttributeGet(StrType)); }
      case _ =>
        failure := Some(NotIterable(TypeOf(emails)));
    }
  }

  /** The loop's output over the whole sheet. */
  function Batch(env: nat -> Agents, parse: Parser, form: Form, rows: seq<Row>): BatchOutput {
    BatchUpTo(PipelineRunner(env, parse, form), RowTexts(rows), |rows|)
  }

  /** The text of every row. */
  function RowTexts(rows: seq<Row>): (texts: seq<string>)
    ensures |texts| == |rows|
    ensures forall k :: 0 <= k < |rows| ==> texts[k] == RowText(rows[k])
  {
    seq(|rows|, k requires 0 <= k < |rows| => RowText(rows[k]))
  }

  /** The body of the batch loop for the row at `idx`: its text, its
      pipeline run, and what that run appends to the two lists. */
  method RunRow(env: nat -> Agents, parse: Parser, form: Form, idx: nat, row: Row) returns (out: BatchOutput)
    ensures out == RowOutcome(PipelineRunner(env, parse, form), idx, RowText(row))
  {
    var rowValues := RowValues(row);
    var rowText := if rowValues != [] then Join(CellSeparator, rowValues) else NoRowData;
    var result := RunPipeline(env(idx), parse, RowConfig(form, rowText));
    if result.Ok? {
      var tagged, failure := WalkEmails(idx + 1, result.value.emails);
      if failure.Some? {
        out := BatchOutput([RowResult(idx + 1, rowText, result.value), RowError(idx + 1, rowText, failure.value)], tagged);
      } else {
        out := BatchOutput([RowResult(idx + 1, rowText, result.value)], tagged);
      }
    } else {
      out := BatchOutput([RowError(idx + 1, rowText, result.error)], []);
    }
  }

  /** One more row appends its output to the loop's output so far. */
  lemma BatchStep(runner: RowRunner, texts: seq<string>, idx: nat, out: BatchOutput)
    requires idx < |texts| && out == RowOutcome(runner, idx, texts[idx])
    ensures BatchUpTo(runner, texts, idx + 1)
      == BatchOutput(BatchUpTo(runner, texts, idx).allResults + out.allResults,
                     BatchUpTo(runner, texts, idx).combinedEmails + out.combinedEmails)
  {
  }

  /** The loop at lines 717-763 of `main`; `env(idx)` are the agents the
      row's `run_pipeline` call creates. */
  method RunBatch(env: nat -> Agents, parse: Parser, form: Form, rows: seq<Row>)
    returns (allResults: seq<RowRecord>, combinedEmails: seq<TaggedEmail>)
    ensures BatchOutput(allResults, combinedEmails) == Batch(env, parse, form, rows)
  {
    ghost var runner := PipelineRunner(env, parse, form);
    ghost var texts := RowTexts(rows);
    allResults := [];
    combinedEmails := [];
    var idx := 0;
    while idx < |rows|
      invariant idx <= |rows|
      invariant BatchOutput(allResults, combinedEmails) == BatchUpTo(runner, texts, idx)
    {
      var out := RunRow(env, parse, form, idx, rows[idx]);
      assert texts[idx] == RowText(rows[idx]);
      BatchStep(runner, texts, idx, out);
      allResults := allResults + out.allResults;
      combinedEmails := combinedEmails + out.combinedEmails;
      idx := idx + 1;
    }
  }

  // ----- The checks before the loop -----

  /** Why the Run button refuses to start the batch. */
  datatype Refusal = MissingKeys | MissingFields

  /** The checks made before the loop: both API keys given, and offering,
      sender name and sender company not blank. */
  function Guard(openAiKey: string, exaKey: string, form: Form): Option<Refusal> {
    if openAiKey == [] || exaKey == [] then Some(MissingKeys)
    else if Strip(form.offering) == [] || Strip(form.senderName) == [] || Strip(form.senderCompany) == [] then Some(MissingFields)
    else None
  }

  /** The batch starts exactly when both keys are given and the three
      required fields are not blank, and then every row's run gets a
      non-empty offering, sender name and sender company. */
  lemma GuardAdmitsOnlyFilledForms(openAiKey: string, exaKey: string, form: Form, text: string)
    ensures Guard(openAiKey, exaKey, form) == None <==>
      openAiKey != [] && exaKey != [] && !IsBlank(form.offering) && !IsBlank(form.senderName) && !IsBlank(form.senderCompany)
    ensures Guard(openAiKey, exaKey, form) == None ==>
      var cfg := RowConfig(form, text);
      cfg.offering != [] && cfg.senderName != [] && cfg.senderCompany != []
  {
    StripRemovesOuterWhitespace(form.offering);
    StripRemovesOuterWhitespace(form.senderName);
    StripRemovesOuterWhitespace(form.senderCompany);
  }

  // ----- Properties of the loop -----

  /** The records of `rs` numbered `row`, in order. */
  function RecordsOf(rs: seq<RowRecord>, row: int): seq<RowRecord> {
    if rs == [] then [] else (if rs[0].row == row then [rs[0]] else []) + RecordsOf(rs[1..], row)
  }

  lemma {:induction false} RecordsOfConcat(a: seq<RowRecord>, b: seq<RowRecord>, row: int)
    ensures RecordsOf(a + b, row) == RecordsOf(a, row) + RecordsOf(b, row)
  {
    if a == [] {
      assert a + b == b;
    } else {
      var head := if a[0].row == row then [a[0]] else [];
      assert (a + b)[0] == a[0] && (a + b)[1..] == a[1..] + b;
      assert RecordsOf(a + b, row) == head + RecordsOf(a[1..] + b, row);
      RecordsOfConcat(a[1..], b, row);
      assert head + (RecordsOf(a[1..], row) + RecordsOf(b, row)) == (head + RecordsOf(a[1..], row)) + RecordsOf(b, row);
    }
  }

  lemma {:induction false} RecordsOfNone(rs: seq<RowRecord>, row: int)
    requires forall i :: 0 <= i < |rs| ==> rs[i].row != row
    ensures RecordsOf(rs, row) == []
  {
    if rs != [] {
      RecordsOfNone(rs[1..], row);
    }
  }

  lemma {:induction false} RecordsOfAll(rs: seq<RowRecord>, row: int)
    requires forall i :: 0 <= i < |rs| ==> rs[i].row == row
    ensures RecordsOf(rs, row) == rs
  {
    if rs != [] {
      RecordsOfAll(rs[1..], row);
    }
  }

  /** The emails of `rs` numbered `row`, in order. */
  function EmailsOf(rs: seq<TaggedEmail>, row: int): seq<TaggedEmail> {
    if rs == [] then [] else (if rs[0].row == row then [rs[0]] else []) + EmailsOf(rs[1..], row)
  }

  lemma {:induction false} EmailsOfConcat(a: seq<TaggedEmail>, b: seq<TaggedEmail>, row: int)
    ensures EmailsOf(a + b, row) == EmailsOf(a, row) + EmailsOf(b, row)
  {
    if a == [] {
      assert a + b == b;
    } else {
      var head := if a[0].row == row then [a[0]] else [];
      assert (a + b)[0] == a[0] && (a + b)[1..] == a[1..] + b;
      assert EmailsOf(a + b, row) == head + EmailsOf(a[1..] + b, row);
      EmailsOfConcat(a[1..], b, row);
      assert head + (EmailsOf(a[1..], row) + EmailsOf(b, row)) == (head + EmailsOf(a[1..], row)) + EmailsOf(b, row);
    }
  }

  lemma {:induction false} EmailsOfNone(rs: seq<TaggedEmail>, row: int)
    requires forall i :: 0 <= i < |rs| ==> rs[i].row != row
    ensures EmailsOf(rs, row) == []
  {
    if rs != [] {
      EmailsOfNone(rs[1..], row);
    }
  }

  lemma {:induction false} EmailsOfAll(rs: seq<TaggedEmail>, row: int)
    requires forall i :: 0 <= i < |rs| ==> rs[i].row == row
    ensures EmailsOf(rs, row) == rs
  {
    if rs != [] {
      EmailsOfAll(rs[1..], row);
    }
  }

  /** The emails a row contributes all carry its number. */
  lemma TaggedWithRow(row: int, emails: Json)
    ensures forall i :: 0 <= i < |TagEmails(row, emails).tagged| ==> TagEmails(row, emails).tagged[i].row == row
  {
    if emails.JArr? {
      TagItemsTagsTheDictPrefix(row, emails.items);
    }
  }

  /** Everything one row leaves behind carries its number and text: one or
      two records, and emails only when its run succeeded. */
  lemma RecordRows(row: int, text: string, run: Result<Results, Failure>)
    ensures var o := Record(row, text, run);
      && 1 <= |o.allResults| <= 2
      && (forall i :: 0 <= i < |o.allResults| ==> o.allResults[i].row == row && o.allResults[i].targetDesc == text)
      && (forall i :: 0 <= i < |o.combinedEmails| ==> o.combinedEmails[i].row == row)
      && (o.combinedEmails != [] ==> run.Ok?)
  {
    if run.Ok? {
      TaggedWithRow(row, run.value.emails);
    }
  }

  /** What one row records, as written: the first record is the result
      exactly when the run succeeded, and a second, error record follows
      exactly when the run succeeded but walking its emails raised. The
      emails are those tagged before the walk stopped, none when the run
      failed. */
  lemma RecordShape(row: int, text: string, run: Result<Results, Failure>)
    ensures var o := Record(row, text, run);
      && o.allResults != []
      && (o.allResults[0].RowResult? <==> run.Ok?)
      && (run.Ok? ==> o.allResults[0] == RowResult(row, text, run.value))
      && (run.Err? ==> o.allResults == [RowError(row, text, run.error)] && o.combinedEmails == [])
      && (run.Ok? ==> o.combinedEmails == TagEmails(row, run.value.emails).tagged)
      && (run.Ok? && TagEmails(row, run.value.emails).fault.None? ==> |o.allResults| == 1)
      && (run.Ok? && TagEmails(row, run.value.emails).fault.Some? ==>
            o.allResults == [RowResult(row, text, run.value), RowError(row, text, TagEmails(row, run.value.emails).fault.value)])
  {
  }

  /** Every record in `rs` carries the number `row`. */
  predicate RecordsAllOf(rs: seq<RowRecord>, row: int) {
    forall i :: 0 <= i < |rs| ==> rs[i].row == row
  }

  /** Every record in `rs` carries a number from 1 to `n`. */
  predicate RecordsNumbered(rs: seq<RowRecord>, n: int) {
    forall i :: 0 <= i < |rs| ==> 1 <= rs[i].row <= n
  }

  /** The records in `rs` are in non-decreasing order of their numbers. */
  predicate RecordsAscending(rs: seq<RowRecord>) {
    forall i, j :: 0 <= i <= j < |rs| ==> rs[i].row <= rs[j].row
  }

  /** Row `row` (index `k`) writes one or two records, all numbered `row`. */
  lemma RowRecordsCarryRow(runner: RowRunner, texts: seq<string>, k: nat, row: int)
    requires k < |texts| && row == k + 1
    ensures 1 <= |RowOutcome(runner, k, texts[k]).allResults| <= 2
    ensures RecordsAllOf(RowOutcome(runner, k, texts[k]).allResults, row)
  {
    RecordRows(row, texts[k], runner(k, texts[k]));
  }

  /** Appending records numbered `n` to ascending records numbered below `n`
      keeps them ascending. */
  lemma AscendingAppend(all: seq<RowRecord>, before: seq<RowRecord>, here: seq<RowRecord>, n: int)
    requires all == before + here
    requires RecordsNumbered(before, n - 1) && RecordsAscending(before)
    requires RecordsAllOf(here, n) && n >= 1
    ensures RecordsNumbered(all, n) && RecordsAscending(all)
  {
    forall i, j | 0 <= i <= j < |all| ensures all[i].row <= all[j].row {
      if j >= |before| {
        assert all[j] == here[j - |before|];
        if i < |before| {
          assert all[i] == before[i];
        } else {
          assert all[i] == here[i - |before|];
        }
      } else {
        assert all[i] == before[i] && all[j] == before[j];
      }
    }
    forall i | 0 <= i < |all| ensures 1 <= all[i].row <= n {
      if i < |before| {
        assert all[i] == before[i];
      } else {
        assert all[i] == here[i - |before|];
      }
    }
  }

  /** After `n` rows there are between `n` and `2 * n` records, numbered
      1 to `n` in non-decreasing order. */
  lemma {:induction false} RecordsFollowRowOrder(runner: RowRunner, texts: seq<string>, n: nat)
    requires n <= |texts|
    ensures n <= |BatchUpTo(runner, texts, n).allResults| <= 2 * n
    ensures RecordsNumbered(BatchUpTo(runner, texts, n).allResults, n)
    ensures RecordsAscending(BatchUpTo(runner, texts, n).allResults)
  {
    if n > 0 {
      RecordsFollowRowOrder(runner, texts, n - 1);
      RowRecordsCarryRow(runner, texts, n - 1, n);
      AscendingAppend(BatchUpTo(runner, texts, n).allResults, BatchUpTo(runner, texts, n - 1).allResults, RowOutcome(runner, n - 1, texts[n - 1]).allResults, n);
    }
  }

  /** Every email in `emails` carries the number of one of the first `n`
      rows, and that row's run succeeded. */
  predicate FromSucceededRows(runner: RowRunner, texts: seq<string>, n: nat, emails: seq<TaggedEmail>)
    requires n <= |texts|
  {
    forall i :: 0 <= i < |emails| ==>
      1 <= emails[i].row <= n && runner(emails[i].row - 1, texts[emails[i].row - 1]).Ok?
  }

  /** Every collected email carries the number of a row whose run
      succeeded. */
  lemma {:induction false} EmailsComeFromSucceededRows(runner: RowRunner, texts: seq<string>, n: nat)
    requires n <= |texts|
    ensures FromSucceededRows(runner, texts, n, BatchUpTo(runner, texts, n).combinedEmails)
  {
    if n > 0 {
      EmailsComeFromSucceededRows(runner, texts, n - 1);
      var before := BatchUpTo(runner, texts, n - 1).combinedEmails;
      var run := runner(n - 1, texts[n - 1]);
      var here := RowOutcome(runner, n - 1, texts[n - 1]).combinedEmails;
      RecordRows(n, texts[n - 1], run);
      assert here == Record(n, texts[n - 1], run).combinedEmails;
      var emails := before + here;
      forall i | 0 <= i < |emails|
        ensures 1 <= emails[i].row <= n && runner(emails[i].row - 1, texts[emails[i].row - 1]).Ok?
      {
        if i >= |before| {
          assert emails[i] == here[i - |before|];
          assert emails[i].row == n && run.Ok?;
        } else {
          assert emails[i] == before[i];
        }
      }
    }
  }

  /** Appending records of `row` after records of earlier rows: the records
      of `row` are the appended ones. */
  lemma RecordsOfAppended(all: seq<RowRecord>, before: seq<RowRecord>, here: seq<RowRecord>, row: int)
    requires all == before + here && RecordsNumbered(before, row - 1) && RecordsAllOf(here, row)
    ensures RecordsOf(all, row) == here
  {
    RecordsOfConcat(before, here, row);
    RecordsOfNone(before, row);
    RecordsOfAll(here, row);
  }

  /** Appending records of another row leaves the records of `row` alone. */
  lemma RecordsOfOther(all: seq<RowRecord>, before: seq<RowRecord>, here: seq<RowRecord>, other: int, row: int)
    requires all == before + here && RecordsAllOf(here, other) && other != row
    ensures RecordsOf(all, row) == RecordsOf(before, row)
  {
    RecordsOfConcat(before, here, row);
    RecordsOfNone(here, row);
  }

  /** Running row `n` leaves the records of every other row alone. */
  lemma RecordsOfEarlierRow(runner: RowRunner, texts: seq<string>, n: nat, row: int)
    requires 0 < n <= |texts| && row != n
    ensures RecordsOf(BatchUpTo(runner, texts, n).allResults, row) == RecordsOf(BatchUpTo(runner, texts, n - 1).allResults, row)
  {
    RowRecordsCarryRow(runner, texts, n - 1, n);
    RecordsOfOther(BatchUpTo(runner, texts, n).allResults, BatchUpTo(runner, texts, n - 1).allResults, RowOutcome(runner, n - 1, texts[n - 1]).allResults, n, row);
  }

  /** Rows after `m` leave the records of rows up to `m` alone. */
  lemma {:induction false} RecordsStable(runner: RowRunner, texts: seq<string>, m: nat, n: nat, row: int)
    requires row <= m <= n <= |texts|
    ensures RecordsOf(BatchUpTo(runner, texts, n).allResults, row) == RecordsOf(BatchUpTo(runner, texts, m).allResults, row)
  {
    if m < n {
      RecordsOfEarlierRow(runner, texts, n, row);
      RecordsStable(runner, texts, m, n - 1, row);
    }
  }

  /** The records numbered `row` right after that row (index `k`) ran are
      the ones it wrote. */
  lemma RecordsOfLastRow(runner: RowRunner, texts: seq<string>, k: nat, row: nat)
    requires k < |texts| && row == k + 1
    ensures RecordsOf(BatchUpTo(runner, texts, row).allResults, row) == RowOutcome(runner, k, texts[k]).allResults
  {
    RowRecordsCarryRow(runner, texts, k, row);
    RecordsFollowRowOrder(runner, texts, k);
    RecordsOfAppended(BatchUpTo(runner, texts, row).allResults, BatchUpTo(runner, texts, k).allResults, RowOutcome(runner, k, texts[k]).allResults, row);
  }

  /** Row isolation: after `n` rows, the records numbered `row` (index `k`)
      are exactly those that row's own iteration wrote, whatever the other
      rows did. */
  lemma RecordsIsolated(runner: RowRunner, texts: seq<string>, n: nat, k: nat, row: nat)
    requires k < n <= |texts| && row == k + 1
    ensures RecordsOf(BatchUpTo(runner, texts, n).allResults, row) == RowOutcome(runner, k, texts[k]).allResults
  {
    RecordsStable(runner, texts, row, n, row);
    RecordsOfLastRow(runner, texts, k, row);
  }

  /** Every email in `es` carries the number `row`. */
  predicate EmailsAllOf(es: seq<TaggedEmail>, row: int) {
    forall i :: 0 <= i < |es| ==> es[i].row == row
  }

  /** Every email in `es` carries a number below `row`. */
  predicate EmailsAllBelow(es: seq<TaggedEmail>, row: int) {
    forall i :: 0 <= i < |es| ==> es[i].row < row
  }

  lemma EmailsOfAppended(all: seq<TaggedEmail>, before: seq<TaggedEmail>, here: seq<TaggedEmail>, row: int)
    requires all == before + here && EmailsAllBelow(before, row) && EmailsAllOf(here, row)
    ensures EmailsOf(all, row) == here
  {
    EmailsOfConcat(before, here, row);
    EmailsOfNone(before, row);
    EmailsOfAll(here, row);
  }

  lemma EmailsOfOther(all: seq<TaggedEmail>, before: seq<TaggedEmail>, here: seq<TaggedEmail>, other: int, row: int)
    requires all == before + here && EmailsAllOf(here, other) && other != row
    ensures EmailsOf(all, row) == EmailsOf(before, row)
  {
    EmailsOfConcat(before, here, row);
    EmailsOfNone(here, row);
  }

  /** Every email row `row` (index `k`) contributes carries its number. */
  lemma RowEmailsCarryRow(runner: RowRunner, texts: seq<string>, k: nat, row: int)
    requires k < |texts| && row == k + 1
    ensures EmailsAllOf(RowOutcome(runner, k, texts[k]).combinedEmails, row)
  {
    RecordRows(row, texts[k], runner(k, texts[k]));
  }

  /** Every email collected from the first `n` rows carries a number at
      most `n`. */
  lemma EmailRowsBounded(runner: RowRunner, texts: seq<string>, n: nat)
    requires n <= |texts|
    ensures EmailsAllBelow(BatchUpTo(runner, texts, n).combinedEmails, n + 1)
  {
    EmailsComeFromSucceededRows(runner, texts, n);
  }

  /** Running row `n` leaves the emails of every other row alone. */
  lemma EmailsOfEarlierRow(runner: RowRunner, texts: seq<string>, n: nat, row: int)
    requires 0 < n <= |texts| && row != n
    ensures EmailsOf(BatchUpTo(runner, texts, n).combinedEmails, row) == EmailsOf(BatchUpTo(runner, texts, n - 1).combinedEmails, row)
  {
    RowEmailsCarryRow(runner, texts, n - 1, n);
    EmailsOfOther(BatchUpTo(runner, texts, n).combinedEmails, BatchUpTo(runner, texts, n - 1).combinedEmails, RowOutcome(runner, n - 1, texts[n - 1]).combinedEmails, n, row);
  }

  /** Rows after `m` leave the emails of rows up to `m` alone. */
  lemma {:induction false} EmailsStable(runner: RowRunner, texts: seq<string>, m: nat, n: nat, row: int)
    requires row <= m <= n <= |texts|
    ensures EmailsOf(BatchUpTo(runner, texts, n).combinedEmails, row) == EmailsOf(BatchUpTo(runner, texts, m).combinedEmails, row)
  {
    if m < n {
      EmailsOfEarlierRow(runner, texts, n, row);
      EmailsStable(runner, texts, m, n - 1, row);
    }
  }

  /** The emails numbered `row` right after that row (index `k`) ran are
      the ones it collected. */
  lemma EmailsOfLastRow(runner: RowRunner, texts: seq<string>, k: nat, row: nat)
    requires k < |texts| && row == k + 1
    ensures EmailsOf(BatchUpTo(runner, texts, row).combinedEmails, row) == RowOutcome(runner, k, texts[k]).combinedEmails
  {
    RowEmailsCarryRow(runner, texts, k, row);
    EmailRowsBounded(runner, texts, k);
    EmailsOfAppended(BatchUpTo(runner, texts, row).combinedEmails, BatchUpTo(runner, texts, k).combinedEmails, RowOutcome(runner, k, texts[k]).combinedEmails, row);
  }

  /** Row isolation: after `n` rows, the emails numbered `row` (index `k`)
      are exactly those that row's own iteration collected. */
  lemma EmailsIsolated(runner: RowRunner, texts: seq<string>, n: nat, k: nat, row: nat)
    requires k < n <= |texts| && row == k + 1
    ensures EmailsOf(BatchUpTo(runner, texts, n).combinedEmails, row) == RowOutcome(runner, k, texts[k]).combinedEmails
  {
    EmailsStable(runner, texts, row, n, row);
    EmailsOfLastRow(runner, texts, k, row);
  }

  /** The run of row `k + 1` succeeded and walking its emails raised
      nothing, or the run failed. */
  predicate CleanRow(runner: RowRunner, texts: seq<string>, k: nat)
    requires k < |texts|
  {
    var run := runner(k, texts[k]);
    run.Err? || TagEmails(k + 1, run.value.emails).fault.None?
  }

  /** When no row's emails are malformed, the batch writes exactly one
      record per row, the `k`-th for row `k + 1` with its text. */
  lemma {:induction false} CleanRowsGiveOneRecordEach(runner: RowRunner, texts: seq<string>, n: nat)
    requires n <= |texts|
    requires forall k :: 0 <= k < n ==> CleanRow(runner, texts, k)
    ensures |BatchUpTo(runner, texts, n).allResults| == n
    ensures forall k :: 0 <= k < n ==>
      BatchUpTo(runner, texts, n).allResults[k].row == k + 1
      && BatchUpTo(runner, texts, n).allResults[k].targetDesc == texts[k]
  {
    if n > 0 {
      CleanRowsGiveOneRecordEach(runner, texts, n - 1);
      CleanRowWritesOneRecord(runner, texts, n);
      var before := BatchUpTo(runner, texts, n - 1).allResults;
      var all := before + RowOutcome(runner, n - 1, texts[n - 1]).allResults;
      forall k | 0 <= k < n ensures all[k].row == k + 1 && all[k].targetDesc == texts[k] {
        if k < n - 1 {
          assert all[k] == before[k];
        }
      }
    }
  }

  /** A clean row writes a single record with its number and text. */
  lemma CleanRowWritesOneRecord(runner: RowRunner, texts: seq<string>, n: nat)
    requires 0 < n <= |texts| && CleanRow(runner, texts, n - 1)
    ensures |RowOutcome(runner, n - 1, texts[n - 1]).allResults| == 1
    ensures RowOutcome(runner, n - 1, texts[n - 1]).allResults[0].row == n
    ensures RowOutcome(runner, n - 1, texts[n - 1]).allResults[0].targetDesc == texts[n - 1]
  {
    RecordShape(n, texts[n - 1], runner(n - 1, texts[n - 1]));
    RecordRows(n, texts[n - 1], runner(n - 1, texts[n - 1]));
  }

  // ----- The double record, and the loop as evidently intended -----

  /** The record the loop body evidently intends for a row: its result only
      when its emails were walked without error, and otherwise the error. */
  function CorrectedEntry(row: int, text: string, run: Result<Results, Failure>): RowRecord {
    match run
    case Err(e) => RowError(row, text, e)
    case Ok(res) =>
      var fault := TagEmails(row, res.emails).fault;
      if fault.None? then RowResult(row, text, res) else RowError(row, text, fault.value)
  }

  /** The emails the loop body evidently intends to keep for a row: all of
      them when the walk raised nothing, and none otherwise. */
  function CorrectedEmails(row: int, run: Result<Results, Failure>): seq<TaggedEmail> {
    if run.Ok? && TagEmails(row, run.value.emails).fault.None? then TagEmails(row, run.value.emails).tagged else []
  }

  /** The loop body as evidently intended: one record per row. */
  function CorrectedRecord(row: int, text: string, run: Result<Results, Failure>): BatchOutput {
    BatchOutput([CorrectedEntry(row, text, run)], CorrectedEmails(row, run))
  }

  function CorrectedBatchUpTo(runner: RowRunner, texts: seq<string>, n: nat): BatchOutput
    requires n <= |texts|
  {
    if n == 0 then BatchOutput([], [])
    else
      var before := CorrectedBatchUpTo(runner, texts, n - 1);
      var here := CorrectedRecord(n, texts[n - 1], runner(n - 1, texts[n - 1]));
      BatchOutput(before.allResults + here.allResults, before.combinedEmails + here.combinedEmails)
  }

  /** A row's intended record carries its number and text, and is its
      result exactly when its run succeeded and its emails were walked
      without error. */
  lemma CorrectedEntryShape(row: int, text: string, run: Result<Results, Failure>)
    ensures CorrectedEntry(row, text, run).row == row
    ensures CorrectedEntry(row, text, run).targetDesc == text
    ensures CorrectedEntry(row, text, run).RowResult? <==> run.Ok? && TagEmails(row, run.value.emails).fault.None?
  {
  }

  /** Every intended record is a single entry. */
  predicate EntriesOfRows(runner: RowRunner, texts: seq<string>, n: nat, rs: seq<RowRecord>)
    requires n <= |texts|
  {
    |rs| == n && forall k :: 0 <= k < n ==> rs[k] == CorrectedEntry(k + 1, texts[k], runner(k, texts[k]))
  }

  /** As intended, after `n` rows the `k`-th record is row `k + 1`'s entry. */
  lemma {:induction false} CorrectedRecordsAreEntries(runner: RowRunner, texts: seq<string>, n: nat)
    requires n <= |texts|
    ensures EntriesOfRows(runner, texts, n, CorrectedBatchUpTo(runner, texts, n).allResults)
  {
    if n > 0 {
      CorrectedRecordsAreEntries(runner, texts, n - 1);
      var before := CorrectedBatchUpTo(runner, texts, n - 1).allResults;
      var all := before + [CorrectedEntry(n, texts[n - 1], runner(n - 1, texts[n - 1]))];
      assert CorrectedBatchUpTo(runner, texts, n).allResults == all;
      forall k | 0 <= k < n ensures all[k] == CorrectedEntry(k + 1, texts[k], runner(k, texts[k])) {
        if k < n - 1 {
          assert all[k] == before[k];
        }
      }
    }
  }

  /** As intended, every collected email comes from a row recorded as its
      result. */
  predicate FromResultRows(runner: RowRunner, texts: seq<string>, n: nat, emails: seq<TaggedEmail>)
    requires n <= |texts|
  {
    forall i :: 0 <= i < |emails| ==>
      1 <= emails[i].row <= n && CorrectedEntry(emails[i].row, texts[emails[i].row - 1], runner(emails[i].row - 1, texts[emails[i].row - 1])).RowResult?
  }

  lemma {:induction false} CorrectedEmailsFromResultRows(runner: RowRunner, texts: seq<string>, n: nat)
    requires n <= |texts|
    ensures FromResultRows(runner, texts, n, CorrectedBatchUpTo(runner, texts, n).combinedEmails)
  {
    if n > 0 {
      CorrectedEmailsFromResultRows(runner, texts, n - 1);
      var run := runner(n - 1, texts[n - 1]);
      var before := CorrectedBatchUpTo(runner, texts, n - 1).combinedEmails;
      var here := CorrectedEmails(n, run);
      if run.Ok? {
        TaggedWithRow(n, run.value.emails);
      }
      CorrectedEntryShape(n, texts[n - 1], run);
      var emails := before + here;
      assert CorrectedBatchUpTo(runner, texts, n).combinedEmails == emails;
      forall i | 0 <= i < |emails|
        ensures 1 <= emails[i].row <= n && CorrectedEntry(emails[i].row, texts[emails[i].row - 1], runner(emails[i].row - 1, texts[emails[i].row - 1])).RowResult?
      {
        if i >= |before| {
          assert emails[i] == here[i - |before|];
        } else {
          assert emails[i] == before[i];
        }
      }
    }
  }

  /** As intended, the `k`-th record is row `k + 1`'s, with its text; it is
      the result exactly when the row's run succeeded and its emails were
      walked without error, and every collected email belongs to a row
      recorded as its result. */
  lemma CorrectedBatchRecordsEachRowOnce(runner: RowRunner, texts: seq<string>, n: nat)
    requires n <= |texts|
    ensures var b := CorrectedBatchUpTo(runner, texts, n);
      && |b.allResults| == n
      && (forall k :: 0 <= k < n ==>
            && b.allResults[k].row == k + 1
            && b.allResults[k].targetDesc == texts[k]
            && (b.allResults[k].RowResult? <==> runner(k, texts[k]).Ok? && CleanRow(runner, texts, k)))
      && (forall i :: 0 <= i < |b.combinedEmails| ==>
            1 <= b.combinedEmails[i].row <= n && b.allResults[b.combinedEmails[i].row - 1].RowResult?)
  {
    var b := CorrectedBatchUpTo(runner, texts, n);
    CorrectedRecordsAreEntries(runner, texts, n);
    CorrectedEmailsFromResultRows(runner, texts, n);
    forall k | 0 <= k < n
      ensures && b.allResults[k].row == k + 1
              && b.allResults[k].targetDesc == texts[k]
              && (b.allResults[k].RowResult? <==> runner(k, texts[k]).Ok? && CleanRow(runner, texts, k))
    {
      CorrectedEntryShape(k + 1, texts[k], runner(k, texts[k]));
    }
    forall i | 0 <= i < |b.combinedEmails|
      ensures 1 <= b.combinedEmails[i].row <= n && b.allResults[b.combinedEmails[i].row - 1].RowResult?
    {
      var k := b.combinedEmails[i].row - 1;
      assert b.allResults[k] == CorrectedEntry(k + 1, texts[k], runner(k, texts[k]));
    }
  }

  /** Agents that answer every stage with an empty object text. */
  function StubAgents(p: Prompt): Reply {
    Replied("{}")
  }

  /** A reply that lists one company and one email that is not a dict. */
  const StubReply: Json := JObj(map["companies" := JArr([JStr("Acme")]), "emails" := JArr([JStr("Hello")])])

  function StubParse(s: string): Option<Json> {
    Some(StubReply)
  }

  const StubForm: Form := Form("Sales coaching", "Ann", "Acme Solutions", "", 3, "Professional")

  /** Every row gets the stub agents. */
  function StubEnv(idx: nat): Agents {
    StubAgents
  }

  /** What every stub run returns: one company everywhere, and one email
      that is a string rather than a dict. */
  const StubResults: Results := Results(JArr([JStr("Acme")]), JArr([JStr("Acme")]), JArr([JStr("Acme")]), JArr([JStr("Acme")]), JArr([JStr("Hello")]))

  /** Walking the stub's emails tags nothing and raises on the string. */
  lemma StubEmailsRaise(row: int)
    ensures TagEmails(row, StubResults.emails) == Tagging([], Some(NoAttributeGet(StrType)))
  {
    assert StubResults.emails == JArr([JStr("Hello")]);
    assert [JStr("Hello")][1..] == [];
  }

  /** As written, a row whose run succeeds but whose emails list holds a
      string gets two records: its result, then an error for the same row. */
  lemma AsWrittenRecordsARowTwice()
    ensures var b := Batch(StubEnv, StubParse, StubForm, [[Some("Acme Corp")]]);
      && |b.allResults| == 2
      && b.allResults[0] == RowResult(1, "Acme Corp", StubResults)
      && b.allResults[1] == RowError(1, "Acme Corp", NoAttributeGet(StrType))
  {
    var rows: seq<Row> := [[Some("Acme Corp")]];
    StubRowText();
    assert RowTexts(rows) == ["Acme Corp"];
    var runner := PipelineRunner(StubEnv, StubParse, StubForm);
    StubRun("Acme Corp");
    StubEmailsRaise(1);
    assert BatchUpTo(runner, ["Acme Corp"], 1).allResults == [RowResult(1, "Acme Corp", StubResults), RowError(1, "Acme Corp", NoAttributeGet(StrType))];
  }

  /** The stub sheet's one row reads as its one cell. */
  lemma StubRowText()
    ensures RowText([Some("Acme Corp")]) == "Acme Corp"
  {
    var row: Row := [Some("Acme Corp")];
    assert "Acme Corp"[0] == 'A' && !IsSpace('A');
    assert row[1..] == [];
    assert RowValues(row) == ["Acme Corp"];
  }

  /** Every stub row's run returns the stub results. */
  lemma StubRun(text: string)
    ensures PipelineRunner(StubEnv, StubParse, StubForm)(0, text) == Ok(StubResults)
  {
    var cfg := RowConfig(StubForm, text);
    assert cfg.numCompanies == 3;
    PipelineOnStub(cfg);
    assert StubEnv(0) == StubAgents;
  }

  /** Every stage call on the stub agents reads the stub reply. */
  lemma StubAsk(p: Prompt, key: string)
    requires key in StubReply.fields
    ensures Ask(StubAgents, StubParse, p, key) == Ok(StubReply.fields[key])
  {
    assert Extract(StubParse, StubAgents(p).content) == Ok(StubReply);
  }

  /** Every stage read from the stub reply succeeds. */
  lemma PipelineOnStub(cfg: Config)
    requires cfg.numCompanies >= 1
    ensures var listed := JArr([JStr("Acme")]);
      Pipeline.Pipeline(StubAgents, StubParse, cfg) == Ok(Results(listed, listed, listed, listed, JArr([JStr("Hello")])))
  {
    var listed := JArr([JStr("Acme")]);
    assert "companies" in StubReply.fields && StubReply.fields["companies"] == listed;
    assert "emails" in StubReply.fields && StubReply.fields["emails"] == JArr([JStr("Hello")]);
    forall p: Prompt ensures Ask(StubAgents, StubParse, p, "companies") == Ok(listed)
      && Ask(StubAgents, StubParse, p, "emails") == Ok(JArr([JStr("Hello")]))
    {
      StubAsk(p, "companies");
      StubAsk(p, "emails");
    }
    assert PyPrefix([JStr("Acme")], cfg.numCompanies) == [JStr("Acme")];
    assert CompanyFinder(StubAgents, StubParse, cfg.target, cfg.offering, cfg.numCompanies) == Ok(listed);
    assert Truthy(listed);
  }
}
