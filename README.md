# School survey: form folding, response store and spreadsheet export

This project is a Dafny model of the data-handling core of the school
experience survey page (`script.js`). It covers three parts of that code:

- **Form folding** (`collectFormData`). The submitted form's ordered
  `(name, value)` entries are folded into one object. A name seen once keeps
  its string. A repeated name, such as a group of checkboxes, becomes the
  list of its values. The test that decides between the two is JavaScript
  truthiness, so a name whose current value is the empty string is
  overwritten by its next value instead of being turned into a list.
  `FormEntries.CollectFormData` is the loop, and its contract ties the result
  to a description that does not use the loop (`Expected`).
- **Response store** (`saveResponseToStorage`, `getAllResponses`,
  `clearAllResponses`). One local-storage slot, keyed
  `school_survey_responses`, holds the list of `{id, timestamp, data}`
  records. The slot is a field of the class `ResponseLog.ResponseStore`. It
  is absent, holds text that does not parse, or holds a list.
  - Reading an absent or unparseable slot gives the empty list.
  - Saving re-reads the list, appends one record and writes the whole list
    back. A write that throws is swallowed and leaves the slot as it was.
  - A confirmed clear removes the slot.
  - Runs of store operations (`Replay`) are shown to grow the list
    append-only, in call order.
- **Spreadsheet export** (`prepareExcelData` and the table built by
  `exportAllResponsesToExcel`).
  - The single-response sheet always has the 15 fixed question rows in
    order. Then it has one row for each present comment, in a fixed order,
    and finally one 'Submitted On' row.
  - The bulk table has a 21-cell header row whose cells are their own column
    names. Then it has one row per stored response, in storage order.
  - The page spells out the fixed fields twice, once for each export. The
    model proves that both lists agree, field by field, with one shared
    schema (`FixedFields`). They have the same keys in the same order, the
    same 'Not specified' default and the same joining.
  - A missing or empty field reads 'Not specified'. In the bulk table a
    missing comment reads ''.
  - A list value of a multi-select field (`favoriteSubjects`,
    `extracurriculars`) is joined with ", ". A list in any other field is
    passed to the sheet unchanged.

Inputs from the outside world are parameters:

- whether the storage write succeeded;
- the answer to the confirmation dialog;
- the record id (`Date.now() + Math.random()` in the page);
- the ISO timestamp;
- the localised time strings (`toLocaleString`).

## Model

| member | source | states |
|---|---|---|
| FormEntries.Truthy | script.js:182 | The loop's test: a collected value is falsy only when it is the empty string. A list, even an empty one, is truthy. |
| FormEntries.Step | script.js:182-191 | Reading one entry adds its name to the object's keys and leaves every other name as it was. A missing or falsy current value is replaced by the single new value. A truthy one becomes a list ending with the new value. |
| FormEntries.Collected | script.js:181-192 | The object after the loop has read a list of entries has exactly the names entered as its keys. |
| FormEntries.CollectFormData | script.js:175-195 | The loop's result has exactly the names entered as its keys. Each name holds `Expected` of its values in entry order: the values before the first non-empty one are lost, all values from there on form a list if more than one remains, and otherwise the last value stands alone. |
| FormEntries.StepExtendsExpected | script.js:182-191 | One iteration of the loop body takes a name from `Expected(vs)` to `Expected(vs + [v])`. This covers each of the truthy-list, truthy-string and falsy branches. |
| FormEntries.CollectedIsExpected | script.js:181-192 | The object built by the loop contains a name iff that name was entered, and the name maps to `Expected` of its values. |
| FormEntries.SeenOnce | script.js:189-191 | A name entered exactly once maps to its single string. |
| FormEntries.RepeatedKeepsAll | script.js:182-188 | A name entered k >= 2 times with a non-empty first value maps to the list of all k values in entry order. |
| FormEntries.EmptyValuesOverwritten | script.js:182-191 | When every value of a name except the last is the empty string, the truthiness test lets each value overwrite the one before, so the name holds only its last value as a single string. |
| ResponseLog.Readable | script.js:618-626 | A read returns the stored list when the slot holds one, and [] when the slot is absent or its text does not parse. |
| ResponseLog.Saved | script.js:592-615 | An accepted write leaves a stored list equal to the previously readable list followed by exactly the new record. A write that throws leaves the slot exactly as it was. |
| ResponseLog.Cleared | script.js:814-820 | A confirmed clear leaves a slot that reads as empty. An unconfirmed clear leaves the slot as it was. |
| ResponseLog.ResponseStore.GetAllResponses | script.js:618-626 | Returns the readable list and changes nothing: the stored list, or [] for an absent slot or one that does not parse. |
| ResponseLog.ResponseStore.SaveResponseToStorage | script.js:592-615 | The new slot is `Saved(old slot, record, writeOk)`: the record built from the data, id and timestamp is appended to what a read returned, and a failed write changes nothing. |
| ResponseLog.ResponseStore.ClearAllResponses | script.js:814-820 | The new slot is `Cleared(old slot, confirmed)`. |
| ResponseLog.ApplyAppends | script.js:592-615 | Any store action other than a confirmed clear appends to the readable list exactly what it logs: one record for an accepted submission, nothing otherwise. |
| ResponseLog.ReplayAppends | script.js:595-608 | Over any run of operations without a confirmed clear, the readable list after the run is the list before it followed by the accepted submissions, in call order. Earlier records are unchanged. |
| ResponseLog.SubmissionsReadBack | script.js:595-608 | Starting from an empty store, N accepted submissions read back as exactly N records. Record i carries the id, timestamp and data of submission i. |
| ResponseLog.ClearedReadsEmpty | script.js:815-816 | After a confirmed clear, whatever came before it, a read returns []. |
| ResponseLog.SaveOntoCorrupt | script.js:595-608 | Saving onto a slot that does not parse leaves a one-record list. |
| ExcelExport.Join | script.js:528 | `join(', ')`: an empty list joins to "", and any other list's joined text starts with its first value. |
| ExcelExport.JoinAppend | script.js:528 | `join(', ')` of a list with one more value is the old joined text, then the separator, then that value. |
| ExcelExport.Or | script.js:521-543 | `value || fallback`: a present, non-empty value is passed to the cell as it is, and a missing or empty one gives the fallback. |
| ExcelExport.JoinedOr | script.js:528-533 | A list is joined by ", ", a non-empty string stands as it is, and a missing or empty value gives 'Not specified'. The cell is always text. |
| ExcelExport.FieldCell | script.js:521-543 | A fixed field's answer is 'Not specified' when it is missing or empty. A single string is shown as is. A list is joined by ", " for a multi-select field, and passed through unchanged otherwise. |
| ExcelExport.CommentCell | script.js:687-690 | A bulk comment cell is '' when the field is missing or empty, and the field's value otherwise. |
| ExcelExport.Present | script.js:546-556 | The truthiness test on `data.key`: a missing key is falsy, and a present value is tested with `Truthy`. |
| ExcelExport.CommentRows | script.js:545-557 | There are never more comment rows than comment fields. |
| ExcelExport.CommentRowsArePresentFields | script.js:545-557 | Every present comment field has its row, and every comment row belongs to a present field. |
| ExcelExport.CommentRowsCount | script.js:545-557 | With no comment present there are no comment rows. With exactly one present, there is exactly that one row. |
| ExcelExport.PushPersonalInformation | script.js:520-523 | The three pushes append the fixed rows 0-2 (Age Range, Grade Level, School Type). |
| ExcelExport.PushAcademicExperience | script.js:525-529 | The four pushes append the fixed rows 3-6, including the joined Favorite Subjects. |
| ExcelExport.PushSocialExperience | script.js:531-534 | The three pushes append the fixed rows 7-9, including the joined Extracurricular Activities. |
| ExcelExport.PushSchoolEnvironment | script.js:536-539 | The three pushes append the fixed rows 10-12. |
| ExcelExport.PushFuturePlans | script.js:541-543 | The two pushes append the fixed rows 13-14. |
| ExcelExport.PushCommentRows | script.js:545-557 | The four guarded pushes append exactly `CommentRows` of the four comment fields. |
| ExcelExport.PrepareExcelData | script.js:517-563 | The rows are the 15 fixed rows in schema order, then the present comment rows in order, then one 'Submitted On' row. The length is 16 plus the number of comment rows. |
| ExcelExport.HeaderRow | script.js:642-664 | The header row has 21 cells, and each cell is its own column's name. |
| ExcelExport.ColumnsFollowFields | script.js:642-664 | The bulk columns are Response ID and Submitted On, then the fixed fields' columns, then the comment fields' columns, in schema order. |
| ExcelExport.ResponseRow | script.js:669-690 | A response's bulk row has 21 cells. It starts with the numeric id and the localised submission time. |
| ExcelExport.FixedCells | script.js:672-686 | The row literal has one cell per fixed field: 15 cells. |
| ExcelExport.CommentCells | script.js:687-690 | The row literal has one cell per comment field: 4 cells. Each cell is text or a list passed through as it is. |
| ExcelExport.ResponseRowFollowsColumns | script.js:667-691 | A response row has one cell per column. The cells are the id, the localised time, each fixed field's cell as in the single-response sheet ('Not specified' default, multi-select joined), and each comment field's cell ('' default). |
| ExcelExport.FixedCellAt | script.js:672-686 | The row literal's i-th fixed cell is the schema's `FieldCell` for field i. |
| ExcelExport.FixedCellsBySchema | script.js:672-686 | The 15 literal fixed cells are, in order, the schema's `FieldCell` of each fixed field. |
| ExcelExport.CommentCellAt | script.js:687-690 | The row literal's j-th comment cell is the schema's `CommentCell` for comment field j. |
| ExcelExport.ExportAllResponses | script.js:629-692 | There is no table iff the store reads empty. Otherwise the table has n+1 rows: the header first, then row i+1 built from stored response i, in storage order. |
| ExcelExport.MultiSelectExport | script.js:528-533 | A multi-select field entered k >= 2 times with a non-empty first value is exported as all k values joined by ", " in entry order. This links the form folding to both exports. |

`prepareExcelData` is one function in the page. Its commented sections are
written here as separate methods, called in order by
`ExcelExport.PrepareExcelData`:

- `PushPersonalInformation`
- `PushAcademicExperience`
- `PushSocialExperience`
- `PushSchoolEnvironment`
- `PushFuturePlans`
- `PushCommentRows`

## Left out

- Page wiring and rendering are not modelled: progress bar, error display, summary HTML, admin panel markup, keyboard shortcuts, scrolling and alerts. They only touch the page.
- `validateForm` and `updateProgress` are not modelled. They are bound to the page's DOM queries, and `updateProgress` works in floating point.
- `sendEmail` and `createEmailContent` are not modelled. They are an asynchronous call to a third-party mail service, plus text templating.
- The spreadsheet library calls are not modelled: workbook creation, `json_to_sheet`, column widths, file names and downloads. They are foreign code. The model stops at the list of values handed to the sheet writer.
- `exportToExcel` (the single-response button) is not modelled beyond `prepareExcelData`. This covers its guard on a missing current response and its error reporting.
- The try/catch around the bulk export is not modelled, because nothing in the modelled part can throw.
- JSON encoding and local-storage internals are abstracted by the slot's three states. A slot whose text parses to something other than a list of records is not modelled.
- Record ids and timestamps are inputs. Nothing is claimed about id uniqueness, because `Date.now() + Math.random()` does not guarantee it.
- `toLocaleString` is the `localize` parameter in the bulk table, and the single sheet's 'Submitted On' text is an input string.
- FormEntries.CollectFormData does not model names that coincide with properties inherited by plain JavaScript objects, such as `constructor`. For those, `data[key]` is truthy before any value is stored.
- FormEntries.CollectFormData does not model file inputs: every form value is a string.
- Reads are assumed not to throw. In the page, a `getItem` that throws makes `getAllResponses` return [] even when the slot holds a list. In the model, a stored list always reads back as itself.
- Console logging of the saved count and of caught errors is dropped.
