/**
 * Spreadsheet export: the question/answer rows of one response
 * (prepareExcelData, script.js:517-563) and the row-per-response table of
 * every stored response (exportAllResponsesToExcel, script.js:629-692).
 *
 * A cell is the JavaScript value handed to the spreadsheet writer: a
 * number (the response id), a string, or an array passed through as is.
 */
module ExcelExport {
  import opened FormEntries
  import opened ResponseLog

  datatype Option<T> = None | Some(value: T)

  /** A value placed in one spreadsheet cell. */
  datatype Cell = Number(n: real) | Text(s: string) | List(items: seq<string>)

  /** One row of the single-response sheet. */
  datatype Row = Row(question: string, answer: Cell)

  /**
   * A survey field as the two exports show it: its key in the collected
   * object, its label in the single-response sheet, its column in the bulk
   * table, and whether an array value is joined into one string.
   */
  datatype Field = Field(key: string, question: string, column: string, joined: bool)

  const NotSpecified := "Not specified"
  const Separator := ", "

  /** The fifteen fields both exports always show, in order. */
  const FixedFields: seq<Field> := [
    Field("age", "Age Range", "Age Range", false),
    Field("grade", "Grade Level", "Grade Level", false),
    Field("schoolType", "School Type", "School Type", false),
    Field("academicPerformance", "Academic Performance", "Academic Performance", false),
    Field("studyTime", "Study Time", "Study Time", false),
    Field("favoriteSubjects", "Favorite Subjects", "Favorite Subjects", true),
    Field("academicChallenge", "Biggest Academic Challenge", "Academic Challenge", false),
    Field("socialLife", "Social Life", "Social Life", false),
    Field("extracurriculars", "Extracurricular Activities", "Extracurricular Activities", true),
    Field("bullying", "Bullying Experience", "Bullying Experience", false),
    Field("facilities", "Facilities Rating", "Facilities Rating", false),
    Field("teachers", "Teacher Rating", "Teacher Rating", false),
    Field("safety", "Safety Rating", "Safety Rating", false),
    Field("futurePlans", "Post-Graduation Plans", "Future Plans", false),
    Field("preparation", "School Preparation", "School Preparation", false)
  ]

  /** The four free-text comment fields, in order. */
  const CommentFields: seq<Field> := [
    Field("bestExperience", "Best Experience", "Best Experience", false),
    Field("worstExperience", "Challenging Experience", "Challenging Experience", false),
    Field("suggestions", "Suggestions", "Suggestions", false),
    Field("additionalComments", "Additional Comments", "Additional Comments", false)
  ]

  /** The bulk table's columns, in order (script.js:642-664). */
  const Columns: seq<string> := [
    "Response ID", "Submitted On",
    "Age Range", "Grade Level", "School Type", "Academic Performance", "Study Time",
    "Favorite Subjects", "Academic Challenge", "Social Life", "Extracurricular Activities",
    "Bullying Experience", "Facilities Rating", "Teacher Rating", "Safety Rating",
    "Future Plans", "School Preparation",
    "Best Experience", "Challenging Experience", "Suggestions", "Additional Comments"
  ]

  /**
   * Array.prototype.join: the values in order with `sep` between each two.
   * An empty list joins to "", and any other list's text starts with its
   * first value.
   */
  function Join(xs: seq<string>, sep: string): (s: string)
    ensures xs == [] ==> s == ""
    ensures xs != [] ==> xs[0] <= s
  {
    if xs == [] then ""
    else if |xs| == 1 then xs[0]
    else xs[0] + sep + Join(xs[1..], sep)
  }

  /** Pushing one more value onto a list extends its joined text by the separator and that value. */
  lemma {:induction false} JoinAppend(xs: seq<string>, x: string, sep: string)
    requires xs != []
    ensures Join(xs + [x], sep) == Join(xs, sep) + sep + x
  {
    if |xs| > 1 {
      assert (xs + [x])[1..] == xs[1..] + [x];
      JoinAppend(xs[1..], x, sep);
    } else {
      assert xs + [x] == [xs[0], x];
      assert [xs[0], x][1..] == [x];
    }
  }

  /** A collected value passed to the sheet unchanged. */
  function AsCell(v: Value): Cell
  {
    match v
    case Single(s) => Text(s)
    case Multi(xs) => List(xs)
  }

  /**
   * Whether `data.key` is truthy: `Truthy` applied to a key lookup, where a
   * missing key is falsy. This is the test of `x || fallback` and of the
   * guards on the comment rows.
   */
  predicate Present(data: map<string, Value>, key: string)
    ensures Present(data, key) <==> key in data && data[key] != Single("")
  {
    key in data && Truthy(data[key])
  }

  /** `data.key || fallback`. */
  function Or(data: map<string, Value>, key: string, fallback: string): (c: Cell)
    ensures Present(data, key) ==> c == AsCell(data[key])
    ensures !Present(data, key) ==> c == Text(fallback)
  {
    if Present(data, key) then AsCell(data[key]) else Text(fallback)
  }

  /** `Array.isArray(data.key) ? data.key.join(', ') : data.key || 'Not specified'`. */
  function JoinedOr(data: map<string, Value>, key: string): (c: Cell)
    ensures key in data && data[key].Multi? ==> c == Text(Join(data[key].items, Separator))
    ensures Present(data, key) && data[key].Single? ==> c == Text(data[key].text)
    ensures !Present(data, key) ==> c == Text(NotSpecified)
    ensures c.Text?
  {
    if key in data && data[key].Multi? then Text(Join(data[key].items, Separator))
    else Or(data, key, NotSpecified)
  }

  /**
   * The cell a fixed field gets, in both exports: 'Not specified' when the
   * field is missing or empty, its text when it holds one string, and when
   * it holds a list, the list joined by ", " for a multi-select field and the
   * list itself otherwise.
   */
  function FieldCell(data: map<string, Value>, f: Field): (c: Cell)
    ensures !Present(data, f.key) ==> c == Text(NotSpecified)
    ensures f.key in data && data[f.key].Single? && Present(data, f.key) ==> c == Text(data[f.key].text)
    ensures f.key in data && data[f.key].Multi? && f.joined ==> c == Text(Join(data[f.key].items, Separator))
    ensures f.key in data && data[f.key].Multi? && !f.joined ==> c == List(data[f.key].items)
  {
    if f.joined then JoinedOr(data, f.key) else Or(data, f.key, NotSpecified)
  }

  /** The cell a comment field gets in the bulk table: its value, or '' when missing or empty. */
  function CommentCell(data: map<string, Value>, f: Field): (c: Cell)
    ensures !Present(data, f.key) ==> c == Text("")
    ensures Present(data, f.key) ==> c == AsCell(data[f.key])
  {
    Or(data, f.key, "")
  }

  /** The comment rows of the single-response sheet: one per present field of `fs`, in order. */
  function CommentRows(data: map<string, Value>, fs: seq<Field>): (rows: seq<Row>)
    ensures |rows| <= |fs|
  {
    if fs == [] then []
    else
      (if Present(data, fs[0].key) then [Row(fs[0].question, AsCell(data[fs[0].key]))] else [])
      + CommentRows(data, fs[1..])
  }

  /**
   * Exactly the present comment fields get a row: every present field of
   * `fs` has its row, and every row is that of a present field.
   */
  lemma {:induction false} CommentRowsArePresentFields(data: map<string, Value>, fs: seq<Field>)
    ensures forall j :: 0 <= j < |fs| && Present(data, fs[j].key) ==>
      Row(fs[j].question, AsCell(data[fs[j].key])) in CommentRows(data, fs)
    ensures forall row :: row in CommentRows(data, fs) ==>
      exists j :: 0 <= j < |fs| && Present(data, fs[j].key) && row == Row(fs[j].question, AsCell(data[fs[j].key]))
  {
    if fs != [] {
      var rest := fs[1..];
      CommentRowsArePresentFields(data, rest);
      assert forall j :: 0 < j < |fs| ==> fs[j] == rest[j - 1];
      forall row | row in CommentRows(data, fs)
        ensures exists j :: 0 <= j < |fs| && Present(data, fs[j].key) && row == Row(fs[j].question, AsCell(data[fs[j].key]))
      {
        if row !in CommentRows(data, rest) {
          assert Present(data, fs[0].key) && row == Row(fs[0].question, AsCell(data[fs[0].key]));
        } else {
          var k :| 0 <= k < |rest| && Present(data, rest[k].key) && row == Row(rest[k].question, AsCell(data[rest[k].key]));
          assert fs[k + 1] == rest[k];
        }
      }
    }
  }

  /** With no comment present the sheet has no comment rows; with one, just that row. */
  lemma CommentRowsCount(data: map<string, Value>)
    ensures (forall j :: 0 <= j < |CommentFields| ==> !Present(data, CommentFields[j].key))
      ==> CommentRows(data, CommentFields) == []
    ensures forall j :: (
      && 0 <= j < |CommentFields|
      && Present(data, CommentFields[j].key)
      && (forall k :: 0 <= k < |CommentFields| && k != j ==> !Present(data, CommentFields[k].key))
      ==> CommentRows(data, CommentFields) == [Row(CommentFields[j].question, AsCell(data[CommentFields[j].key]))])
  {
    CommentRowsUnfold(data);
    var f0, f1, f2, f3 := CommentFields[0], CommentFields[1], CommentFields[2], CommentFields[3];
    assert f0.key == "bestExperience" && f1.key == "worstExperience";
    assert f2.key == "suggestions" && f3.key == "additionalComments";
  }

  /** CommentRows over the four comment fields, written out. */
  lemma CommentRowsUnfold(data: map<string, Value>)
    ensures CommentRows(data, CommentFields) ==
      (if Present(data, "bestExperience") then [Row("Best Experience", AsCell(data["bestExperience"]))] else [])
      + (if Present(data, "worstExperience") then [Row("Challenging Experience", AsCell(data["worstExperience"]))] else [])
      + (if Present(data, "suggestions") then [Row("Suggestions", AsCell(data["suggestions"]))] else [])
      + (if Present(data, "additionalComments") then [Row("Additional Comments", AsCell(data["additionalComments"]))] else [])
  {
    var fs := CommentFields;
    assert CommentRows(data, fs[3..]) ==
      (if Present(data, "additionalComments") then [Row("Additional Comments", AsCell(data["additionalComments"]))] else [])
      + CommentRows(data, fs[4..]);
    assert CommentRows(data, fs[2..]) ==
      (if Present(data, "suggestions") then [Row("Suggestions", AsCell(data["suggestions"]))] else [])
      + CommentRows(data, fs[3..]) by { assert fs[2..][1..] == fs[3..]; }
    assert CommentRows(data, fs[1..]) ==
      (if Present(data, "worstExperience") then [Row("Challenging Experience", AsCell(data["worstExperience"]))] else [])
      + CommentRows(data, fs[2..]) by { assert fs[1..][1..] == fs[2..]; }
    assert fs[3..][1..] == fs[4..] == [];
  }

  /** Pushing the comment rows one field at a time appends CommentRows. */
  lemma PushedCommentRows(data: map<string, Value>, rows: seq<Row>)
    ensures rows + CommentRows(data, CommentFields) == rows
      + (if Present(data, "bestExperience") then [Row("Best Experience", AsCell(data["bestExperience"]))] else [])
      + (if Present(data, "worstExperience") then [Row("Challenging Experience", AsCell(data["worstExperience"]))] else [])
      + (if Present(data, "suggestions") then [Row("Suggestions", AsCell(data["suggestions"]))] else [])
      + (if Present(data, "additionalComments") then [Row("Additional Comments", AsCell(data["additionalComments"]))] else [])
  {
    CommentRowsUnfold(data);
  }

  /** The single-response sheet's row for the i-th fixed field. */
  function FixedRow(data: map<string, Value>, i: nat): Row
    requires i < |FixedFields|
  {
    Row(FixedFields[i].question, FieldCell(data, FixedFields[i]))
  }

  /** The "Personal Information" pushes of prepareExcelData. */
  method PushPersonalInformation(data: map<string, Value>, rows: seq<Row>) returns (out: seq<Row>)
    ensures out == rows + [FixedRow(data, 0), FixedRow(data, 1), FixedRow(data, 2)]
  {
    out := rows;
    out := out + [Row("Age Range", Or(data, "age", NotSpecified))];
    out := out + [Row("Grade Level", Or(data, "grade", NotSpecified))];
    out := out + [Row("School Type", Or(data, "schoolType", NotSpecified))];
  }

  /** The "Academic Experience" pushes of prepareExcelData. */
  method PushAcademicExperience(data: map<string, Value>, rows: seq<Row>) returns (out: seq<Row>)
    ensures out == rows + [FixedRow(data, 3), FixedRow(data, 4), FixedRow(data, 5), FixedRow(data, 6)]
  {
    out := rows;
    out := out + [Row("Academic Performance", Or(data, "academicPerformance", NotSpecified))];
    out := out + [Row("Study Time", Or(data, "studyTime", NotSpecified))];
    out := out + [Row("Favorite Subjects", JoinedOr(data, "favoriteSubjects"))];
    out := out + [Row("Biggest Academic Challenge", Or(data, "academicChallenge", NotSpecified))];
  }

  /** The "Social Experience" pushes of prepareExcelData. */
  method PushSocialExperience(data: map<string, Value>, rows: seq<Row>) returns (out: seq<Row>)
    ensures out == rows + [FixedRow(data, 7), FixedRow(data, 8), FixedRow(data, 9)]
  {
    out := rows;
    out := out + [Row("Social Life", Or(data, "socialLife", NotSpecified))];
    out := out + [Row("Extracurricular Activities", JoinedOr(data, "extracurriculars"))];
    out := out + [Row("Bullying Experience", Or(data, "bullying", NotSpecified))];
  }

  /** The "School Environment" pushes of prepareExcelData. */
  method PushSchoolEnvironment(data: map<string, Value>, rows: seq<Row>) returns (out: seq<Row>)
    ensures out == rows + [FixedRow(data, 10), FixedRow(data, 11), FixedRow(data, 12)]
  {
    out := rows;
    out := out + [Row("Facilities Rating", Or(data, "facilities", NotSpecified))];
    out := out + [Row("Teacher Rating", Or(data, "teachers", NotSpecified))];
    out := out + [Row("Safety Rating", Or(data, "safety", NotSpecified))];
  }

  /** The "Future Plans" pushes of prepareExcelData. */
  method PushFuturePlans(data: map<string, Value>, rows: seq<Row>) returns (out: seq<Row>)
    ensures out == rows + [FixedRow(data, 13), FixedRow(data, 14)]
  {
    out := rows;
    out := out + [Row("Post-Graduation Plans", Or(data, "futurePlans", NotSpecified))];
    out := out + [Row("School Preparation", Or(data, "preparation", NotSpecified))];
  }

  /** The "Comments" section of prepareExcelData: push a row for each present comment, in order. */
  method PushCommentRows(data: map<string, Value>, rows: seq<Row>) returns (out: seq<Row>)
    ensures out == rows + CommentRows(data, CommentFields)
  {
    out := rows;
    if Present(data, "bestExperience") {
      out := out + [Row("Best Experience", AsCell(data["bestExperience"]))];
    }
    assert out == rows + (if Present(data, "bestExperience") then [Row("Best Experience", AsCell(data["bestExperience"]))] else []);
    if Present(data, "worstExperience") {
      out := out + [Row("Challenging Experience", AsCell(data["worstExperience"]))];
    }
    assert out == rows + (if Present(data, "bestExperience") then [Row("Best Experience", AsCell(data["bestExperience"]))] else [])
      + (if Present(data, "worstExperience") then [Row("Challenging Experience", AsCell(data["worstExperience"]))] else []);
    if Present(data, "suggestions") {
      out := out + [Row("Suggestions", AsCell(data["suggestions"]))];
    }
    if Present(data, "additionalComments") {
      out := out + [Row("Additional Comments", AsCell(data["additionalComments"]))];
    }
    PushedCommentRows(data, rows);
  }

  /**
   * prepareExcelData: the fifteen fixed rows, then a row for each present
   * comment, then the submission time, pushed section by section.
   */
  method PrepareExcelData(data: map<string, Value>, submittedOn: string) returns (rows: seq<Row>)
    ensures |rows| == |FixedFields| + |CommentRows(data, CommentFields)| + 1
    ensures forall i :: 0 <= i < |FixedFields| ==> rows[i] == FixedRow(data, i)
    ensures rows[|FixedFields|..|rows| - 1] == CommentRows(data, CommentFields)
    ensures rows[|rows| - 1] == Row("Submitted On", Text(submittedOn))
  {
    rows := [];
    rows := PushPersonalInformation(data, rows);
    rows := PushAcademicExperience(data, rows);
    rows := PushSocialExperience(data, rows);
    rows := PushSchoolEnvironment(data, rows);
    rows := PushFuturePlans(data, rows);
    ghost var fixed := rows;
    forall i | 0 <= i < |FixedFields| ensures fixed[i] == FixedRow(data, i) {
      if i < 3 {} else if i < 7 {} else if i < 10 {} else if i < 13 {} else {}
    }
    rows := PushCommentRows(data, rows);
    // Metadata
    rows := rows + [Row("Submitted On", Text(submittedOn))];
    assert rows[|FixedFields|..|rows| - 1] == CommentRows(data, CommentFields);
    assert forall i :: 0 <= i < |FixedFields| ==> rows[i] == fixed[i];
  }

  /** The bulk table's first row: every cell is its own column's name. */
  function HeaderRow(): (header: seq<Cell>)
    ensures |header| == |Columns|
    ensures forall i :: 0 <= i < |Columns| ==> header[i] == Text(Columns[i])
  {
    [ Text("Response ID"), Text("Submitted On"),
      Text("Age Range"), Text("Grade Level"), Text("School Type"),
      Text("Academic Performance"), Text("Study Time"), Text("Favorite Subjects"),
      Text("Academic Challenge"), Text("Social Life"), Text("Extracurricular Activities"),
      Text("Bullying Experience"), Text("Facilities Rating"), Text("Teacher Rating"),
      Text("Safety Rating"), Text("Future Plans"), Text("School Preparation"),
      Text("Best Experience"), Text("Challenging Experience"), Text("Suggestions"),
      Text("Additional Comments") ]
  }

  /** The bulk columns are the id, the time, then the fixed and the comment fields' columns. */
  lemma ColumnsFollowFields()
    ensures |Columns| == 2 + |FixedFields| + |CommentFields|
    ensures Columns[0] == "Response ID" && Columns[1] == "Submitted On"
    ensures forall i :: 0 <= i < |FixedFields| ==> Columns[2 + i] == FixedFields[i].column
    ensures forall j :: 0 <= j < |CommentFields| ==> Columns[2 + |FixedFields| + j] == CommentFields[j].column
  {
  }

  /**
   * One stored response as a bulk-table row, in column order. `localize`
   * stands for `new Date(timestamp).toLocaleString()`.
   */
  function ResponseRow(r: Response, localize: string -> string): (row: seq<Cell>)
    ensures |row| == |Columns|
    ensures row[0] == Number(r.id) && row[1] == Text(localize(r.timestamp))
  {
    [Number(r.id), Text(localize(r.timestamp))] + FixedCells(r.data) + CommentCells(r.data)
  }

  /** The row's cells for the fixed fields, each key spelled out as the row literal has it. */
  function FixedCells(d: map<string, Value>): (cells: seq<Cell>)
    ensures |cells| == |FixedFields|
  {
    [ Or(d, "age", NotSpecified), Or(d, "grade", NotSpecified), Or(d, "schoolType", NotSpecified),
      Or(d, "academicPerformance", NotSpecified), Or(d, "studyTime", NotSpecified),
      JoinedOr(d, "favoriteSubjects"), Or(d, "academicChallenge", NotSpecified),
      Or(d, "socialLife", NotSpecified), JoinedOr(d, "extracurriculars"),
      Or(d, "bullying", NotSpecified), Or(d, "facilities", NotSpecified),
      Or(d, "teachers", NotSpecified), Or(d, "safety", NotSpecified),
      Or(d, "futurePlans", NotSpecified), Or(d, "preparation", NotSpecified) ]
  }

  /** The row's cells for the comment fields, '' standing in for a missing one. */
  function CommentCells(d: map<string, Value>): (cells: seq<Cell>)
    ensures |cells| == |CommentFields|
    ensures forall j :: 0 <= j < |cells| ==> cells[j].Text? || cells[j].List?
  {
    [ Or(d, "bestExperience", ""), Or(d, "worstExperience", ""),
      Or(d, "suggestions", ""), Or(d, "additionalComments", "") ]
  }

  /**
   * A response's bulk row has one cell per column: the id, the localised
   * submission time, each fixed field as in the single-response sheet
   * ('Not specified' when missing), and each comment field ('' when missing).
   */
  lemma ResponseRowFollowsColumns(r: Response, localize: string -> string)
    ensures |ResponseRow(r, localize)| == |Columns|
    ensures ResponseRow(r, localize)[0] == Number(r.id)
    ensures ResponseRow(r, localize)[1] == Text(localize(r.timestamp))
    ensures forall i :: 0 <= i < |FixedFields| ==>
      ResponseRow(r, localize)[2 + i] == FieldCell(r.data, FixedFields[i])
    ensures forall j :: 0 <= j < |CommentFields| ==>
      ResponseRow(r, localize)[2 + |FixedFields| + j] == CommentCell(r.data, CommentFields[j])
  {
    var d := r.data;
    var row := ResponseRow(r, localize);
    forall i | 0 <= i < |FixedFields|
      ensures row[2 + i] == FieldCell(d, FixedFields[i])
    {
      FixedCellAt(d, i);
    }
    forall j | 0 <= j < |CommentFields|
      ensures row[2 + |FixedFields| + j] == CommentCell(d, CommentFields[j])
    {
      CommentCellAt(d, j);
    }
  }

  /** The cell of the i-th fixed field. */
  lemma FixedCellAt(d: map<string, Value>, i: nat)
    requires i < |FixedFields|
    ensures |FixedCells(d)| == |FixedFields|
    ensures FixedCells(d)[i] == FieldCell(d, FixedFields[i])
  {
    FixedCellsBySchema(d);
    // Not needed for validity: naming each index keeps the proof several times cheaper.
    if i == 0 {} else if i == 1 {} else if i == 2 {} else if i == 3 {} else if i == 4 {}
    else if i == 5 {} else if i == 6 {} else if i == 7 {} else if i == 8 {} else if i == 9 {}
    else if i == 10 {} else if i == 11 {} else if i == 12 {} else if i == 13 {} else {}
  }

  /** The row literal's fixed cells are the schema's cells, field by field. */
  lemma FixedCellsBySchema(d: map<string, Value>)
    ensures FixedCells(d) == [
      FieldCell(d, FixedFields[0]), FieldCell(d, FixedFields[1]), FieldCell(d, FixedFields[2]),
      FieldCell(d, FixedFields[3]), FieldCell(d, FixedFields[4]), FieldCell(d, FixedFields[5]),
      FieldCell(d, FixedFields[6]), FieldCell(d, FixedFields[7]), FieldCell(d, FixedFields[8]),
      FieldCell(d, FixedFields[9]), FieldCell(d, FixedFields[10]), FieldCell(d, FixedFields[11]),
      FieldCell(d, FixedFields[12]), FieldCell(d, FixedFields[13]), FieldCell(d, FixedFields[14])]
  {
  }

  /** The cell of the j-th comment field. */
  lemma CommentCellAt(d: map<string, Value>, j: nat)
    requires j < |CommentFields|
    ensures |CommentCells(d)| == |CommentFields|
    ensures CommentCells(d)[j] == CommentCell(d, CommentFields[j])
  {
  }

  /**
   * exportAllResponsesToExcel's table: nothing when the store reads empty;
   * otherwise the header row, then one row per stored response in storage
   * order, built by successive pushes.
   */
  method ExportAllResponses(store: ResponseStore, localize: string -> string) returns (table: Option<seq<seq<Cell>>>)
    ensures table.None? <==> Readable(store.slot) == []
    ensures table.Some? ==> |table.value| == |Readable(store.slot)| + 1
    ensures table.Some? ==> table.value[0] == HeaderRow()
    ensures table.Some? ==> forall i :: 0 <= i < |Readable(store.slot)| ==>
      table.value[i + 1] == ResponseRow(Readable(store.slot)[i], localize)
  {
    var all := store.GetAllResponses();
    if |all| == 0 {
      return None;
    }
    var rows := [HeaderRow()];
    for i := 0 to |all|
      invariant |rows| == i + 1
      invariant rows[0] == HeaderRow()
      invariant forall k :: 0 <= k < i ==> rows[k + 1] == ResponseRow(all[k], localize)
    {
      rows := rows + [ResponseRow(all[i], localize)];
    }
    table := Some(rows);
  }

  /**
   * A multi-select field entered k >= 2 times with a non-empty first value is
   * exported, in both sheets, as all its values joined by ", " in entry order.
   */
  lemma MultiSelectExport(entries: seq<Entry>, i: nat)
    requires i < |FixedFields| && FixedFields[i].joined
    requires |ValuesOf(entries, FixedFields[i].key)| >= 2 && ValuesOf(entries, FixedFields[i].key)[0] != ""
    ensures FieldCell(Collected(entries), FixedFields[i]) == Text(Join(ValuesOf(entries, FixedFields[i].key), Separator))
  {
    RepeatedKeepsAll(entries, FixedFields[i].key);
  }
}
