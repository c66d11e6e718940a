/** Cleaning of the cells of one tab-separated row (`TSVReader`). The reader's
    field mappings are fixed when it is built and never change, so they are a
    parameter here. */
module TsvReader {
  import opened Wrappers
  import opened PyStr

  /** A cell as the data frame hands it over: missing (NaN or None), a string,
      or another scalar, modelled as an integer. */
  datatype Cell = Missing | Str(s: string) | Other(n: int)

  /** Per column name, a table from cleaned text to replacement text. */
  type FieldMappings = map<string, map<string, string>>

  /** A cleaned row: column name to cleaned value. */
  type RowData = map<string, Cell>

  /** A data frame: its column names and its rows, each indexed by column name. */
  datatype Frame = Frame(columns: seq<string>, rows: seq<map<string, Cell>>)

  /** Every row of a data frame has a cell in every column. */
  predicate WellFormed(frame: Frame) {
    forall i, c :: 0 <= i < |frame.rows| && c in frame.columns ==> c in frame.rows[i]
  }

  /** Python truthiness of a cell: None, "" and 0 are false. */
  predicate Truthy(c: Cell) {
    match c
    case Missing => false
    case Str(s) => s != ""
    case Other(n) => n != 0
  }

  /** `row_data.get(column)` */
  function Get(row: RowData, column: string): Cell {
    if column in row then row[column] else Missing
  }

  /** Strip white space, then drop every byte order mark and zero-width space. */
  function Scrub(s: string): (r: string)
    ensures Bom !in r && ZeroWidthSpace !in r
    ensures Strip(s) == "" ==> r == ""
  {
    RemoveChar(RemoveChar(Strip(s), Bom), ZeroWidthSpace)
  }

  /** `_apply_field_mapping`: the replacement for `value` in the table of
      `field`, if any. */
  function ApplyFieldMapping(mappings: FieldMappings, field: string, value: string): (r: Option<string>)
    ensures r.Some? <==> field in mappings && value in mappings[field]
    ensures r.Some? ==> r.value == mappings[field][value]
  {
    if mappings == map[] then None
    else if field in mappings && value in mappings[field] then Some(mappings[field][value])
    else None
  }

  /** The replacement `clean_value` uses for cleaned text `cleaned` of column
      `fieldName`: present only for a named column with a non-empty entry. */
  function Replacement(mappings: FieldMappings, fieldName: Option<string>, cleaned: string): (r: Option<string>)
    ensures r.Some? <==>
      && fieldName.Some? && fieldName.value != ""
      && fieldName.value in mappings && cleaned in mappings[fieldName.value]
      && mappings[fieldName.value][cleaned] != ""
    ensures r.Some? ==> r.value == mappings[fieldName.value][cleaned] && r.value != ""
  {
    if fieldName.Some? && fieldName.value != "" && mappings != map[] then
      var mapped := ApplyFieldMapping(mappings, fieldName.value, cleaned);
      if mapped.Some? && mapped.value != "" then mapped else None
    else None
  }

  /** `clean_value`: blank cells become missing; text is stripped and loses its
      byte order marks and zero-width spaces, then may be replaced through the
      field mappings; other scalars pass unchanged. */
  function CleanValue(mappings: FieldMappings, value: Cell, fieldName: Option<string>): (r: Cell)
    ensures r.Missing? <==> value.Missing? || (value.Str? && Scrub(value.s) == "")
    ensures value.Other? ==> r == value
    ensures r.Str? ==> value.Str? && r.s != ""
    ensures r.Str? ==> r.s == Scrub(value.s) || Some(r.s) == Replacement(mappings, fieldName, Scrub(value.s))
  {
    match value
    case Missing => Missing
    case Other(_) => value
    case Str(s) =>
      if s == "" || Strip(s) == "" then Missing
      else
        var cleaned := Scrub(s);
        if cleaned == "" then Missing
        else
          var mapped := Replacement(mappings, fieldName, cleaned);
          if mapped.Some? then Str(mapped.value) else Str(cleaned)
  }

  /** Without an applicable mapping, cleaning only scrubs the text, so the
      result holds no byte order mark and no zero-width space. */
  lemma CleanValueUnmapped(mappings: FieldMappings, s: string, fieldName: Option<string>)
    requires Scrub(s) != ""
    requires Replacement(mappings, fieldName, Scrub(s)).None?
    ensures CleanValue(mappings, Str(s), fieldName) == Str(Scrub(s))
    ensures Bom !in CleanValue(mappings, Str(s), fieldName).s
    ensures ZeroWidthSpace !in CleanValue(mappings, Str(s), fieldName).s
  {
  }

  /** An applicable, non-empty mapping entry replaces the cleaned text. */
  lemma CleanValueMapped(mappings: FieldMappings, s: string, column: string)
    requires Scrub(s) != "" && column != ""
    requires column in mappings && Scrub(s) in mappings[column]
    requires mappings[column][Scrub(s)] != ""
    ensures CleanValue(mappings, Str(s), Some(column)) == Str(mappings[column][Scrub(s)])
  {
  }

  /** The blank cases of the converter's unit test for `clean_value`. */
  lemma CleanValueBlankExamples()
    ensures CleanValue(map[], Missing, None) == Missing
    ensures CleanValue(map[], Str(""), None) == Missing
    ensures CleanValue(map[], Str("   "), None) == Missing
  {
    assert Strip("   ") == "";
  }

  /** Scrubbing text free of invisible characters removes exactly its white
      space padding. */
  lemma ScrubPadded(pre: string, mid: string, post: string)
    requires forall i :: 0 <= i < |pre| ==> IsSpace(pre[i])
    requires forall i :: 0 <= i < |post| ==> IsSpace(post[i])
    requires mid != "" && !IsSpace(mid[0]) && !IsSpace(mid[|mid| - 1])
    requires Bom !in mid && ZeroWidthSpace !in mid
    ensures Strip(pre + mid + post) == mid && Scrub(pre + mid + post) == mid
  {
    StripPadded(pre, mid, post);
  }

  /** Without mappings, a padded text cell cleans to the text inside the
      padding. */
  lemma CleanPadded(pre: string, mid: string, post: string, s: string)
    requires forall i :: 0 <= i < |pre| ==> IsSpace(pre[i])
    requires forall i :: 0 <= i < |post| ==> IsSpace(post[i])
    requires mid != "" && !IsSpace(mid[0]) && !IsSpace(mid[|mid| - 1])
    requires Bom !in mid && ZeroWidthSpace !in mid
    requires s == pre + mid + post
    ensures CleanValue(map[], Str(s), None) == Str(mid)
  {
    ScrubPadded(pre, mid, post);
  }

  /** Surrounding white space goes: the unit test's padded case. */
  lemma CleanValuePaddedExample()
    ensures CleanValue(map[], Str("  test  "), None) == Str("test")
  {
    CleanPadded("  ", "test", "  ", "  test  ");
  }

  /** Plain text is kept: the unit test's last case. */
  lemma CleanValuePlainExample()
    ensures CleanValue(map[], Str("test"), None) == Str("test")
  {
    CleanPadded("", "test", "", "test");
  }

  /** Stripping happens before the invisible characters are removed, so white
      space behind a leading zero-width space survives cleaning. */
  lemma ScrubLeadingZeroWidth(rest: string)
    requires rest != "" && !IsSpace(rest[|rest| - 1])
    requires Bom !in rest && ZeroWidthSpace !in rest
    ensures Scrub([ZeroWidthSpace] + rest) == rest
  {
    var s := [ZeroWidthSpace] + rest;
    StripUnpadded(s);
    assert Bom !in s;
    RemoveLeadingChar(ZeroWidthSpace, rest);
  }

  lemma CleanLeadingZeroWidth(rest: string)
    requires rest != "" && !IsSpace(rest[|rest| - 1])
    requires Bom !in rest && ZeroWidthSpace !in rest
    ensures CleanValue(map[], Str([ZeroWidthSpace] + rest), None) == Str(rest)
  {
    ScrubLeadingZeroWidth(rest);
  }

  lemma CleanValueKeepsSpaceAfterZeroWidth()
    ensures CleanValue(map[], Str([ZeroWidthSpace] + " x"), None) == Str(" x")
  {
    CleanLeadingZeroWidth(" x");
  }

  /** `clean_row_data`: exactly one entry per column, each the cleaned cell of
      that column, cleaned under the column's own name. */
  function CleanRowData(mappings: FieldMappings, row: map<string, Cell>, columns: seq<string>): (r: RowData)
    requires forall c :: c in columns ==> c in row
    ensures r.Keys == set c | c in columns
    ensures forall c :: c in r ==> r[c] == CleanValue(mappings, row[c], Some(c))
  {
    map c | c in columns :: CleanValue(mappings, row[c], Some(c))
  }

  /** `is_valid_row`: the row has a truthy shot number, that is, a SHOT_NUM
      entry that is neither None, nor "", nor 0. */
  predicate IsValidRow(row: RowData): (b: bool)
    ensures b <==> ("SHOT_NUM" in row &&
      !(row["SHOT_NUM"].Missing? || row["SHOT_NUM"] == Str("") || row["SHOT_NUM"] == Other(0)))
  {
    Truthy(Get(row, "SHOT_NUM"))
  }

  /** A cleaned row is valid exactly when it has a SHOT_NUM column whose cell
      cleans to text or to a non-zero scalar: cleaning never yields "". */
  lemma ValidRowIffShotNumber(mappings: FieldMappings, row: map<string, Cell>, columns: seq<string>)
    requires forall c :: c in columns ==> c in row
    ensures IsValidRow(CleanRowData(mappings, row, columns)) <==>
      "SHOT_NUM" in columns &&
      var v := CleanValue(mappings, row["SHOT_NUM"], Some("SHOT_NUM"));
      !v.Missing? && v != Other(0)
  {
  }

  /** The cleaned rows of a data frame, in order. */
  function CleanRows(mappings: FieldMappings, frame: Frame): (rows: seq<RowData>)
    requires WellFormed(frame)
    ensures |rows| == |frame.rows|
    ensures forall i :: 0 <= i < |rows| ==> rows[i] == CleanRowData(mappings, frame.rows[i], frame.columns)
  {
    seq(|frame.rows|, i requires 0 <= i < |frame.rows| => CleanRowData(mappings, frame.rows[i], frame.columns))
  }
}
