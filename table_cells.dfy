/** The cell formatting the applications table uses for its optional
    columns. Both tables format the same way and differ only in the
    placeholder shown for a missing value: the feature table takes it from
    the translation (`common.empty`), the older table writes "-". */
module TableCells {
  import opened Wrappers
  import opened Text
  import ApplicationForm

  /** What a table cell shows: plain text, or a link opening `href` in a
      new tab. */
  datatype Cell = PlainText(text: string) | Anchor(href: string, text: string)

  /** `formatDateValue`: a missing or empty date shows the placeholder,
      any other value its first 10 characters (the date of a timestamp). */
  function FormatDateValue(value: Option<string>, placeholder: string): (r: string)
    ensures value.None? || value.value == "" ==> r == placeholder
    ensures value.Some? && value.value != "" ==>
      r == value.value[..if |value.value| < 10 then |value.value| else 10] && r != ""
  {
    if value.None? || value.value == "" then placeholder else Take(value.value, 10)
  }

  /** `formatTextValue`: a missing, empty or all-whitespace text shows the
      placeholder, any other text is shown trimmed. */
  function FormatTextValue(value: Option<string>, placeholder: string): (r: string)
    ensures value.None? || IsBlank(value.value) ==> r == placeholder
    ensures value.Some? && !IsBlank(value.value) ==>
      r == Trim(value.value) && r != "" && IsTrimmed(r)
  {
    if value.None? || value.value == "" then placeholder
    else
      var trimmed := Trim(value.value);
      if |trimmed| > 0 then trimmed else placeholder
  }

  /** The table shows a date exactly as the edit dialog loads it into its
      date input, except that the table has a placeholder where the input
      is empty. */
  lemma DateCellMatchesDateInput(value: Option<string>, placeholder: string)
    ensures var input := ApplicationForm.ToDateInputValue(value);
      FormatDateValue(value, placeholder) == if input == "" then placeholder else input
  {
  }

  /** A stored text is shown as the text the dialog would send for it:
      the placeholder where the dialog sends null, the sent value
      otherwise. */
  lemma TextCellMatchesSubmission(value: Option<string>, placeholder: string)
    ensures var sent := ApplicationForm.TrimmedOrNull(value.GetOr(""));
      FormatTextValue(value, placeholder) == sent.GetOr(placeholder)
  {
  }

  /** A text cell never shows surrounding whitespace: formatting what it
      shows again leaves it unchanged whenever the placeholder itself is
      trimmed. */
  lemma FormatTextIdempotent(value: Option<string>, placeholder: string)
    requires IsTrimmed(placeholder)
    ensures var shown := FormatTextValue(value, placeholder);
      FormatTextValue(Some(shown), placeholder) == shown
  {
    var shown := FormatTextValue(value, placeholder);
    if shown != "" && !IsBlank(shown) {
      TrimOfTrimmed(shown);
    }
  }

  /** The link column: the formatted text when it equals the placeholder,
      otherwise a link to the value exactly as stored (untrimmed) labelled
      `openText`. A link whose trimmed text happens to equal the
      placeholder is shown as plain text. */
  function LinkCell(value: Option<string>, placeholder: string, openText: string): (r: Cell)
    ensures r.PlainText? ==> r.text == placeholder
    ensures r.Anchor? <==> value.Some? && !IsBlank(value.value) && Trim(value.value) != placeholder
    ensures r.Anchor? ==> r.href == value.value && r.text == openText
  {
    var text := FormatTextValue(value, placeholder);
    if text == placeholder then PlainText(text)
    else Anchor(value.value, openText)
  }

  /** A table row: the text columns in order as plain text, then the link
      column. */
  function RowCells(texts: seq<string>, link: Cell): (r: seq<Cell>)
    ensures |r| == |texts| + 1 && r[|texts|] == link
    ensures forall i :: 0 <= i < |texts| ==> r[i] == PlainText(texts[i])
  {
    seq(|texts|, i requires 0 <= i < |texts| => PlainText(texts[i])) + [link]
  }

  /** What the table component renders: a loading indicator, an error
      alert, or the table with one row of cells per application. */
  datatype View = Loading(text: string) | ErrorAlert(text: string) | Table(rows: seq<seq<Cell>>)

  /** The alert text: the error's message, or `fallback` when the message
      is empty (`message || fallback`). */
  function ErrorText(message: string, fallback: string): (r: string)
    ensures message != "" ==> r == message
    ensures message == "" ==> r == fallback
  {
    if message != "" then message else fallback
  }
}
