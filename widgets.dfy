/** What both applications share about their Qt widgets, reduced to values. */
module Widgets {

  /** `box.currentText()` for a combo box holding `items` with current index `index` (-1 when none). */
  function CurrentText(items: seq<string>, index: int): string {
    if 0 <= index < |items| then items[index] else ""
  }

  /** How an `open_excel` call ended. */
  datatype LoadOutcome =
    | Cancelled    // the file dialog returned an empty path
    | ReadFailed   // the spreadsheet reader raised; a "Read failed" dialog is shown
    | Loaded
}
