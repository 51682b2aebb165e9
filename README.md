# Aluminum windows calculator — Dafny model

The calculator is a single form. The user picks a number of windows and enters
each window's opening length and width in centimetres. Pressing *calculate*
turns every window into a row of aluminum cut dimensions:

- frame length = length
- frame width = width − 2.6
- sash length = length − 6
- sash width = (width − 2.6) / 2

The table can then be exported as a PDF.

The model has two modules:

- `WindowDimensions` (`window_dimensions.dfy`) holds the pure logic. It has the
  `WindowData` and `CalculatedWindow` records, the per-window formulas
  (`CalculateWindow`) and the `map` over the window list (`Calculate`). It also
  holds the rebuild of the list for a new window count (`ClampWindowCount`,
  `Resized`) and the single-field edit (`WithField`, `Edited`). The lemmas
  relate these operations to their partners:
  - `Restore` and `Inputs` invert the formulas;
  - `CalculateFrom` is a row-by-row reference definition of the table;
  - resizing and editing are related to themselves (idempotence, undo,
    overwrite) and to recalculation.
- `WindowsCalculator` (`windows_calculator.dfy`) holds the form's state. Class
  `Calculator` has the component's four state fields: `numberOfWindows`,
  `windowsData`, `calculatedResults` and `showResults`. Its three handler
  methods replace those fields the way the component's state setters do. Its
  invariant `Valid()` says four things:
  - there is at least one window;
  - there is one entry per window;
  - the results table is always the calculation of some window list;
  - while the table is shown, it has one row per current window.

Dimensions are exact `real`s, so the formulas hold exactly. For example,
`2.6` is the exact decimal.

The form's behaviour, as the model keeps it:

- Derived dimensions are never validated or clamped. A width below 2.6 gives
  negative frame and sash widths. A length below 6 gives a negative sash
  length.
- New window slots start at (0, 0).
- Editing a dimension does not hide or recompute a table that is shown, so
  the shown table can be stale. It still has one row per window.
- Changing the window count hides the table but keeps its contents.

## Model

| member | source | states |
|---|---|---|
| `WindowDimensions.CalculateWindow` | aluminum-windows-calculator.tsx:48-52 | The row is numbered index + 1. The frame length equals the length. The frame is 2.6 narrower than the opening. The sash is 6 shorter than the frame. Each sash width is half the frame width. The input can be restored from the row. |
| `WindowDimensions.Calculate` | aluminum-windows-calculator.tsx:47-53 | There is one row per window, and row i is numbered i + 1. Row i restores to window i, so the rows are in input order and each frame length and frame width comes from its own window. Each sash length is that window's length minus 6, and each sash width is half the row's frame width. |
| `WindowDimensions.CalculateFrom` | aluminum-windows-calculator.tsx:47-53 | The row-by-row reference table has one row per window. |
| `WindowDimensions.CalculateFromAt` | aluminum-windows-calculator.tsx:47-53 | Row i of the reference table is window i's row, numbered from the start offset. |
| `WindowDimensions.CalculateIsRowByRow` | aluminum-windows-calculator.tsx:47-53 | The table from the `map` equals the reference table built row by row. |
| `WindowDimensions.CalculateRoundTrip` | aluminum-windows-calculator.tsx:49-52 | The window list can be recovered exactly from the results table. |
| `WindowDimensions.CalculateInjective` | aluminum-windows-calculator.tsx:47-53 | Two window lists give the same table if and only if they are equal. |
| `WindowDimensions.CalculateIsLocal` | aluminum-windows-calculator.tsx:47-53 | Row i of two tables is equal if and only if window i of their inputs is equal. No row depends on another window. |
| `WindowDimensions.CalculateAppend` | aluminum-windows-calculator.tsx:47-53 | Appending a window appends its row, numbered after the others. The earlier rows do not change. |
| `WindowDimensions.NarrowWidthGivesNegativeWidths` | aluminum-windows-calculator.tsx:50-52 | A width below 2.6 gives a negative frame width and a negative sash width. They are not rejected. |
| `WindowDimensions.ShortLengthGivesNegativeSashLength` | aluminum-windows-calculator.tsx:51 | A length below 6 gives a negative sash length. It is not rejected. |
| `WindowDimensions.CalculateExampleTypical` | aluminum-windows-calculator.tsx:47-53 | A 100 × 60 window gives the row (1, 100, 57.4, 94, 28.7). |
| `WindowDimensions.CalculateExampleNarrow` | aluminum-windows-calculator.tsx:47-53 | A 50 × 2 window gives the row (1, 50, −0.6, 44, −0.3). |
| `WindowDimensions.ClampWindowCount` | aluminum-windows-calculator.tsx:32 | The count used is at least 1 and at least the requested value. It is the requested value or 1. |
| `WindowDimensions.Resized` | aluminum-windows-calculator.tsx:35 | The rebuilt list has the requested length. Shrinking truncates the list. Growing appends blank (0, 0) windows. |
| `WindowDimensions.ResizedAt` | aluminum-windows-calculator.tsx:35 | Entry i of the rebuilt list is the old entry i when one exists, and (0, 0) otherwise. |
| `WindowDimensions.ResizedToSameLength` | aluminum-windows-calculator.tsx:35 | Rebuilding to the current count changes nothing. |
| `WindowDimensions.ResizedIdempotent` | aluminum-windows-calculator.tsx:35 | Asking for the same count twice gives the same list as asking once. |
| `WindowDimensions.ResizedTwice` | aluminum-windows-calculator.tsx:35 | Two rebuilds act as the second alone when the first keeps every entry the second keeps. |
| `WindowDimensions.ShrinkThenRestore` | aluminum-windows-calculator.tsx:35 | Shrinking and growing back restores the list if and only if every dropped entry was blank. Dropped entries are lost. |
| `WindowDimensions.CalculateAfterGrowByOne` | aluminum-windows-calculator.tsx:31-57 | After adding one window, the table gains one row for a (0, 0) window. That row's sash length is −6, and its frame width and sash width are negative. |
| `WindowDimensions.WithField` | aluminum-windows-calculator.tsx:42 | The chosen field takes the new value. The other field is unchanged. |
| `WindowDimensions.Edited` | aluminum-windows-calculator.tsx:40-43 | The list length is unchanged. The edited entry's chosen field is the new value and its other field is unchanged. Every other entry is unchanged. |
| `WindowDimensions.EditUndo` | aluminum-windows-calculator.tsx:40-43 | Writing back a field's old value undoes an edit. |
| `WindowDimensions.EditOverwrites` | aluminum-windows-calculator.tsx:40-43 | A second edit of the same field replaces the first. |
| `WindowDimensions.CalculateAfterEdit` | aluminum-windows-calculator.tsx:40-57 | After an edit, the recalculated table differs only in the edited window's row. In that row, only the dimensions derived from the edited field change. |
| `WindowsCalculator.Calculator.constructor` | aluminum-windows-calculator.tsx:26-29 | The form starts with one window of (0, 0), an empty table and the table hidden. |
| `WindowsCalculator.Calculator.HandleNumberOfWindowsChange` | aluminum-windows-calculator.tsx:31-38 | The count becomes the clamped value and the list is rebuilt to it. The table is hidden and its contents are kept. The invariant is kept. |
| `WindowsCalculator.Calculator.HandleWindowDataChange` | aluminum-windows-calculator.tsx:40-44 | Only the chosen field of the chosen window changes. The count, the table and its visibility are unchanged. The invariant is kept. |
| `WindowsCalculator.Calculator.CalculateResults` | aluminum-windows-calculator.tsx:46-57 | The table is replaced by the calculation of the current windows and shown. The windows are unchanged. The invariant is kept. |

## Left out

- PDF export (`downloadPDF`) is left out. It is a sequence of calls into the jsPDF library and ends in a file download.
- One-decimal display formatting (`toFixed(1)`) is left out. It is the JavaScript runtime's conversion of doubles to strings.
- Floating point is left out. Dimensions are exact reals, while the component computes on IEEE doubles. For example, a width of 2 gives a frame width of exactly −0.6 and a sash width of −0.3 in the model (`WindowDimensions.CalculateExampleNarrow`), where the component computes −0.6000000000000001 and −0.30000000000000004.
- Input parsing is left out. The count handler receives an already-parsed integer. In the form, unparsable or zero input becomes 1 before the handler runs. The dimension handler receives an already-parsed real. In the form, unparsable input becomes 0. Negative dimensions pass through.
- `WindowsCalculator.Calculator.HandleNumberOfWindowsChange` does not model counts of 2^32 and above. For such a count the component queues the new count first, then `Array.from` throws a range error because no array can be that long. So the window list and the table's visibility stay as they were, while the count changes. The model instead rebuilds the list to any count and keeps the count equal to the list length.
- `WindowsCalculator.Calculator.HandleWindowDataChange` requires an index into the current list. The form only calls it for windows it displays, so the way JavaScript arrays extend on an out-of-range write is not modelled.
- The rendering, the results table's display, styling and React's state mechanics are left out. The model treats each handler as replacing the state at once, without batched or deferred updates.
