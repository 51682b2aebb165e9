/**
 * The domain logic of the aluminum windows calculator, as pure values:
 * the window inputs, the calculated cut dimensions, and the three
 * transformations the form applies to its list of windows (calculate,
 * resize to a new window count, edit one field of one window).
 * Dimensions are in centimetres and modelled as exact reals.
 */
module WindowDimensions {

  /** One window as entered by the user. */
  datatype WindowData = WindowData(length: real, width: real)

  /** The two editable fields of a window. */
  datatype Field = Length | Width

  /** One row of the results table: the 1-based window number and its frame and sash cuts. */
  datatype CalculatedWindow = CalculatedWindow(
    number: int,
    frameLength: real,
    frameWidth: real,
    sashLength: real,
    sashWidth: real)

  /** Subtracted from the opening width to obtain the frame width. */
  const FrameWidthAllowance: real := 2.6

  /** Subtracted from the opening length to obtain the sash length. */
  const SashLengthAllowance: real := 6.0

  /** The entry a new window slot starts with. */
  const BlankWindow: WindowData := WindowData(0.0, 0.0)

  // ---------------------------------------------------------------------
  // Calculation
  // ---------------------------------------------------------------------

  /**
   * The cut dimensions of window `w` at position `index` of the list.
   * The frame keeps the opening length, the frame is the allowance narrower
   * than the opening, the sash is shorter than the frame by its allowance,
   * and the width is split evenly between two sashes. Nothing is clamped.
   */
  function CalculateWindow(w: WindowData, index: nat): (r: CalculatedWindow)
    ensures r.number == index + 1
    ensures r.frameLength == w.length
    ensures w.width - r.frameWidth == FrameWidthAllowance
    ensures r.frameLength - r.sashLength == SashLengthAllowance
    ensures 2.0 * r.sashWidth == r.frameWidth
    ensures Restore(r) == w
  {
    CalculatedWindow(
      index + 1,
      w.length,
      w.width - FrameWidthAllowance,
      w.length - SashLengthAllowance,
      (w.width - FrameWidthAllowance) / 2.0)
  }

  /** The input a results row was calculated from: the inverse of CalculateWindow. */
  function Restore(r: CalculatedWindow): WindowData
  {
    WindowData(r.frameLength, r.frameWidth + FrameWidthAllowance)
  }

  /** The inputs a results table was calculated from, row by row. */
  function Inputs(rows: seq<CalculatedWindow>): (data: seq<WindowData>)
    ensures |data| == |rows|
    ensures forall i :: 0 <= i < |rows| ==> data[i] == Restore(rows[i])
  {
    seq(|rows|, i requires 0 <= i < |rows| => Restore(rows[i]))
  }

  /**
   * The results table: one row per window, in input order, numbered from 1,
   * each row computed from its own window only.
   */
  function Calculate(data: seq<WindowData>): (rows: seq<CalculatedWindow>)
    ensures |rows| == |data|
    ensures forall i :: 0 <= i < |rows| ==> rows[i].number == i + 1
    ensures forall i :: 0 <= i < |rows| ==> Restore(rows[i]) == data[i]
    ensures forall i :: 0 <= i < |rows| ==>
      rows[i].sashLength == data[i].length - SashLengthAllowance && 2.0 * rows[i].sashWidth == rows[i].frameWidth
  {
    seq(|data|, i requires 0 <= i < |data| => CalculateWindow(data[i], i))
  }

  /**
   * A row-by-row reference definition of the results table, numbering the
   * rows of `data` from `start + 1`.
   */
  function CalculateFrom(data: seq<WindowData>, start: nat): (rows: seq<CalculatedWindow>)
    ensures |rows| == |data|
    decreases |data|
  {
    if data == [] then []
    else [CalculateWindow(data[0], start)] + CalculateFrom(data[1..], start + 1)
  }

  lemma {:induction false} CalculateFromAt(data: seq<WindowData>, start: nat, i: nat)
    requires i < |data|
    ensures CalculateFrom(data, start)[i] == CalculateWindow(data[i], start + i)
    decreases |data|
  {
    if i > 0 {
      CalculateFromAt(data[1..], start + 1, i - 1);
    }
  }

  /** The table built row by row is the table Calculate produces. */
  lemma CalculateIsRowByRow(data: seq<WindowData>)
    ensures Calculate(data) == CalculateFrom(data, 0)
  {
    forall i | 0 <= i < |data|
      ensures Calculate(data)[i] == CalculateFrom(data, 0)[i]
    {
      CalculateFromAt(data, 0, i);
    }
  }

  /** No information is lost: the inputs can be recovered from the results table. */
  lemma CalculateRoundTrip(data: seq<WindowData>)
    ensures Inputs(Calculate(data)) == data
  {
  }

  /** Different inputs give different tables. */
  lemma CalculateInjective(a: seq<WindowData>, b: seq<WindowData>)
    ensures Calculate(a) == Calculate(b) <==> a == b
  {
  }

  /** Row `i` depends on window `i` alone, never on any other window. */
  lemma CalculateIsLocal(a: seq<WindowData>, b: seq<WindowData>, i: nat)
    requires i < |a| && i < |b|
    ensures Calculate(a)[i] == Calculate(b)[i] <==> a[i] == b[i]
  {
  }

  /** Adding one window at the end adds one row at the end and leaves the other rows alone. */
  lemma CalculateAppend(data: seq<WindowData>, w: WindowData)
    ensures Calculate(data + [w]) == Calculate(data) + [CalculateWindow(w, |data|)]
  {
  }

  /** A narrow opening yields a negative frame and sash width; it is not rejected. */
  lemma NarrowWidthGivesNegativeWidths(w: WindowData, index: nat)
    requires w.width < FrameWidthAllowance
    ensures CalculateWindow(w, index).frameWidth < 0.0
    ensures CalculateWindow(w, index).sashWidth < 0.0
  {
  }

  /** A short opening yields a negative sash length; it is not rejected. */
  lemma ShortLengthGivesNegativeSashLength(w: WindowData, index: nat)
    requires w.length < SashLengthAllowance
    ensures CalculateWindow(w, index).sashLength < 0.0
  {
  }

  lemma CalculateExampleTypical()
    ensures Calculate([WindowData(100.0, 60.0)]) == [CalculatedWindow(1, 100.0, 57.4, 94.0, 28.7)]
  {
  }

  lemma CalculateExampleNarrow()
    ensures Calculate([WindowData(50.0, 2.0)]) == [CalculatedWindow(1, 50.0, -0.6, 44.0, -0.3)]
  {
  }

  // ---------------------------------------------------------------------
  // Window count
  // ---------------------------------------------------------------------

  /** The window count actually used for a requested count: never below one. */
  function ClampWindowCount(value: int): (n: nat)
    ensures n >= 1 && n >= value
    ensures n == value || n == 1
  {
    if value < 1 then 1 else value
  }

  /** `k` blank windows. */
  function Blanks(k: nat): (r: seq<WindowData>)
    ensures |r| == k
    ensures forall i :: 0 <= i < k ==> r[i] == BlankWindow
  {
    seq(k, _ => BlankWindow)
  }

  /**
   * The window list rebuilt to length `n`: the existing entries up to `n`
   * are kept, and every slot beyond the old list starts blank.
   */
  function Resized(data: seq<WindowData>, n: nat): (r: seq<WindowData>)
    ensures |r| == n
    ensures n <= |data| ==> r == data[..n]
    ensures n >= |data| ==> r == data + Blanks(n - |data|)
  {
    var r := seq(n, i requires 0 <= i < n => if i < |data| then data[i] else BlankWindow);
    assert n >= |data| ==> r == data + Blanks(n - |data|) by {
      if n >= |data| {
        assert forall i :: 0 <= i < n ==> r[i] == (data + Blanks(n - |data|))[i];
      }
    }
    r
  }

  /** Resizing keeps the common prefix and fills the rest with blanks. */
  lemma ResizedAt(data: seq<WindowData>, n: nat, i: nat)
    requires i < n
    ensures Resized(data, n)[i] == if i < |data| then data[i] else BlankWindow
  {
  }

  /** Resizing to the current count changes nothing. */
  lemma ResizedToSameLength(data: seq<WindowData>)
    ensures Resized(data, |data|) == data
  {
  }

  /** Asking for the same count twice is the same as asking once. */
  lemma ResizedIdempotent(data: seq<WindowData>, n: nat)
    ensures Resized(Resized(data, n), n) == Resized(data, n)
  {
  }

  /** Two resizes in a row act as one, as long as the first keeps every entry the second keeps. */
  lemma ResizedTwice(data: seq<WindowData>, m: nat, n: nat)
    requires n <= m || |data| <= m
    ensures Resized(Resized(data, m), n) == Resized(data, n)
  {
  }

  /**
   * Shrinking to `m` and growing back restores the list exactly when every
   * dropped entry was blank: the entries a shrink drops are lost.
   */
  lemma ShrinkThenRestore(data: seq<WindowData>, m: nat)
    requires m <= |data|
    ensures Resized(Resized(data, m), |data|) == data
        <==> forall i :: m <= i < |data| ==> data[i] == BlankWindow
  {
  }

  /** Growing by one window adds one row for a blank window, which calculates to negative widths and sash length. */
  lemma CalculateAfterGrowByOne(data: seq<WindowData>)
    ensures Calculate(Resized(data, |data| + 1)) == Calculate(data) + [CalculateWindow(BlankWindow, |data|)]
    ensures Calculate(Resized(data, |data| + 1))[|data|].sashLength == -SashLengthAllowance
    ensures Calculate(Resized(data, |data| + 1))[|data|].frameWidth < 0.0
    ensures Calculate(Resized(data, |data| + 1))[|data|].sashWidth < 0.0
  {
  }

  // ---------------------------------------------------------------------
  // Editing one field
  // ---------------------------------------------------------------------

  function FieldValue(w: WindowData, f: Field): real
  {
    match f
    case Length => w.length
    case Width => w.width
  }

  /** `w` with field `f` set to `v`. */
  function WithField(w: WindowData, f: Field, v: real): (r: WindowData)
    ensures FieldValue(r, f) == v
    ensures forall g :: g != f ==> FieldValue(r, g) == FieldValue(w, g)
  {
    match f
    case Length => w.(length := v)
    case Width => w.(width := v)
  }

  /** The window list with field `f` of entry `index` set to `v`. */
  function Edited(data: seq<WindowData>, index: nat, f: Field, v: real): (r: seq<WindowData>)
    requires index < |data|
    ensures |r| == |data|
    ensures FieldValue(r[index], f) == v
    ensures forall g :: g != f ==> FieldValue(r[index], g) == FieldValue(data[index], g)
    ensures forall j :: 0 <= j < |data| && j != index ==> r[j] == data[j]
  {
    data[index := WithField(data[index], f, v)]
  }

  /** Writing back the old value of a field undoes an edit. */
  lemma EditUndo(data: seq<WindowData>, index: nat, f: Field, v: real)
    requires index < |data|
    ensures Edited(Edited(data, index, f, v), index, f, FieldValue(data[index], f)) == data
  {
  }

  /** A second edit of the same field overwrites the first. */
  lemma EditOverwrites(data: seq<WindowData>, index: nat, f: Field, u: real, v: real)
    requires index < |data|
    ensures Edited(Edited(data, index, f, u), index, f, v) == Edited(data, index, f, v)
  {
  }

  /**
   * Recalculating after an edit changes only the edited window's row, and in
   * it only the dimensions derived from the edited field: length feeds the
   * frame and sash lengths, width the frame and sash widths.
   */
  lemma CalculateAfterEdit(data: seq<WindowData>, index: nat, f: Field, v: real)
    requires index < |data|
    ensures var before, after := Calculate(data), Calculate(Edited(data, index, f, v));
      && |after| == |before|
      && (forall j :: 0 <= j < |data| && j != index ==> after[j] == before[j])
      && after[index].number == before[index].number
      && (f == Length ==> after[index].frameWidth == before[index].frameWidth
                          && after[index].sashWidth == before[index].sashWidth
                          && after[index].frameLength == v)
      && (f == Width ==> after[index].frameLength == before[index].frameLength
                         && after[index].sashLength == before[index].sashLength
                         && after[index].frameWidth == v - FrameWidthAllowance)
  {
  }
}
