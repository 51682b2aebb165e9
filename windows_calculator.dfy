/**
 * The calculator form's state and its three handlers: changing the window
 * count, editing one dimension of one window, and calculating the results
 * table. Each handler replaces the state fields it sets, as the component's
 * state setters do.
 */
module WindowsCalculator {
  import opened WindowDimensions

  class Calculator {
    var numberOfWindows: int
    var windowsData: seq<WindowData>
    var calculatedResults: seq<CalculatedWindow>
    var showResults: bool

    /**
     * The form invariant: at least one window, one entry per window, a
     * results table that is always the calculation of some window list,
     * and, while it is shown, one row per current window.
     */
    ghost predicate Valid()
      reads this
    {
      && numberOfWindows >= 1
      && |windowsData| == numberOfWindows
      && calculatedResults == Calculate(Inputs(calculatedResults))
      && (showResults ==> |calculatedResults| == |windowsData|)
    }

    /** The initial form: one blank window, no results, nothing shown. */
    constructor ()
      ensures Valid()
      ensures numberOfWindows == 1 && windowsData == [BlankWindow]
      ensures calculatedResults == [] && !showResults
    {
      numberOfWindows := 1;
      windowsData := [BlankWindow];
      calculatedResults := [];
      showResults := false;
    }

    /**
     * Change the window count to `value` (at least one), keeping the entries
     * that remain, adding blank ones, and hiding the results table. The old
     * table itself is kept.
     */
    method HandleNumberOfWindowsChange(value: int)
      requires Valid()
      modifies this
      ensures Valid()
      ensures numberOfWindows == ClampWindowCount(value)
      ensures windowsData == Resized(old(windowsData), ClampWindowCount(value))
      ensures calculatedResults == old(calculatedResults)
      ensures !showResults
    {
      var newValue := ClampWindowCount(value);
      numberOfWindows := newValue;
      windowsData := Resized(windowsData, newValue);
      showResults := false;
    }

    /**
     * Set field `field` of window `index` to `value`. The results table and
     * its visibility are left as they were, so a shown table may be stale.
     */
    method HandleWindowDataChange(index: nat, field: Field, value: real)
      requires Valid()
      requires index < |windowsData|
      modifies this
      ensures Valid()
      ensures windowsData == Edited(old(windowsData), index, field, value)
      ensures numberOfWindows == old(numberOfWindows)
      ensures calculatedResults == old(calculatedResults)
      ensures showResults == old(showResults)
    {
      windowsData := windowsData[index := WithField(windowsData[index], field, value)];
    }

    /** Replace the results table with the calculation of the current windows and show it. */
    method CalculateResults()
      requires Valid()
      modifies this
      ensures Valid()
      ensures calculatedResults == Calculate(windowsData)
      ensures showResults
      ensures numberOfWindows == old(numberOfWindows)
      ensures windowsData == old(windowsData)
    {
      calculatedResults := Calculate(windowsData);
      showResults := true;
      CalculateRoundTrip(windowsData);
    }
  }

  /** The form a user sees after entering one window and pressing calculate. */
  method ExampleSession()
  {
    var form := new Calculator();
    form.HandleWindowDataChange(0, Width, 60.0);
    form.HandleWindowDataChange(0, Length, 100.0);
    form.CalculateResults();
    assert form.windowsData == [WindowData(100.0, 60.0)];
    CalculateExampleTypical();
    assert form.calculatedResults == [CalculatedWindow(1, 100.0, 57.4, 94.0, 28.7)];
    form.HandleNumberOfWindowsChange(0);
    ResizedToSameLength([WindowData(100.0, 60.0)]);
    assert form.numberOfWindows == 1 && !form.showResults;
    assert form.windowsData == [WindowData(100.0, 60.0)];
  }
}
