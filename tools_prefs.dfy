/**
 * ToolsPrefs: the preferences of the tools plugin. The generic loader of
 * the base Prefs class, which reads the stream into the public fields, is
 * not part of this model: the values it leaves are a parameter of Load.
 */
module ToolsPlugin {
  import opened Wrappers
  import opened Docking

  /** A key stroke: a key code and its modifier mask. */
  datatype KeyStroke = KeyStroke(keyCode: int, modifiers: int)

  /** The values of the five public fields; an accelerator of None is null. */
  datatype ToolsValues = ToolsValues(
    windowVisible: bool,
    windowPosition: int,
    windowVisibilityAccelerator: Option<KeyStroke>,
    newToolAccelerator: Option<KeyStroke>,
    editToolsAccelerator: Option<KeyStroke>)

  /** What load's own step makes of the values the base loader read. */
  function Validated(v: ToolsValues): (r: ToolsValues)
    ensures IsValidPosition(r.windowPosition)
    ensures IsValidPosition(v.windowPosition) ==> r == v
    ensures !IsValidPosition(v.windowPosition) ==> r == v.(windowPosition := BOTTOM)
  {
    v.(windowPosition := PositionOr(v.windowPosition, BOTTOM))
  }

  /** The values setDefaults assigns. */
  function DefaultValues(): (r: ToolsValues)
    ensures !r.windowVisible && r.windowPosition == BOTTOM
    ensures r.windowVisibilityAccelerator == None && r.newToolAccelerator == None
    ensures r.editToolsAccelerator == None
  {
    ToolsValues(false, BOTTOM, None, None, None)
  }

  /** Validation changes values exactly when their position is invalid, so it is idempotent. */
  lemma ValidatedIdempotent(v: ToolsValues)
    ensures Validated(Validated(v)) == Validated(v)
    ensures Validated(v) == v <==> IsValidPosition(v.windowPosition)
  {
  }

  /** Saved defaults load back unchanged. */
  lemma DefaultsSurviveLoad()
    ensures Validated(DefaultValues()) == DefaultValues()
  {
  }

  class ToolsPrefs {
    var windowVisible: bool
    var windowPosition: int
    var windowVisibilityAccelerator: Option<KeyStroke>
    var newToolAccelerator: Option<KeyStroke>
    var editToolsAccelerator: Option<KeyStroke>

    function Values(): ToolsValues
      reads this
    {
      ToolsValues(windowVisible, windowPosition, windowVisibilityAccelerator,
                  newToolAccelerator, editToolsAccelerator)
    }

    /** A new preferences object holds the defaults. */
    constructor ()
      ensures Values() == DefaultValues()
    {
      windowVisible := false;
      windowPosition := BOTTOM;
      windowVisibilityAccelerator := None;
      newToolAccelerator := None;
      editToolsAccelerator := None;
    }

    /**
     * load: the base loader's values are taken over, then an invalid window
     * position is replaced by BOTTOM.
     */
    method Load(loaded: ToolsValues)
      modifies this
      ensures Values() == Validated(loaded)
    {
      windowVisible := loaded.windowVisible;
      windowPosition := loaded.windowPosition;
      windowVisibilityAccelerator := loaded.windowVisibilityAccelerator;
      newToolAccelerator := loaded.newToolAccelerator;
      editToolsAccelerator := loaded.editToolsAccelerator;
      if !IsValidPosition(windowPosition) {
        windowPosition := BOTTOM;
      }
    }

    /** setDefaults. */
    method SetDefaults()
      modifies this
      ensures Values() == DefaultValues()
    {
      windowVisible := false;
      windowPosition := BOTTOM;
      windowVisibilityAccelerator := None;
      newToolAccelerator := None;
      editToolsAccelerator := None;
    }
  }
}
