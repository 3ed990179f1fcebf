/**
 * MoveFocusLeftAction: the keyboard action that moves focus to the
 * dockable window group "to the left" of the focused component.
 * The focus owner, the focused group and the set of groups that exist are
 * inputs; the focus request the action ends with is the result.
 */
module MoveFocus {
  import opened Wrappers
  import opened Docking

  /** The value toFocus takes when the current text area is to get focus. */
  const FOCUS_TEXT_AREA: int := -1

  /** What actionPerformed finally asks for. */
  datatype FocusRequest =
    | NoChange                 // returned early: nothing is focused
    | FocusTextArea            // currentTextArea.requestFocusInWindow()
    | FocusGroup(group: int)   // rtext.focusDockableWindowGroup(group)

  /**
   * The switch on the focused group: the value of toFocus, or None where the
   * switch returns without changing the focus. Every branch that names a
   * group first checked that the group exists.
   */
  function ToFocus(focusedGroup: int, groups: set<int>): (toFocus: Option<int>)
    ensures toFocus.Some? ==> toFocus.value in {LEFT, RIGHT, FOCUS_TEXT_AREA}
    ensures toFocus.Some? && toFocus.value != FOCUS_TEXT_AREA ==> toFocus.value in groups
    ensures toFocus.Some? ==> toFocus.value != focusedGroup
    ensures toFocus == None <==> focusedGroup != LEFT && focusedGroup != RIGHT && LEFT !in groups && RIGHT !in groups
  {
    if focusedGroup == LEFT then
      if RIGHT in groups then Some(RIGHT) else Some(FOCUS_TEXT_AREA)
    else if focusedGroup == RIGHT then
      Some(FOCUS_TEXT_AREA)
    else // TOP, BOTTOM and everything else, the editor included
      if LEFT in groups then Some(LEFT)
      else if RIGHT in groups then Some(RIGHT)
      else None
  }

  /**
   * actionPerformed: nothing without a focus owner; otherwise the switch,
   * and the -1 sentinel becomes a request to focus the current text area.
   */
  function ActionPerformed(hasFocusOwner: bool, focusedGroup: int, groups: set<int>): (r: FocusRequest)
    ensures !hasFocusOwner ==> r == NoChange
    ensures r == NoChange <==>
      !hasFocusOwner || (focusedGroup != LEFT && focusedGroup != RIGHT && LEFT !in groups && RIGHT !in groups)
    ensures r == FocusTextArea <==>
      hasFocusOwner && (focusedGroup == RIGHT || (focusedGroup == LEFT && RIGHT !in groups))
    ensures r.FocusGroup? ==> r.group in groups && (r.group == LEFT || r.group == RIGHT)
    ensures r.FocusGroup? ==> r.group != TOP && r.group != BOTTOM && r.group != focusedGroup
  {
    if !hasFocusOwner then NoChange
    else
      match ToFocus(focusedGroup, groups)
      case None => NoChange
      case Some(toFocus) => if toFocus == FOCUS_TEXT_AREA then FocusTextArea else FocusGroup(toFocus)
  }

  /** The group reported as focused once a request has been carried out. */
  function FocusedAfter(focusedGroup: int, request: FocusRequest): int {
    match request
    case NoChange => focusedGroup
    case FocusTextArea => FOCUS_TEXT_AREA
    case FocusGroup(g) => g
  }

  /** One press of the key: the focused group afterwards. */
  function Press(focusedGroup: int, groups: set<int>): int {
    FocusedAfter(focusedGroup, ActionPerformed(true, focusedGroup, groups))
  }

  /**
   * With the editor focused and both side groups present, three presses go
   * left, then right, then back to the editor. With only one side group the
   * focus alternates between it and the editor.
   */
  lemma PressCycles(focusedGroup: int, groups: set<int>)
    requires focusedGroup != LEFT && focusedGroup != RIGHT
    ensures LEFT in groups && RIGHT in groups ==>
      Press(focusedGroup, groups) == LEFT &&
      Press(LEFT, groups) == RIGHT &&
      Press(RIGHT, groups) == FOCUS_TEXT_AREA &&
      Press(FOCUS_TEXT_AREA, groups) == LEFT
    ensures LEFT in groups && RIGHT !in groups ==>
      Press(focusedGroup, groups) == LEFT && Press(LEFT, groups) == FOCUS_TEXT_AREA
    ensures LEFT !in groups && RIGHT in groups ==>
      Press(focusedGroup, groups) == RIGHT && Press(RIGHT, groups) == FOCUS_TEXT_AREA
    ensures LEFT !in groups && RIGHT !in groups ==> Press(focusedGroup, groups) == focusedGroup
  {
  }
}
