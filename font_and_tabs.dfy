/**
 * FontAndTabsOptionPanel: the options panel for the editor font, the tab
 * size and the whitespace display flags. The font selector, the text field
 * and the check boxes are fields of the panel; fonts and colours are opaque
 * values compared by equality. The preview context the panel keeps in sync
 * is a snapshot field.
 */
module FontAndTabs {
  import opened Wrappers
  import opened Strings

  datatype Font = Font(id: nat)
  datatype Color = Color(rgb: nat)

  /** The panel's settings that "Restore Defaults" compares and resets. */
  datatype Settings = Settings(font: Font, fontColor: Color, underline: bool, tabSize: int,
                               emulateTabs: bool, visibleWhitespace: bool, visibleEOL: bool,
                               showTabLines: bool)

  /** What syncEditorOptionsPreviewContext copies into the preview context. */
  datatype PreviewContext = PreviewContext(font: Font, fontColor: Color, tabSize: int, emulateTabs: bool,
                                           showWhitespace: bool, showEolMarkers: bool, showIndentGuides: bool)

  datatype Component = TabSizeField

  /** The four check boxes whose clicks reach actionPerformed. */
  datatype CheckBox = EmulateTabsBox | VisibleWhitespaceBox | VisibleEOLBox | ShowIndentGuideBox

  const RESTORE_DEFAULTS: string := "RestoreDefaults"

  /** The check box an action command names, by the commands the panel gives its boxes. */
  function CheckBoxOf(command: string): (r: Option<CheckBox>)
    ensures r.Some? ==> command != RESTORE_DEFAULTS
    ensures r == Some(EmulateTabsBox) <==> command == "EmulateTabsCheckBox"
    ensures r == Some(VisibleWhitespaceBox) <==> command == "VisibleWhitespace"
    ensures r == Some(VisibleEOLBox) <==> command == "VisibleEOL"
    ensures r == Some(ShowIndentGuideBox) <==> command == "ShowIndentGuide"
  {
    if command == "EmulateTabsCheckBox" then Some(EmulateTabsBox)
    else if command == "VisibleWhitespace" then Some(VisibleWhitespaceBox)
    else if command == "VisibleEOL" then Some(VisibleEOLBox)
    else if command == "ShowIndentGuide" then Some(ShowIndentGuideBox)
    else None
  }

  /** OptionsPanelCheckResult: the message shown and the component to focus. */
  datatype CheckResult = CheckResult(errorMessage: string, component: Component)

  const TAB_SIZE_ERROR: string := "Invalid number format for tab size;\nPlease input a tab size greater than zero."

  function PreviewOf(s: Settings): PreviewContext {
    PreviewContext(s.font, s.fontColor, s.tabSize, s.emulateTabs, s.visibleWhitespace, s.visibleEOL, s.showTabLines)
  }

  /**
   * The tab size ensureValidInputsImpl accepts from the field's text: a
   * number Integer.parseInt reads that is not negative. Zero is accepted.
   */
  function AcceptedTabSize(text: string): (r: Option<nat>)
    ensures r.Some? ==> ParseInt(text) == Some(r.value as int)
    ensures r.None? <==> ParseInt(text).None? || ParseInt(text).value < 0
  {
    match ParseInt(text)
    case None => None
    case Some(v) => if v < 0 then None else Some(v)
  }

  /**
   * The text setTabSize writes is read back by the validation as the same
   * value when it is not negative (zero included), and rejected otherwise.
   */
  lemma AcceptedTabSizeOfDecimal(n: int)
    requires INT_MIN <= n <= INT_MAX
    ensures n >= 0 ==> AcceptedTabSize(IntToString(n)) == Some(n)
    ensures n < 0 ==> AcceptedTabSize(IntToString(n)) == None
  {
    ParseIntToString(n);
  }

  /** The settings "Restore Defaults" resets to. */
  function Defaults(font: Font, foreground: Color, tabSize: int): Settings {
    Settings(font, foreground, false, tabSize, false, false, false, false)
  }

  /** The condition guarding the reset: some setting differs from its default. */
  predicate RestoreNeeded(s: Settings, font: Font, foreground: Color, tabSize: int) {
    s.font != font || s.fontColor != foreground || s.underline || s.tabSize != tabSize ||
    s.emulateTabs || s.visibleWhitespace || s.visibleEOL || s.showTabLines
  }

  /** The settings after the reset; setTabSize ignores a default that is not positive. */
  function Restored(s: Settings, font: Font, foreground: Color, tabSize: int): (r: Settings)
    ensures tabSize > 0 ==> r == Defaults(font, foreground, tabSize)
    ensures tabSize <= 0 ==> r == Defaults(font, foreground, s.tabSize)
  {
    Defaults(font, foreground, if tabSize > 0 then tabSize else s.tabSize)
  }

  /** The guard is exactly "the settings are not the defaults". */
  lemma RestoreNeededIffNotDefaults(s: Settings, font: Font, foreground: Color, tabSize: int)
    ensures RestoreNeeded(s, font, foreground, tabSize) <==> s != Defaults(font, foreground, tabSize)
  {
  }

  /** With a positive default tab size, a second restore finds nothing to do. */
  lemma RestoreIdempotent(s: Settings, font: Font, foreground: Color, tabSize: int)
    requires tabSize > 0
    ensures !RestoreNeeded(Restored(s, font, foreground, tabSize), font, foreground, tabSize)
  {
  }

  /** The settings with one check box toggled. */
  function Toggled(s: Settings, box: CheckBox): Settings {
    match box
    case EmulateTabsBox => s.(emulateTabs := !s.emulateTabs)
    case VisibleWhitespaceBox => s.(visibleWhitespace := !s.visibleWhitespace)
    case VisibleEOLBox => s.(visibleEOL := !s.visibleEOL)
    case ShowIndentGuideBox => s.(showTabLines := !s.showTabLines)
  }

  /** A second click on a box undoes the first, and a click always changes the settings. */
  lemma ToggledTwice(s: Settings, box: CheckBox)
    ensures Toggled(Toggled(s, box), box) == s
    ensures Toggled(s, box) != s
  {
  }

  class FontAndTabsOptionPanel {
    var displayedFont: Font
    var fontColor: Color
    var underline: bool
    var tabSizeText: string
    var tabSize: int
    var emulateTabs: bool
    var visibleWhitespace: bool
    var visibleEOL: bool
    var showTabLines: bool
    var dirty: bool
    var preview: PreviewContext

    function Current(): Settings
      reads this
    {
      Settings(displayedFont, fontColor, underline, tabSize, emulateTabs, visibleWhitespace, visibleEOL, showTabLines)
    }

    /** A new panel: empty tab-size text, stored size 0, boxes clear, not dirty. */
    constructor (font: Font, color: Color, preview: PreviewContext)
      ensures Current() == Settings(font, color, false, 0, false, false, false, false)
      ensures tabSizeText == "" && !dirty && this.preview == preview
    {
      displayedFont, fontColor, underline := font, color, false;
      tabSizeText, tabSize := "", 0;
      emulateTabs, visibleWhitespace, visibleEOL, showTabLines := false, false, false, false;
      dirty := false;
      this.preview := preview;
    }

    /** setDirty: marking dirty first brings the preview context in line with the panel. */
    method SetDirty(dirty: bool)
      modifies this`dirty, this`preview
      ensures this.dirty == dirty
      ensures dirty ==> preview == PreviewOf(Current())
      ensures !dirty ==> preview == old(preview)
    {
      if dirty {
        preview := PreviewOf(Current());
      }
      this.dirty := dirty;
    }

    /** getTabSize: the value last stored. */
    method GetTabSize() returns (r: int)
      ensures r == tabSize
    {
      r := tabSize;
    }

    /**
     * setTabSize: stores only a positive value, but always shows the value
     * given, which also replaces a rejected entry left in the field.
     */
    method SetTabSize(size: int)
      modifies this`tabSize, this`tabSizeText
      ensures size > 0 ==> tabSize == size
      ensures size <= 0 ==> tabSize == old(tabSize)
      ensures tabSizeText == IntToString(size)
    {
      if tabSize != size && size > 0 {
        tabSize := size;
      }
      tabSizeText := IntToString(size);
    }

    /**
     * ensureValidInputsImpl: an unparsable or negative tab size gives an
     * error result aimed at the tab-size field and stores -1; otherwise the
     * parsed value is stored and there is no error.
     */
    method EnsureValidInputsImpl() returns (res: Option<CheckResult>)
      modifies this`tabSize
      ensures AcceptedTabSize(tabSizeText).None? ==>
        res == Some(CheckResult(TAB_SIZE_ERROR, TabSizeField)) && tabSize == -1
      ensures AcceptedTabSize(tabSizeText).Some? ==>
        res == None && tabSize == AcceptedTabSize(tabSizeText).value
    {
      var parsed := ParseInt(tabSizeText);
      if parsed.None? || parsed.value < 0 {
        res := Some(CheckResult(TAB_SIZE_ERROR, TabSizeField));
        tabSize := -1;
        return;
      }
      tabSize := parsed.value;
      res := None;
    }

    /** The "RestoreDefaults" branch of actionPerformed. */
    method RestoreDefaults(themeForeground: Option<Color>, defaultFont: Font, defaultTabSize: int)
      modifies this
      ensures themeForeground.Some? && RestoreNeeded(old(Current()), defaultFont, themeForeground.value, defaultTabSize) ==>
        Current() == Restored(old(Current()), defaultFont, themeForeground.value, defaultTabSize) &&
        tabSizeText == IntToString(defaultTabSize) && dirty && preview == PreviewOf(Current())
      ensures themeForeground.None? || !RestoreNeeded(old(Current()), defaultFont, themeForeground.value, defaultTabSize) ==>
        Current() == old(Current()) && tabSizeText == old(tabSizeText) &&
        dirty == old(dirty) && preview == old(preview)
    {
      if themeForeground.None? {
        return;
      }
      var defaultForeground := themeForeground.value;
      var currentTabSize := GetTabSize();
      if displayedFont != defaultFont || fontColor != defaultForeground || underline ||
         currentTabSize != defaultTabSize || emulateTabs || visibleWhitespace ||
         visibleEOL || showTabLines {
        ResetTo(defaultFont, defaultForeground, defaultTabSize);
      }
    }

    /** The body of the reset: every setting to its default, then the panel is marked dirty. */
    method ResetTo(defaultFont: Font, defaultForeground: Color, defaultTabSize: int)
      modifies this
      ensures Current() == Restored(old(Current()), defaultFont, defaultForeground, defaultTabSize)
      ensures tabSizeText == IntToString(defaultTabSize) && dirty && preview == PreviewOf(Current())
    {
      displayedFont, underline := defaultFont, false;
      fontColor := defaultForeground;
      SetTabSize(defaultTabSize);
      emulateTabs := false;
      visibleWhitespace := false;
      visibleEOL := false;
      showTabLines := false;
      SetDirty(true);
    }

    /**
     * actionPerformed. "RestoreDefaults" resets the settings to the theme's
     * defaults and marks the panel dirty when some setting differs, and does
     * nothing otherwise or when the theme cannot be loaded (themeForeground
     * is None). Each check-box command comes from a click that has already
     * toggled that box (Swing changes the selection before it notifies the
     * listener); the panel then marks itself dirty, which copies the new
     * state into the preview.
     */
    method ActionPerformed(command: string, themeForeground: Option<Color>, defaultFont: Font, defaultTabSize: int)
      modifies this
      ensures command == RESTORE_DEFAULTS && themeForeground.Some? &&
              RestoreNeeded(old(Current()), defaultFont, themeForeground.value, defaultTabSize) ==>
        Current() == Restored(old(Current()), defaultFont, themeForeground.value, defaultTabSize) &&
        tabSizeText == IntToString(defaultTabSize) && dirty && preview == PreviewOf(Current())
      ensures command == RESTORE_DEFAULTS && (themeForeground.None? ||
              !RestoreNeeded(old(Current()), defaultFont, themeForeground.value, defaultTabSize)) ==>
        Current() == old(Current()) && tabSizeText == old(tabSizeText) &&
        dirty == old(dirty) && preview == old(preview)
      ensures CheckBoxOf(command).Some? ==>
        Current() == Toggled(old(Current()), CheckBoxOf(command).value) &&
        tabSizeText == old(tabSizeText) && dirty && preview == PreviewOf(Current())
      ensures command != RESTORE_DEFAULTS && CheckBoxOf(command).None? ==>
        Current() == old(Current()) && tabSizeText == old(tabSizeText) &&
        dirty == old(dirty) && preview == old(preview)
    {
      if command == RESTORE_DEFAULTS {
        RestoreDefaults(themeForeground, defaultFont, defaultTabSize);
      } else {
        match CheckBoxOf(command)
        case Some(box) =>
          match box {
            case EmulateTabsBox => emulateTabs := !emulateTabs;
            case VisibleWhitespaceBox => visibleWhitespace := !visibleWhitespace;
            case VisibleEOLBox => visibleEOL := !visibleEOL;
            case ShowIndentGuideBox => showTabLines := !showTabLines;
          }
          SetDirty(true);
        case None =>
      }
    }

    /** insertUpdate / removeUpdate on the tab-size field: the new text marks the panel dirty. */
    method TabSizeTextEdited(text: string)
      modifies this
      ensures tabSizeText == text && Current() == old(Current())
      ensures dirty && preview == PreviewOf(Current())
    {
      tabSizeText := text;
      SetDirty(true);
    }

    /** propertyChange from the font selector: its new state marks the panel dirty. */
    method FontSelectorChanged(font: Font, color: Color, underline: bool)
      modifies this
      ensures Current() == old(Current()).(font := font, fontColor := color, underline := underline)
      ensures tabSizeText == old(tabSizeText) && dirty && preview == PreviewOf(Current())
    {
      displayedFont, fontColor, this.underline := font, color, underline;
      SetDirty(true);
    }
  }
}
