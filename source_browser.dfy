/**
 * SourceBrowserOptionPanel: the options panel of the source browser plugin.
 * Modelled: the ctags-type radio buttons with the one last selected, the
 * dirty flag, the placement combo box, the visibility and HTML-tooltip check
 * boxes, the ctags executable field, loading the panel from the plugin and
 * applying it back, and the description text whose "{0}" becomes a link to
 * the ctags home page.
 */
module SourceBrowser {
  import opened Wrappers
  import opened Strings
  import opened Docking

  /**
   * SourceBrowserPlugin.CTAGS_TYPE_EXUBERANT and CTAGS_TYPE_STANDARD. That
   * class is not part of this model; only the two values being distinct
   * matters here.
   */
  const CTAGS_TYPE_EXUBERANT: string := "exuberant"
  const CTAGS_TYPE_STANDARD: string := "standard"

  const CTAGS_HOME_PAGE: string := "http://ctags.sourceforge.net"

  /** The placeholder in the description that the link replaces. */
  const LINK_PLACEHOLDER: string := "{0}"

  /** The action commands the panel gives its browse button and tooltip check box. */
  const BROWSE_COMMAND: string := "Browse"
  const HTML_TOOLTIPS_COMMAND: string := "HTMLToolTips"

  datatype CtagsRadio = ExuberantRadio | StandardRadio

  /** The components of the panel an action event can come from. */
  datatype Component =
    | VisibleCheckBox
    | BrowseButton
    | CtagsRadioButton(radio: CtagsRadio)
    | HtmlToolTipsCheckBox
    | OtherComponent

  /**
   * What the panel reads from and writes to the plugin and its dockable
   * window: whether the window is active, its position, the ctags
   * executable, the ctags type and whether tooltips are HTML.
   */
  datatype PluginSettings = PluginSettings(
    active: bool,
    position: int,
    ctagsExecutable: string,
    ctagsType: Option<string>,
    htmlToolTips: bool)

  /** The ctags type setCTagsType selects: Standard only when named, Exuberant otherwise. */
  function NormalizedCtagsType(ctagsType: Option<string>): (r: string)
    ensures r == CTAGS_TYPE_EXUBERANT || r == CTAGS_TYPE_STANDARD
    ensures ctagsType == Some(CTAGS_TYPE_STANDARD) ==> r == CTAGS_TYPE_STANDARD
    ensures ctagsType == Some(CTAGS_TYPE_EXUBERANT) ==> r == CTAGS_TYPE_EXUBERANT
    ensures ctagsType != Some(CTAGS_TYPE_STANDARD) ==> r == CTAGS_TYPE_EXUBERANT
  {
    if ctagsType == Some(CTAGS_TYPE_STANDARD) then CTAGS_TYPE_STANDARD else CTAGS_TYPE_EXUBERANT
  }

  /** getCTagsType: the type named by the selected radio button. */
  function TypeOf(selected: CtagsRadio): (r: string)
    ensures r == CTAGS_TYPE_EXUBERANT <==> selected == ExuberantRadio
    ensures r == CTAGS_TYPE_STANDARD <==> selected == StandardRadio
  {
    assert CTAGS_TYPE_EXUBERANT != CTAGS_TYPE_STANDARD by {
      assert CTAGS_TYPE_EXUBERANT[0] != CTAGS_TYPE_STANDARD[0];
    }
    match selected
    case ExuberantRadio => CTAGS_TYPE_EXUBERANT
    case StandardRadio => CTAGS_TYPE_STANDARD
  }

  /** What the plugin holds after the panel loaded the settings and applied them back. */
  function Normalized(s: PluginSettings): (r: PluginSettings)
    ensures r.active == s.active && r.ctagsExecutable == s.ctagsExecutable
    ensures r.htmlToolTips == s.htmlToolTips
    ensures IsValidPosition(r.position)
    ensures IsValidPosition(s.position) ==> r.position == s.position
    ensures !IsValidPosition(s.position) ==> r.position == LEFT
    ensures r.ctagsType == Some(NormalizedCtagsType(s.ctagsType))
  {
    s.(position := PositionOr(s.position, LEFT),
       ctagsType := Some(NormalizedCtagsType(s.ctagsType)))
  }

  /** Loading and applying a second time changes nothing more. */
  lemma NormalizedIdempotent(s: PluginSettings)
    ensures Normalized(Normalized(s)) == Normalized(s)
  {
  }

  /** The link that replaces the placeholder. */
  function HomePageLink(linkText: string): string {
    "<a href='" + CTAGS_HOME_PAGE + "'>" + linkText + "</a>"
  }

  /**
   * The description shown under the options: when the text holds "{0}",
   * the first one becomes the home-page link and the whole text is marked
   * as HTML; otherwise the text is shown as it is.
   */
  function SpliceDescription(text: string, linkText: string): (r: string)
    ensures IndexOf(text, LINK_PLACEHOLDER) == -1 ==> r == text
    ensures IndexOf(text, LINK_PLACEHOLDER) != -1 ==>
      exists k :: (0 <= k && k + 3 <= |text| && OccursAt(text, LINK_PLACEHOLDER, k) &&
                   (forall j :: 0 <= j < k ==> !OccursAt(text, LINK_PLACEHOLDER, j)) &&
                   r == "<html>" + text[..k] + HomePageLink(linkText) + text[k + 3..])
  {
    var linkPos := IndexOf(text, LINK_PLACEHOLDER);
    if linkPos > -1 then
      var part1 := text[..linkPos];
      var part3 := text[linkPos + 3..];
      "<html>" + part1 + HomePageLink(linkText) + part3
    else text
  }

  /**
   * The splice loses nothing: putting the placeholder back in place of the
   * link, and dropping the "<html>" mark, gives the original text.
   */
  lemma SpliceDescriptionUndone(text: string, linkText: string)
    requires IndexOf(text, LINK_PLACEHOLDER) != -1
    ensures var r := SpliceDescription(text, linkText);
            var k := IndexOf(text, LINK_PLACEHOLDER);
            var n := |HomePageLink(linkText)|;
            |r| == |text| + 3 + n &&
            r[..6] == "<html>" &&
            r[6..6 + k] + LINK_PLACEHOLDER + r[6 + k + n..] == text
  {
    var r := SpliceDescription(text, linkText);
    var k := IndexOf(text, LINK_PLACEHOLDER);
    var link := HomePageLink(linkText);
    assert r == "<html>" + text[..k] + link + text[k + 3..];
    assert r[6..6 + k] == text[..k];
    assert r[6 + k + |link|..] == text[k + 3..];
    assert |LINK_PLACEHOLDER| == 3 && OccursAt(text, LINK_PLACEHOLDER, k);
    assert text[k..k + 3] == LINK_PLACEHOLDER;
    assert text == text[..k] + text[k..k + 3] + text[k + 3..];
  }

  /**
   * Whether actionPerformed reaches a radio-button branch: the Exuberant
   * button is tested before the tooltip command, the Standard one after it.
   */
  predicate RadioBranch(source: Component, command: string) {
    source.CtagsRadioButton? && command != BROWSE_COMMAND &&
    (source.radio == StandardRadio ==> command != HTML_TOOLTIPS_COMMAND)
  }

  class SourceBrowserOptionPanel {
    var visible: bool
    /** The index selected in the placement combo box. */
    var placementIndex: int
    var ctagsExecutableText: string
    /** Which ctags radio button is selected (the button group keeps exactly one). */
    var selected: CtagsRadio
    /** lastSelectedCtagsRB; None until setCTagsType or a radio click sets it. */
    var lastSelected: Option<CtagsRadio>
    var htmlToolTips: bool
    var dirty: bool

    /** A new panel: the Exuberant button selected, none recorded as last selected. */
    constructor ()
      ensures selected == ExuberantRadio && lastSelected == None && !dirty
      ensures SelectionRecorded()
    {
      visible := false;
      placementIndex := TOP;
      ctagsExecutableText := "";
      selected := ExuberantRadio;
      lastSelected := None;
      htmlToolTips := false;
      dirty := false;
    }

    /** getCTagsType. */
    function GetCTagsType(): string
      reads this
    {
      TypeOf(selected)
    }

    /** doApplyImpl: the settings the panel writes back to the plugin. */
    function Applied(): (r: PluginSettings)
      reads this
      ensures r.ctagsType == Some(GetCTagsType()) && r.position == placementIndex
    {
      PluginSettings(visible, placementIndex, ctagsExecutableText, Some(GetCTagsType()), htmlToolTips)
    }

    /** setCTagsType: selects the radio for the type, unknown or null meaning Exuberant. */
    method SetCTagsType(ctagsType: Option<string>)
      modifies this`selected, this`lastSelected
      ensures GetCTagsType() == NormalizedCtagsType(ctagsType)
      ensures lastSelected == Some(selected)
    {
      if ctagsType == Some(CTAGS_TYPE_EXUBERANT) {
        selected := ExuberantRadio;
        lastSelected := Some(ExuberantRadio);
      } else if ctagsType == Some(CTAGS_TYPE_STANDARD) {
        selected := StandardRadio;
        lastSelected := Some(StandardRadio);
      } else {
        selected := ExuberantRadio;
        lastSelected := Some(ExuberantRadio);
      }
    }

    /** setSourceBrowserPlacement: an invalid placement shows as LEFT. */
    method SetSourceBrowserPlacement(placement: int)
      modifies this`placementIndex
      ensures placementIndex == PositionOr(placement, LEFT)
      ensures IsValidPosition(placementIndex)
    {
      var p := placement;
      if !IsValidPosition(p) {
        p := LEFT;
      }
      placementIndex := p;
    }

    /**
     * setValuesImpl: loads the panel from the plugin. Applying the panel
     * straight afterwards gives the plugin's settings back, with the
     * position and the ctags type normalised.
     */
    method SetValues(s: PluginSettings)
      modifies this`visible, this`placementIndex, this`ctagsExecutableText, this`selected,
        this`lastSelected, this`htmlToolTips
      ensures Applied() == Normalized(s)
      ensures lastSelected == Some(selected)
    {
      visible := s.active;
      SetSourceBrowserPlacement(s.position);
      ctagsExecutableText := s.ctagsExecutable;
      SetCTagsType(s.ctagsType);
      htmlToolTips := s.htmlToolTips;
    }

    /**
     * The last selected radio, when there is one, is the selected one: the
     * panel's record of the ctags type agrees with its buttons.
     */
    predicate SelectionRecorded()
      reads this
    {
      lastSelected == None || lastSelected == Some(selected)
    }

    /**
     * The selection change a click makes before the panel hears of it: a
     * check box is toggled and a radio becomes the selected one of its group.
     */
    method Click(source: Component)
      modifies this`visible, this`selected, this`htmlToolTips
      ensures visible == (if source == VisibleCheckBox then !old(visible) else old(visible))
      ensures htmlToolTips == (if source == HtmlToolTipsCheckBox then !old(htmlToolTips) else old(htmlToolTips))
      ensures selected == (if source.CtagsRadioButton? then source.radio else old(selected))
    {
      match source {
        case VisibleCheckBox => visible := !visible;
        case HtmlToolTipsCheckBox => htmlToolTips := !htmlToolTips;
        case CtagsRadioButton(radio) => selected := radio;
        case BrowseButton =>
        case OtherComponent =>
      }
    }

    /**
     * A click on a component of the panel: Swing changes the clicked
     * widget's selection first, then calls actionPerformed. The file the
     * browse dialog returns, or None when it is cancelled, is a parameter;
     * writing a chosen file into the executable field raises the field's
     * document event, which marks the panel dirty.
     */
    method ClickAndNotify(source: Component, command: string, chosenFile: Option<string>)
      modifies this`visible, this`selected, this`htmlToolTips, this`lastSelected, this`dirty,
        this`ctagsExecutableText
      ensures visible == (if source == VisibleCheckBox then !old(visible) else old(visible))
      ensures htmlToolTips == (if source == HtmlToolTipsCheckBox then !old(htmlToolTips) else old(htmlToolTips))
      ensures selected == (if source.CtagsRadioButton? then source.radio else old(selected))
      ensures source.CtagsRadioButton? ==> GetCTagsType() == TypeOf(source.radio)
      ensures RadioBranch(source, command) ==> lastSelected == Some(selected)
      ensures old(SelectionRecorded()) && (source.CtagsRadioButton? ==> RadioBranch(source, command)) ==>
        SelectionRecorded()
      ensures RadioBranch(source, command) ==> dirty == (old(dirty) || old(lastSelected) != Some(source.radio))
      ensures !RadioBranch(source, command) ==> lastSelected == old(lastSelected)
      ensures source == VisibleCheckBox ==> dirty && ctagsExecutableText == old(ctagsExecutableText)
      ensures source != VisibleCheckBox && command == BROWSE_COMMAND ==>
        dirty == (old(dirty) || chosenFile.Some?) &&
        ctagsExecutableText == (if chosenFile.Some? then chosenFile.value else old(ctagsExecutableText))
      ensures RadioBranch(source, command) ==> ctagsExecutableText == old(ctagsExecutableText)
      ensures source != VisibleCheckBox && command != BROWSE_COMMAND && !RadioBranch(source, command) ==>
        dirty == (old(dirty) || command == HTML_TOOLTIPS_COMMAND) &&
        ctagsExecutableText == old(ctagsExecutableText)
    {
      Click(source);
      ActionPerformed(source, command, chosenFile);
      if source != VisibleCheckBox && command == BROWSE_COMMAND && chosenFile.Some? {
        // setText on the executable field raises a document event once the handler has run
        DocumentUpdated(true);
      }
    }

    /**
     * actionPerformed, branch by branch in the order the panel tests them.
     * The selection of the clicked widget has already changed (see
     * ClickAndNotify). A ctags radio marks the panel dirty only when it is
     * not the one last selected, and then becomes the last selected one.
     */
    method ActionPerformed(source: Component, command: string, chosenFile: Option<string>)
      modifies this`lastSelected, this`dirty, this`ctagsExecutableText
      ensures source == VisibleCheckBox ==>
        dirty && lastSelected == old(lastSelected) && ctagsExecutableText == old(ctagsExecutableText)
      ensures source != VisibleCheckBox && command == BROWSE_COMMAND ==>
        dirty == old(dirty) && lastSelected == old(lastSelected) &&
        ctagsExecutableText == (if chosenFile.Some? then chosenFile.value else old(ctagsExecutableText))
      ensures RadioBranch(source, command) && old(lastSelected) == Some(source.radio) ==>
        dirty == old(dirty) && lastSelected == old(lastSelected) && ctagsExecutableText == old(ctagsExecutableText)
      ensures RadioBranch(source, command) && old(lastSelected) != Some(source.radio) ==>
        dirty && lastSelected == Some(source.radio) && ctagsExecutableText == old(ctagsExecutableText)
      ensures source != VisibleCheckBox && command != BROWSE_COMMAND && !RadioBranch(source, command) ==>
        dirty == (old(dirty) || command == HTML_TOOLTIPS_COMMAND) &&
        lastSelected == old(lastSelected) && ctagsExecutableText == old(ctagsExecutableText)
    {
      if source == VisibleCheckBox {
        dirty := true;
      } else if command == BROWSE_COMMAND {
        if chosenFile.Some? {
          ctagsExecutableText := chosenFile.value;
        }
      } else if source == CtagsRadioButton(ExuberantRadio) {
        if lastSelected != Some(ExuberantRadio) {
          lastSelected := Some(ExuberantRadio);
          dirty := true;
        }
      } else if command == HTML_TOOLTIPS_COMMAND {
        dirty := true;
      } else if source == CtagsRadioButton(StandardRadio) {
        if lastSelected != Some(StandardRadio) {
          lastSelected := Some(StandardRadio);
          dirty := true;
        }
      }
    }

    /** doDocumentUpdated: only an edit of the ctags executable field marks the panel dirty. */
    method DocumentUpdated(fromCtagsExecutableField: bool)
      modifies this`dirty
      ensures dirty == (old(dirty) || fromCtagsExecutableField)
    {
      if fromCtagsExecutableField {
        dirty := true;
      }
    }

    /** itemStateChanged: selecting an item of the placement combo marks the panel dirty. */
    method ItemStateChanged(fromLocationCombo: bool, selectedEvent: bool)
      modifies this`dirty
      ensures dirty == (old(dirty) || (fromLocationCombo && selectedEvent))
    {
      if fromLocationCombo && selectedEvent {
        dirty := true;
      }
    }
  }
}
