# RText: the logic inside its actions, windows and option panels

RText is a Swing text editor. Most of its action, window and option-panel
classes only wire widgets together. A few of them make decisions that can
be stated without the toolkit. This project models those decisions in
Dafny and proves what each one promises.

- **Move focus left** (`MoveFocusLeftAction`, module `MoveFocus`). The
  action picks the dockable-window group, or the editor, that takes
  keyboard focus next. It depends on the group that has focus now and on
  which side groups exist.
- **Task window** (`TaskWindow`, module `Tasks`). A text area is
  registered when it is added and unregistered when it is removed. The
  table model turns the notices of the task parser into rows: icon, text
  area, 1-based line and message.
- **Save as web page** (`SaveAsWebPageAction`, module `WebPageExport`).
  This covers the `.html` name first offered in the dialog, the
  extension check on the chosen path, and the page `saveAs` writes. Each
  painted token becomes one span. Each token type gets one CSS rule, built
  the first time the type is seen. The rules are printed in type order.
- **Font and tabs options** (`FontAndTabsOptionPanel`, module
  `FontAndTabs`). This covers tab-size validation with its `-1` sentinel,
  `setTabSize`, "Restore Defaults" and the dirty flag that keeps the
  preview in sync.
- **Source browser options** (`SourceBrowserOptionPanel`, module
  `SourceBrowser`). This covers the ctags type and its radio buttons, the
  dirty tracking, the placement fallback, loading and applying the
  settings, and the "{0}" link in the description.
- **Tools preferences** (`ToolsPrefs`, module `ToolsPlugin`). Loading
  replaces an invalid window position with BOTTOM. The defaults are
  defined here too.

Three modules are shared:

- `Docking` holds the dockable-window positions and their validity test.
- `Strings` holds the few `String` and `Integer` operations the code calls.
- `Wrappers` holds `Option`, which stands for Java's `null`.

The methods of the panels, windows and preferences keep the source's form.
They are classes whose fields change in place. The pure decisions are
functions. The loops and the stored state are proved against functions
that specify them, and lemmas prove properties of those functions. The
event handlers state the new state of each case directly.

## Model

| member | source | states |
|---|---|---|
| Docking.PositionOr | src/main/java/org/fife/rtext/plugins/sourcebrowser/SourceBrowserOptionPanel.java:368-372 | a valid position is kept and an invalid one becomes the fallback; with a valid fallback the result is always valid |
| MoveFocus.ToFocus | src/main/java/org/fife/rtext/actions/MoveFocusLeftAction.java:54-79 | the switch's target is LEFT, RIGHT or the editor sentinel -1; a group target is one whose existence was checked and is never the focused group; no target exactly when the focused group is neither side and neither side group exists |
| MoveFocus.ActionPerformed | src/main/java/org/fife/rtext/actions/MoveFocusLeftAction.java:44-86 | no focus owner means no change; the editor is focused exactly from RIGHT, or from LEFT when there is no RIGHT group; a group request names an existing LEFT or RIGHT group, never TOP or BOTTOM |
| MoveFocus.PressCycles | src/main/java/org/fife/rtext/actions/MoveFocusLeftAction.java:54-86 | repeated presses from the editor cycle LEFT, RIGHT, editor when both side groups exist, alternate between the one side group and the editor otherwise, and change nothing with no side group |
| Tasks.TaskRowsAppend | src/org/fife/rtext/TaskWindow.java:153-162 | the rows for a concatenated notice list are the rows of each part in order |
| Tasks.TaskRowsCount | src/org/fife/rtext/TaskWindow.java:152-163 | one row per task-parser notice, so no more rows than notices |
| Tasks.TaskRowsOtherParsers | src/org/fife/rtext/TaskWindow.java:155 | notices from other parsers produce no rows |
| Tasks.TaskRowsFromTaskNotices | src/org/fife/rtext/TaskWindow.java:156-159 | every row carries the window icon and the given text area, and comes from a task-parser notice with the line plus one and the message unchanged |
| Tasks.TaskNoticeTableModel.AddNoticesImpl | src/org/fife/rtext/TaskWindow.java:152-163 | the existing rows are kept and the rows of the task-parser notices are appended in input order |
| Tasks.TaskWindow.PropertyChange | src/org/fife/rtext/TaskWindow.java:116-143 | a notices event hands the source and its notices to the model; an added area gets the listener, then the task parser; a removed area loses the parser, then the listener; other events change nothing |
| WebPageExport.DefaultHtmlFileName | src/org/fife/rtext/SaveAsWebPageAction.java:88-95 | the offered name ends in .html; a path without a dot gets .html appended; otherwise everything from the last dot is replaced |
| WebPageExport.DefaultHtmlFileNameCutsDirectory | src/org/fife/rtext/SaveAsWebPageAction.java:88-95 | on the path a.b/c, whose only dot is in a directory name, the written rule gives a.html and the corrected rule a.b/c.html |
| WebPageExport.IntendedDefaultHtmlFileName | src/org/fife/rtext/SaveAsWebPageAction.java:88-95 | the corrected default name ends in .html and keeps the directory part of the path unchanged; a file name without a dot gets .html appended, and one with a dot has everything from its own last dot replaced |
| WebPageExport.IntendedDefaultHtmlFileNameAgrees | src/org/fife/rtext/SaveAsWebPageAction.java:88-95 | for a path without a separator the corrected and the written default names agree |
| WebPageExport.MatchesHtmlPatternIsRegex | src/org/fife/rtext/SaveAsWebPageAction.java:118 | the decision procedure for the pattern matches exactly the strings of the regular expression no-dots, dot, htm or html |
| WebPageExport.EnsureHtmlExtension | src/org/fife/rtext/SaveAsWebPageAction.java:118-119 | the path is kept exactly when it matches the pattern, otherwise .html is appended; the result ends in .htm or .html |
| WebPageExport.EnsureHtmlExtensionOnDottedDirectory | src/org/fife/rtext/SaveAsWebPageAction.java:118-119 | a path with a dotted directory that already ends in .html gets a second .html, and the check is not idempotent |
| WebPageExport.IntendedEnsureHtmlExtension | src/org/fife/rtext/SaveAsWebPageAction.java:118-119 | the corrected check keeps exactly the paths ending in .htm or .html and appends .html to the others |
| WebPageExport.IntendedEnsureHtmlExtensionIdempotent | src/org/fife/rtext/SaveAsWebPageAction.java:118-119 | the corrected check applied twice equals applying it once |
| WebPageExport.IntendedAcceptsWhatPatternAccepts | src/org/fife/rtext/SaveAsWebPageAction.java:118-119 | every path the written check keeps, the corrected one keeps too |
| WebPageExport.PaintedPrefix | src/org/fife/rtext/SaveAsWebPageAction.java:159 | the tokens visited on a line are its longest prefix of paintable tokens |
| WebPageExport.CacheAllKeeps | src/org/fife/rtext/SaveAsWebPageAction.java:160-174 | a cached CSS rule is never overwritten |
| WebPageExport.CacheAllFirst | src/org/fife/rtext/SaveAsWebPageAction.java:160-174 | a type's slot stays empty exactly when no token of that type was visited, and otherwise holds the rule built from the first such token |
| WebPageExport.StylesTextAppend | src/org/fife/rtext/SaveAsWebPageAction.java:184-190 | the rules of lower types are printed before those of higher types |
| WebPageExport.StylesTextOfNone | src/org/fife/rtext/SaveAsWebPageAction.java:184-190 | an empty cache prints no rule at all |
| WebPageExport.StylesTextSlot | src/org/fife/rtext/SaveAsWebPageAction.java:184-190 | the text printed for one slot sits between the text of the lower and of the higher slots |
| WebPageExport.StylesTextOfCache | src/org/fife/rtext/SaveAsWebPageAction.java:157-190 | after the visit, the slot of a type no token had prints nothing, and the slot of a visited type prints the rule of its first token followed by the line separator, between the lower and the higher types |
| WebPageExport.CacheToken | src/org/fife/rtext/SaveAsWebPageAction.java:160-174 | a rule is built and stored only for a token type that has none, and no other slot changes |
| WebPageExport.VisitLine | src/org/fife/rtext/SaveAsWebPageAction.java:158-179 | the inner loop leaves the cache as if every visited token so far had been cached in order, and returns one span per painted token of the line |
| WebPageExport.VisitLines | src/org/fife/rtext/SaveAsWebPageAction.java:157-181 | the outer loop caches the rules of every painted token of every line in order and builds the body of one line of spans plus a newline per document line |
| WebPageExport.PrintStyles | src/org/fife/rtext/SaveAsWebPageAction.java:184-190 | the printed CSS is the cached rules in ascending type order, each followed by the line separator println writes, empty slots skipped |
| WebPageExport.SaveAs | src/org/fife/rtext/SaveAsWebPageAction.java:139-200 | the page is the fixed head with the path as title, the rules for the types visited in type order, and the body of one line of spans plus a newline per document line; every println ends with the platform line separator |
| Strings.ParseIntToString | src/main/java/org/fife/ui/rsyntaxtextarea/FontAndTabsOptionPanel.java:277 | parseInt reads back every 32-bit value from its decimal text |
| FontAndTabs.AcceptedTabSize | src/main/java/org/fife/ui/rsyntaxtextarea/FontAndTabsOptionPanel.java:277-289 | the tab size accepted is the value parseInt reads when it is not negative, and nothing when the text does not parse or is negative |
| FontAndTabs.AcceptedTabSizeOfDecimal | src/main/java/org/fife/ui/rsyntaxtextarea/FontAndTabsOptionPanel.java:277-278 | the decimal text of a value is accepted as that value when it is not negative, zero included, and rejected when negative |
| FontAndTabs.Restored | src/main/java/org/fife/ui/rsyntaxtextarea/FontAndTabsOptionPanel.java:191-197 | restore sets the defaults; a default tab size that is not positive leaves the stored size unchanged |
| FontAndTabs.RestoreNeededIffNotDefaults | src/main/java/org/fife/ui/rsyntaxtextarea/FontAndTabsOptionPanel.java:183-190 | the reset guard holds exactly when the settings differ from the defaults |
| FontAndTabs.RestoreIdempotent | src/main/java/org/fife/ui/rsyntaxtextarea/FontAndTabsOptionPanel.java:183-199 | after a reset with a positive default tab size the guard is false, so a second restore does nothing |
| FontAndTabs.CheckBoxOf | src/main/java/org/fife/ui/rsyntaxtextarea/FontAndTabsOptionPanel.java:102-124 | each of the four action commands names exactly one check box, and no check-box command is the restore command |
| FontAndTabs.ToggledTwice | src/main/java/org/fife/ui/rsyntaxtextarea/FontAndTabsOptionPanel.java:203-217 | a click on a check box always changes the settings, and a second click on the same box restores them |
| FontAndTabs.FontAndTabsOptionPanel.SetDirty | src/main/java/org/fife/ui/rsyntaxtextarea/FontAndTabsOptionPanel.java:350-357 | marking dirty first copies the displayed font, colour, stored tab size and the four check-box states into the preview context; clearing the flag leaves the preview alone |
| FontAndTabs.FontAndTabsOptionPanel.SetTabSize | src/main/java/org/fife/ui/rsyntaxtextarea/FontAndTabsOptionPanel.java:365-373 | only a positive size is stored, so getTabSize keeps returning the old one otherwise, and the field always shows the decimal text of the size given |
| FontAndTabs.FontAndTabsOptionPanel.EnsureValidInputsImpl | src/main/java/org/fife/ui/rsyntaxtextarea/FontAndTabsOptionPanel.java:272-294 | rejected text gives the tab-size error aimed at the tab-size field and stores -1; accepted text stores its value with no error |
| FontAndTabs.FontAndTabsOptionPanel.RestoreDefaults | src/main/java/org/fife/ui/rsyntaxtextarea/FontAndTabsOptionPanel.java:164-200 | with the theme loaded and some setting off its default, the settings become the defaults, the field shows the default tab size and the panel is dirty with the preview in sync; otherwise nothing changes |
| FontAndTabs.FontAndTabsOptionPanel.ResetTo | src/main/java/org/fife/ui/rsyntaxtextarea/FontAndTabsOptionPanel.java:191-198 | the settings become the restored ones, the field shows the default tab size, and the panel is dirty with the preview in sync |
| FontAndTabs.FontAndTabsOptionPanel.ActionPerformed | src/main/java/org/fife/ui/rsyntaxtextarea/FontAndTabsOptionPanel.java:159-219 | Restore Defaults resets and marks dirty only when some setting differs and the theme loads; a check-box command, arriving after the click has toggled its box, leaves the settings with exactly that box toggled, marks the panel dirty and syncs the preview with the new state; other commands change nothing |
| FontAndTabs.FontAndTabsOptionPanel.TabSizeTextEdited | src/main/java/org/fife/ui/rsyntaxtextarea/FontAndTabsOptionPanel.java:266-268 | an edit of the tab-size field marks the panel dirty without changing the stored settings |
| FontAndTabs.FontAndTabsOptionPanel.FontSelectorChanged | src/main/java/org/fife/ui/rsyntaxtextarea/FontAndTabsOptionPanel.java:333-337 | a font selector change marks the panel dirty |
| SourceBrowser.NormalizedCtagsType | src/main/java/org/fife/rtext/plugins/sourcebrowser/SourceBrowserOptionPanel.java:385-398 | the two known ctags types map to themselves; null or any other value maps to Exuberant |
| SourceBrowser.TypeOf | src/main/java/org/fife/rtext/plugins/sourcebrowser/SourceBrowserOptionPanel.java:293-297 | getCTagsType reports Exuberant exactly when its radio is selected and Standard exactly when the other one is |
| SourceBrowser.Normalized | src/main/java/org/fife/rtext/plugins/sourcebrowser/SourceBrowserOptionPanel.java:417-425 | loading then applying keeps visibility, executable and tooltips, keeps a valid position and turns an invalid one into LEFT, and normalises the ctags type |
| SourceBrowser.NormalizedIdempotent | src/main/java/org/fife/rtext/plugins/sourcebrowser/SourceBrowserOptionPanel.java:251-259 | a second load and apply changes nothing more |
| SourceBrowser.SpliceDescription | src/main/java/org/fife/rtext/plugins/sourcebrowser/SourceBrowserOptionPanel.java:167-177 | with a "{0}" the first one is replaced by the home-page link, the text around it is kept and the result starts with "<html>"; without one the text is unchanged |
| SourceBrowser.SpliceDescriptionUndone | src/main/java/org/fife/rtext/plugins/sourcebrowser/SourceBrowserOptionPanel.java:167-177 | putting "{0}" back in place of the link and dropping "<html>" gives the original text |
| SourceBrowser.SourceBrowserOptionPanel.Applied | src/main/java/org/fife/rtext/plugins/sourcebrowser/SourceBrowserOptionPanel.java:251-259 | the panel writes the selected ctags type and the combo index back to the plugin |
| SourceBrowser.SourceBrowserOptionPanel.SetCTagsType | src/main/java/org/fife/rtext/plugins/sourcebrowser/SourceBrowserOptionPanel.java:385-398 | the selected radio is the one getCTagsType then reports as the normalised type, and the last selected radio is the selected one |
| SourceBrowser.SourceBrowserOptionPanel.SetSourceBrowserPlacement | src/main/java/org/fife/rtext/plugins/sourcebrowser/SourceBrowserOptionPanel.java:368-372 | a valid placement is the combo index, an invalid one shows as LEFT |
| SourceBrowser.SourceBrowserOptionPanel.SetValues | src/main/java/org/fife/rtext/plugins/sourcebrowser/SourceBrowserOptionPanel.java:417-425 | applying right after loading gives back the plugin's settings, normalised |
| SourceBrowser.SourceBrowserOptionPanel.ActionPerformed | src/main/java/org/fife/rtext/plugins/sourcebrowser/SourceBrowserOptionPanel.java:190-234 | with the clicked widget already updated: the visibility box and the tooltip command mark dirty; browse sets the chosen file; a ctags radio marks dirty and becomes the last selected one only when it is not already |
| SourceBrowser.SourceBrowserOptionPanel.ClickAndNotify | src/main/java/org/fife/rtext/plugins/sourcebrowser/SourceBrowserOptionPanel.java:190-234 | a click toggles the clicked check box or selects the clicked radio before the listener runs; after a radio click getCTagsType reports that radio's type, the radio is recorded as last selected, the panel is dirty exactly when it was or the radio was not the last selected, and a recorded selection stays in agreement with the buttons; the visibility box and the tooltip command mark dirty; Browse writes the chosen file and, through the field's document event, marks dirty; the executable text changes only then |
| SourceBrowser.SourceBrowserOptionPanel.DocumentUpdated | src/main/java/org/fife/rtext/plugins/sourcebrowser/SourceBrowserOptionPanel.java:265-274 | only an edit of the ctags executable field marks the panel dirty |
| SourceBrowser.SourceBrowserOptionPanel.ItemStateChanged | src/main/java/org/fife/rtext/plugins/sourcebrowser/SourceBrowserOptionPanel.java:332-337 | only a selection in the placement combo marks the panel dirty |
| ToolsPlugin.Validated | src/main/java/org/fife/rtext/plugins/tools/ToolsPrefs.java:59-65 | after loading the position is valid; a valid position is kept, an invalid one becomes BOTTOM, and nothing else changes |
| ToolsPlugin.DefaultValues | src/main/java/org/fife/rtext/plugins/tools/ToolsPrefs.java:69-75 | the defaults: window hidden, at BOTTOM, no accelerators |
| ToolsPlugin.ValidatedIdempotent | src/main/java/org/fife/rtext/plugins/tools/ToolsPrefs.java:62-64 | the validation changes the values exactly when the position is invalid, and a second pass changes nothing |
| ToolsPlugin.DefaultsSurviveLoad | src/main/java/org/fife/rtext/plugins/tools/ToolsPrefs.java:59-75 | the default values load back unchanged |
| ToolsPlugin.ToolsPrefs.Load | src/main/java/org/fife/rtext/plugins/tools/ToolsPrefs.java:59-65 | the fields become the loaded values with the position validated |
| ToolsPlugin.ToolsPrefs.SetDefaults | src/main/java/org/fife/rtext/plugins/tools/ToolsPrefs.java:69-75 | the fields become the default values |

## Left out

- The Swing toolkit is not modelled: the focus manager, dialogs, file choosers, layout, icons and resource bundles. What they return is a parameter. This includes the focus owner, the groups that exist, the file chosen, the theme's foreground, and the fonts and colours of token types.
- Events the toolkit fires back into a panel while a method runs are not modelled inside the handlers. An example is the document event that `setText` on a text field raises. For the one user action where it changes the end state, the Browse button, `ClickAndNotify` runs that event after `ActionPerformed`.
- `DockableWindowConstants`, `DockableWindow.isValidPosition` and the base `Prefs` loader are not part of this model. The positions 0 to 4 follow the order of the source browser's placement combo box. The loader's result is a parameter of `Load`.
- ToolsPlugin.ToolsPrefs.constructor: states that a new object holds the defaults, on the assumption that the base class constructor calls `setDefaults`.
- `ParserNoticeTableModel` and its `update` are not part of this model. The task window records the calls it makes to the model and to the text areas as a log.
- Tasks.TaskWindow.PropertyChange: keeps listener and parser registrations as sets, so registering the same text area twice cannot be seen. The `System.out.println` debug lines are left out.
- Tasks.TaskNoticeTableModel.AddNoticesImpl: the line column is the notice line plus one, with no 32-bit wrap-around.
- Strings.ParseInt: accepts ASCII digits only. Java's `Character.digit` also accepts other Unicode decimal digits.
- WebPageExport.SaveAs: requires every visited token type to be not negative (token types are `nat`) and below the number of token types, where Java would throw an array index exception. It returns the page text and does not write a file. HTML escaping, the colour format and the fonts of token types are function parameters. The linked token list of a line is a sequence.
- The line separator `println` writes is the platform's `line.separator` property; it is the parameter `eol` of `Page`, `PrintStyles` and `SaveAs`. The newlines the code writes itself (after each document line and inside the string literals) stay `\n`.
- The overwrite prompt, the file-exists check and the error dialog of `SaveAsWebPageAction` are not modelled.
- FontAndTabs.FontAndTabsOptionPanel.ActionPerformed: does not model the theme lookup. An `IOException` there is the `None` case of the theme's foreground. The syntax scheme's `changeBaseFont` call in the preview sync is not modelled.
- The option panels' `setValuesImpl` and `doApplyImpl` for fonts and tabs are not modelled. They are pure widget bindings. The source browser's pair is modelled because it carries the placement and ctags-type normalisation.
- Swing changes a check box's or radio button's selection before it calls `actionPerformed`. `Click` models that change, and `ClickAndNotify` runs it ahead of the listener. On the fonts and tabs panel the toggle is `Toggled`, applied inside `ActionPerformed` for the four check-box commands.
- MoveFocus.PressCycles: assumes that once the editor has focus, `getFocusedDockableWindowGroup` reports -1, as `FocusedAfter` does. The focus manager is not modelled.
- The other option panels, the one-line actions and the constant-only preference classes are not part of this model.

## Findings

| source | as written | input that shows it | evidently intended | confidence | as-written member | corrected member |
|---|---|---|---|---|---|---|
| src/org/fife/rtext/SaveAsWebPageAction.java:88-95 | the last `.` of the full path is taken as the start of the extension | the path `a.b/c` gives `a.html`, losing the directory | only a `.` in the file's own name starts the extension, giving `a.b/c.html` | high, not executed | WebPageExport.DefaultHtmlFileName | WebPageExport.IntendedDefaultHtmlFileName |
| src/org/fife/rtext/SaveAsWebPageAction.java:118-119 | the regular expression `[^\.]*\.htm[l]?` is matched against the whole absolute path | `a.b/c.html` becomes `a.b/c.html.html`, and `a.b/c` gets `.html` twice on a second check | a path already ending in `.htm` or `.html` is kept | high, not executed | WebPageExport.EnsureHtmlExtensionOnDottedDirectory | WebPageExport.IntendedEnsureHtmlExtension |
