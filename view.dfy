/**
  The parts of the rendered page that depend on the state: which screen is
  visible, the dropdown's icon and label, and the class and text of the
  preview element the highlighter works on.
 */
module View {
  import opened Wrappers
  import opened Languages
  import opened AppState

  /** The `hidden` attribute of the intro panel: it is set exactly when the workbench's is not. */
  function IntroHidden(s: State): (hidden: bool)
    ensures hidden <==> !s.showInfo
    ensures hidden != WorkbenchHidden(s)
  {
    !s.showInfo
  }

  /** The `hidden` attribute of the workbench panel: it is set while the intro is on. */
  function WorkbenchHidden(s: State): (hidden: bool)
    ensures hidden <==> s.showInfo
  {
    s.showInfo
  }

  /** Exactly one of the two panels is visible, and it is the intro exactly when `showInfo` holds. */
  lemma ExactlyOnePanelVisible(s: State)
    ensures IntroHidden(s) != WorkbenchHidden(s)
    ensures !IntroHidden(s) <==> s.showInfo
  {
  }

  const Placeholder := "Select a Programming language ..."

  /** The dropdown's label: a placeholder, or the chosen language's name after two spaces. */
  function DropdownLabel(s: State): (r: string)
    ensures s.programmingLanguage.None? ==> r == Placeholder
    ensures s.programmingLanguage.Some? ==>
              |r| > 2 && r[..2] == "  " && FromName(r[2..]) == s.programmingLanguage
  {
    match s.programmingLanguage
    case None => Placeholder
    case Some(l) => "  " + ToName(l)
  }

  /** The dropdown's icon: the chosen language's icon, or nothing. */
  function DropdownIcon(s: State): (r: Option<string>)
    ensures r.None? <==> s.programmingLanguage.None?
    ensures r.Some? ==> FromFilePath(r.value) == s.programmingLanguage
  {
    match s.programmingLanguage
    case None => None
    case Some(l) => Some(ToFilePath(l))
  }

  /** The class of the preview element: the chosen language's tag, or none. */
  function PreviewClass(s: State): (r: string)
    ensures r == "" <==> s.programmingLanguage.None?
    ensures s.programmingLanguage.Some? ==> FromClass(r) == s.programmingLanguage
  {
    match s.programmingLanguage
    case None => ""
    case Some(l) => ToClass(l)
  }

  const NothingToShow := "Nothing to show...yet"

  /** The text of the preview element: the code, or a notice while there is none. */
  function PreviewText(s: State): (r: string)
    ensures r != ""
    ensures s.code != "" ==> r == s.code
    ensures s.code == "" ==> r == NothingToShow
  {
    if s.code != "" then s.code else NothingToShow
  }

  /** The label tells apart every two states that differ in their language. */
  lemma DropdownLabelIdentifiesLanguage(s: State, t: State)
    requires DropdownLabel(s) == DropdownLabel(t)
    ensures s.programmingLanguage == t.programmingLanguage
  {
  }
}
