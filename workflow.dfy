/**
  The workflow enablement state machine of the main window: which of the
  Analyze, Save, Restart and Tag buttons are enabled and which image path
  is held, and how each WM_COMMAND changes them.
*/
module Workflow {
  import opened Wrappers
  import opened Win32

  /** Control identifiers of the buttons (the HMENU ids); the model also uses them as the buttons' window handles. */
  const UPLOAD_ID: int := 1
  const ANALYZE_ID: int := 2
  const SAVE_ID: int := 3
  const RESTART_ID: int := 4
  const FETCH_LOCATION_ID: int := 5
  const TAG_ID: int := 6

  /** The enabled flags that change at run time, and the selected image path. */
  datatype State = State(imagePath: string, analyze: bool, save: bool, restart: bool, tag: bool)

  /** At creation: no path; Analyze, Tag, Save and Restart are created disabled. */
  const Initial: State := State("", false, false, false, false)

  /**
    A WM_COMMAND, decoded from LOWORD(wParam). Upload carries what the
    file-open dialog returned: a path, or None when the user cancelled.
  */
  datatype Command = Upload(picked: Option<string>) | Analyze | Save | Restart | FetchLocation | Tag | Other(id: int)

  /** The switch on the command identifier; `picked` is used only by Upload. */
  function CommandOf(wParam: int, picked: Option<string>): (c: Command)
    ensures c.Other? <==> !(1 <= LoWord(wParam) <= 6)
  {
    var id := LoWord(wParam);
    if id == UPLOAD_ID then Upload(picked)
    else if id == ANALYZE_ID then Analyze
    else if id == SAVE_ID then Save
    else if id == RESTART_ID then Restart
    else if id == FETCH_LOCATION_ID then FetchLocation
    else if id == TAG_ID then Tag
    else Other(id)
  }

  /** What one command does to the flags (Analyze through DoAnalysis). */
  function Step(s: State, c: Command): State {
    match c
    case Upload(None) => s
    case Upload(Some(path)) => s.(imagePath := path, analyze := true)
    case Analyze => s.(save := true, restart := true, tag := true)
    case Save => s
    case Restart => s.(imagePath := "", analyze := false, save := false, restart := false, tag := false)
    case FetchLocation => s.(tag := true)
    case Tag => s
    case Other(_) => s
  }

  /** IsWindowEnabled for the six buttons; Upload and Fetch Location are never disabled. */
  function IsEnabled(s: State, hwnd: int): bool {
    if hwnd == ANALYZE_ID then s.analyze
    else if hwnd == SAVE_ID then s.save
    else if hwnd == RESTART_ID then s.restart
    else if hwnd == TAG_ID then s.tag
    else true
  }

  /** WM_PAINT draws the two graphs exactly when the Save button is enabled. */
  predicate GraphsShown(s: State) {
    IsEnabled(s, SAVE_ID)
  }

  /** The state after a sequence of commands from creation. */
  function Run(cmds: seq<Command>): State {
    if cmds == [] then Initial else Step(Run(cmds[..|cmds| - 1]), cmds[|cmds| - 1])
  }

  /** Restart returns every state to exactly the state at creation. */
  lemma RestartIsCreation(s: State)
    ensures Step(s, Restart) == Initial
  {
  }

  /** Some Analyze in the sequence has no Restart after it. */
  ghost predicate AnalysisStands(cmds: seq<Command>) {
    exists i :: 0 <= i < |cmds| && cmds[i] == Analyze && forall j :: i < j < |cmds| ==> cmds[j] != Restart
  }

  /**
    Save is enabled only by an analysis and disabled only by Restart, so the
    graphs are shown exactly after an analysis that no Restart has followed.
  */
  lemma {:induction false} GraphsShownIffAnalysisStands(cmds: seq<Command>)
    ensures GraphsShown(Run(cmds)) <==> AnalysisStands(cmds)
  {
    if cmds != [] {
      var n := |cmds| - 1;
      var prefix := cmds[..n];
      GraphsShownIffAnalysisStands(prefix);
      if cmds[n] == Analyze {
        assert AnalysisStands(cmds);
      } else if cmds[n] == Restart {
        forall i | 0 <= i < |cmds| && cmds[i] == Analyze
          ensures i < n && cmds[n] == Restart
        {
        }
      } else {
        if AnalysisStands(prefix) {
          var i :| 0 <= i < |prefix| && prefix[i] == Analyze && forall j :: i < j < |prefix| ==> prefix[j] != Restart;
          assert cmds[i] == Analyze;
          assert forall j :: i < j < |cmds| ==> cmds[j] != Restart;
        }
        if AnalysisStands(cmds) {
          var i :| 0 <= i < |cmds| && cmds[i] == Analyze && forall j :: i < j < |cmds| ==> cmds[j] != Restart;
          assert i < n;
          assert prefix[i] == Analyze;
          assert AnalysisStands(prefix);
        }
      }
    }
  }

  /**
    A click reaches WM_COMMAND only from an enabled button (Windows sends no
    input to a disabled window).
  */
  function Click(s: State, c: Command): State {
    var id := match c
      case Upload(_) => UPLOAD_ID
      case Analyze => ANALYZE_ID
      case Save => SAVE_ID
      case Restart => RESTART_ID
      case FetchLocation => FETCH_LOCATION_ID
      case Tag => TAG_ID
      case Other(n) => n;
    if IsEnabled(s, id) then Step(s, c) else s
  }

  /** The file-open dialog, when it succeeds, returns a non-empty path. */
  predicate DialogPathValid(c: Command) {
    c.Upload? && c.picked.Some? ==> c.picked.value != ""
  }

  /**
    The flags the window keeps consistent: Save and Restart go together,
    both imply that Analyze and Tag are enabled, and Analyze implies that an
    image has been chosen.
  */
  predicate Consistent(s: State) {
    && s.save == s.restart
    && (s.save ==> s.analyze && s.tag)
    && (s.analyze ==> s.imagePath != "")
  }

  /** Clicking enabled buttons keeps the flags consistent. */
  lemma ClickKeepsConsistent(s: State, c: Command)
    requires Consistent(s) && DialogPathValid(c)
    ensures Consistent(Click(s, c))
  {
  }

  /** Without the platform's rule for disabled windows, Analyze alone would enable Save with no image. */
  lemma AnalyzeHandlerAloneIsUnguarded()
    ensures Step(Initial, Analyze).save && !Consistent(Step(Initial, Analyze))
  {
  }
}
