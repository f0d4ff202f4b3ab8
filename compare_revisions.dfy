/** The "compare revisions" action of a folder's history in the VCS log:
    when it applies, how its presentation (visible, enabled, text,
    description) is set from the data of the action event, and which diff it
    opens. Loading commit details, the dialogs and usage statistics are not
    modelled. */
module CompareRevisions {
  import opened Text

  const CompareText: string := "Compare"
  const CompareDescription: string := "Compare selected versions"
  const DiffText: string := "Show Diff"
  const DiffDescription: string := "Show diff with previous version"

  datatype FilePath = FilePath(path: string, isDirectory: bool)

  /** A selected commit: its hash and the VCS root it belongs to. */
  datatype CommitId = CommitId(hash: string, root: string)

  /** The data an action event offers: whether a file-history UI, a project,
      log data and a diff handler are there, the file path, the VCS log with
      its selected commits (newest first), and whether a key press fired it. */
  datatype ActionEvent = ActionEvent(
    hasFileHistoryUi: bool,
    filePath: Option<FilePath>,
    hasProject: bool,
    hasLogData: bool,
    selectedCommits: Option<seq<CommitId>>,
    isKeyEvent: bool,
    hasDiffHandler: bool)

  /** `isActive(e)`: the action belongs to the history of a directory. */
  function IsActive(e: ActionEvent): (r: bool)
    ensures r <==> e.hasFileHistoryUi && e.filePath.Some? && e.filePath.value.isDirectory
  {
    if !e.hasFileHistoryUi then false
    else match e.filePath
      case None => false
      case Some(path) => path.isDirectory
  }

  /** The log, the project, the log data and the file path are all there. */
  predicate HasData(e: ActionEvent) {
    e.selectedCommits.Some? && e.hasProject && e.hasLogData && e.filePath.Some?
  }

  datatype PresentationState = PresentationState(visible: bool, enabled: bool, text: string, description: string)

  /** The presentation after `update(e)`, written as the source's sequence
      of assignments, each overriding the ones before it. */
  function UpdatedState(e: ActionEvent, before: PresentationState): (r: PresentationState)
    ensures !HasData(e) ==> r == before.(visible := false, enabled := false)
    ensures HasData(e) && |e.selectedCommits.value| >= 2 ==>
              r.text == CompareText && r.description == CompareDescription
    ensures HasData(e) && |e.selectedCommits.value| < 2 ==>
              r.text == DiffText && r.description == DiffDescription
    ensures HasData(e) && e.isKeyEvent ==> r.visible && r.enabled
    ensures HasData(e) && !e.isKeyEvent && |e.selectedCommits.value| >= 2 ==>
              r.visible == e.hasDiffHandler && r.enabled == e.hasDiffHandler
    ensures HasData(e) && !e.isKeyEvent && |e.selectedCommits.value| < 2 ==>
              r.visible && (r.enabled <==> |e.selectedCommits.value| > 0)
  {
    if !HasData(e) then before.(visible := false, enabled := false)
    else
      var commits := e.selectedCommits.value;
      var s0 := if |commits| >= 2 then before.(text := CompareText, description := CompareDescription)
                else before.(text := DiffText, description := DiffDescription);
      var s1 := s0.(visible := true);
      if e.isKeyEvent then s1.(enabled := true)
      else if |commits| >= 2 then s1.(visible := e.hasDiffHandler, enabled := e.hasDiffHandler)
      else s1.(enabled := |commits| > 0)
  }

  /** `e.presentation`. */
  class Presentation {
    var visible: bool
    var enabled: bool
    var text: string
    var description: string

    constructor (visible: bool, enabled: bool, text: string, description: string)
      ensures State() == PresentationState(visible, enabled, text, description)
    {
      this.visible := visible;
      this.enabled := enabled;
      this.text := text;
      this.description := description;
    }

    function State(): PresentationState
      reads this
    {
      PresentationState(visible, enabled, text, description)
    }
  }

  /** `updateActionText(e, log)`: the text and description say "compare"
      for two or more selected commits and "show diff" otherwise. */
  method UpdateActionText(p: Presentation, selectedCommits: seq<CommitId>)
    modifies p
    ensures |selectedCommits| >= 2 ==> p.text == CompareText && p.description == CompareDescription
    ensures |selectedCommits| < 2 ==> p.text == DiffText && p.description == DiffDescription
    ensures p.visible == old(p.visible) && p.enabled == old(p.enabled)
  {
    if |selectedCommits| >= 2 {
      p.text := CompareText;
      p.description := CompareDescription;
    } else {
      p.text := DiffText;
      p.description := DiffDescription;
    }
  }

  /** `update(e)`. */
  method Update(p: Presentation, e: ActionEvent)
    modifies p
    ensures p.State() == UpdatedState(e, old(p.State()))
  {
    if e.selectedCommits.None? || !e.hasProject || !e.hasLogData || e.filePath.None? {
      p.visible, p.enabled := false, false;
      return;
    }
    var commits := e.selectedCommits.value;
    UpdateActionText(p, commits);
    p.visible := true;
    if e.isKeyEvent {
      p.enabled := true;
      return;
    }
    if |commits| >= 2 {
      p.visible, p.enabled := e.hasDiffHandler, e.hasDiffHandler;
    } else {
      p.enabled := |commits| > 0;
    }
  }

  /** What `actionPerformed(e)` does: a diff of one path between two
      revisions, the changes of one commit, nothing when the selection is
      empty and no commit details arrive, or the failure of a required data
      lookup (`getRequiredData` or `!!`) before anything happens. */
  datatype Performed =
    | ShowDiff(root: string, beforePath: FilePath, beforeHash: string, afterPath: FilePath, afterHash: string)
    | ShowChanges(commit: CommitId, path: FilePath)
    | NoCommitDetails
    | RequiredDataMissing

  /** `actionPerformed(e)`. The project, log, log data and path are required
      data, and so is the diff handler when two or more commits are
      selected. With two or more, the second selected commit is the base
      and the first the target, on the same path. */
  function ActionPerformed(e: ActionEvent): (r: Performed)
    ensures r == RequiredDataMissing <==>
              !HasData(e) || (|e.selectedCommits.value| >= 2 && !e.hasDiffHandler)
    ensures r.ShowDiff? <==> HasData(e) && |e.selectedCommits.value| >= 2 && e.hasDiffHandler
    ensures r.ShowDiff? ==>
              var commits := e.selectedCommits.value;
              && r.root == commits[1].root
              && r.beforeHash == commits[1].hash && r.afterHash == commits[0].hash
              && r.beforePath == r.afterPath == e.filePath.value
    ensures r.ShowChanges? <==> HasData(e) && |e.selectedCommits.value| == 1
    ensures r.ShowChanges? ==> r.commit == e.selectedCommits.value[0] && r.path == e.filePath.value
  {
    if !HasData(e) then RequiredDataMissing
    else
      var commits := e.selectedCommits.value;
      var path := e.filePath.value;
      if |commits| >= 2 then
        if e.hasDiffHandler then ShowDiff(commits[1].root, path, commits[1].hash, path, commits[0].hash)
        else RequiredDataMissing
      else if |commits| == 1 then ShowChanges(commits[0], path)
      else NoCommitDetails
  }

  /** A key press makes the action visible and enabled whenever the data is
      there, before the diff handler is looked at: with two or more commits
      and no diff handler, an enabled action fails its required lookup. */
  lemma KeyPressEnablesWithoutHandler(e: ActionEvent, before: PresentationState)
    requires HasData(e) && e.isKeyEvent && |e.selectedCommits.value| >= 2 && !e.hasDiffHandler
    ensures UpdatedState(e, before).visible && UpdatedState(e, before).enabled
    ensures ActionPerformed(e) == RequiredDataMissing
  {
  }

  /** Without a key press, an enabled action never fails a required lookup:
      `update` checks every piece of data `actionPerformed` requires. */
  lemma EnabledWithoutKeyPressSucceeds(e: ActionEvent, before: PresentationState)
    requires !e.isKeyEvent && UpdatedState(e, before).enabled
    ensures ActionPerformed(e) != RequiredDataMissing
    ensures ActionPerformed(e) != NoCommitDetails
  {
  }
}
