/**
  The `App` component: its state fields, the operations that update them
  (loading the three texts, detecting conflicts, resolving, clearing), the
  conditions under which each result pane is shown, and the rows of the
  resolved pane.
 */
module App {
  import opened Wrappers
  import opened Text
  import opened Regions
  import opened Resolution
  import ConflictViewer

  /** The external three-way merge: local, base and remote lines in, regions out. */
  type Diff3 = (seq<string>, seq<string>, seq<string>) -> seq<MergeRegion>

  const LocalBackground: string := "bg-blue-300/30"
  const RemoteBackground: string := "bg-green-300/30"
  const ComplexBackground: string := "bg-yellow-200/30"

  /** The background of a resolved line, chosen by its provenance. */
  function BackgroundClass(source: Option<Source>): (c: string)
    ensures c == "" <==> source.None?
  {
    match source
    case Some(Local) => LocalBackground
    case Some(Remote) => RemoteBackground
    case Some(Complex) => ComplexBackground
    case None => ""
  }

  /** Different provenances get different backgrounds. */
  lemma BackgroundClassDistinct(s: Source, t: Source)
    ensures BackgroundClass(Some(s)) == BackgroundClass(Some(t)) <==> s == t
  {
  }

  /** `resolvedContent.map(...)`: one row per resolved line, in order. */
  function ResolvedRows(resolved: seq<ResolvedLine>): (rows: seq<ConflictViewer.Row>)
    ensures |rows| == |resolved|
    ensures ConflictViewer.RowTexts(rows) == LinesOf(resolved)
    ensures forall i :: 0 <= i < |rows| ==> rows[i].key == i && rows[i].className == BackgroundClass(resolved[i].source)
  {
    seq(|resolved|, i requires 0 <= i < |resolved| =>
      ConflictViewer.Row(i, BackgroundClass(resolved[i].source), resolved[i].line))
  }

  /** After an answer, the resolved pane shows the returned lines, every one
      of them on the same, non-empty background of the predicted provenance. */
  lemma ResolvedRowsUniform(response: Response)
    ensures var rows := ResolvedRows(ResolvedContent(response));
      && ConflictViewer.RowTexts(rows) == ResolvedCodeLines(response.resolvedCode)
      && forall i :: 0 <= i < |rows| ==>
           rows[i].className == BackgroundClass(Some(SourceOf(response.conflictType))) && rows[i].className != ""
  {
  }

  class AppState {
    var base: string
    var local: string
    var remote: string
    var conflictContent: seq<string>
    var hasConflict: bool
    var resolvedContent: seq<ResolvedLine>
    var conflictType: Option<string>
    var isResolving: bool

    /** The flag always describes the merged lines, and every resolved line
        carries the provenance of the stored label. */
    ghost predicate Valid()
      reads this
    {
      && hasConflict == HasConflictMarker(conflictContent)
      && forall i :: 0 <= i < |resolvedContent| ==> resolvedContent[i].source == Some(SourceOf(conflictType))
    }

    /** The initial values of the component's state. */
    constructor ()
      ensures Valid()
      ensures base == "" && local == "" && remote == ""
      ensures conflictContent == [] && !hasConflict
      ensures resolvedContent == [] && conflictType == None && !isResolving
    {
      base, local, remote := "", "", "";
      conflictContent, hasConflict := [], false;
      resolvedContent, conflictType, isResolving := [], None, false;
    }

    /** The merged view is shown while there are merged lines and no resolution. */
    predicate ShowsConflictViewer()
      reads this
    {
      |conflictContent| > 0 && |resolvedContent| == 0
    }

    /** The resolved view is shown once there is a resolution. */
    predicate ShowsResolvedPane()
      reads this
    {
      |resolvedContent| > 0
    }

    /** The predicted label is shown inside the resolved view when it is a non-empty string. */
    predicate ShowsPredictedLabel()
      reads this
    {
      ShowsResolvedPane() && conflictType.Some? && conflictType.value != ""
    }

    /** The resolve button of the merged view. */
    function ViewerButton(): Option<ConflictViewer.Button>
      reads this
    {
      ConflictViewer.ResolveButton(hasConflict, isResolving)
    }

    /** The resolve button actually on screen: the merged view's button, and
        only while the merged view itself is mounted. */
    function RenderedButton(): Option<ConflictViewer.Button>
      reads this
    {
      if ShowsConflictViewer() then ViewerButton() else None
    }

    /** The file input for the base version delivers its text. */
    method SetBase(text: string)
      requires Valid()
      modifies this`base
      ensures Valid() && base == text
    {
      base := text;
    }

    /** The file input for the local version delivers its text. */
    method SetLocal(text: string)
      requires Valid()
      modifies this`local
      ensures Valid() && local == text
    {
      local := text;
    }

    /** The file input for the remote version delivers its text. */
    method SetRemote(text: string)
      requires Valid()
      modifies this`remote
      ensures Valid() && remote == text
    {
      remote := text;
    }

    /** `detectConflict`: does nothing unless all three texts are non-empty;
        otherwise splits them into lines, merges, flattens the regions with
        conflict markers, sets the flag and drops any earlier resolution. */
    method DetectConflict(diff3: Diff3)
      requires Valid()
      modifies this`conflictContent, this`hasConflict, this`resolvedContent, this`conflictType
      ensures Valid()
      ensures base == "" || local == "" || remote == "" ==>
        && conflictContent == old(conflictContent) && hasConflict == old(hasConflict)
        && resolvedContent == old(resolvedContent) && conflictType == old(conflictType)
      ensures base != "" && local != "" && remote != "" ==>
        && conflictContent == Flatten(diff3(Split(local), Split(base), Split(remote)))
        && hasConflict == HasConflictMarker(conflictContent)
        && resolvedContent == [] && conflictType == None
        && !ShowsResolvedPane() && (ShowsConflictViewer() <==> |conflictContent| > 0)
    {
      if base == "" || local == "" || remote == "" {
        return;
      }
      var baseLines := Split(base);
      var localLines := Split(local);
      var remoteLines := Split(remote);
      var result := diff3(localLines, baseLines, remoteLines);
      var merged := FlattenRegions(result);
      conflictContent := merged;
      hasConflict := HasConflictMarker(merged);
      resolvedContent := [];
      conflictType := None;
    }

    /** A resolution request is sent: the button becomes disabled. */
    method StartResolving()
      requires Valid()
      modifies this`isResolving
      ensures Valid() && isResolving
    {
      isResolving := true;
    }

    /** The request ends: on an answer the label and the tagged lines are
        stored; in every case the component stops resolving. */
    method FinishResolving(outcome: Outcome)
      requires Valid()
      modifies this`conflictType, this`resolvedContent, this`isResolving
      ensures Valid() && !isResolving
      ensures outcome.Failed? ==>
        conflictType == old(conflictType) && resolvedContent == old(resolvedContent)
      ensures outcome.Received? ==>
        && conflictType == outcome.data.conflictType
        && resolvedContent == ResolvedContent(outcome.data)
        && ShowsResolvedPane() && !ShowsConflictViewer() && RenderedButton().None?
    {
      match outcome {
        case Failed =>
        case Received(data) =>
          var lines := ResolvedCodeLines(data.resolvedCode);
          var source := SourceOf(data.conflictType);
          conflictType := data.conflictType;
          resolvedContent := TagLines(lines, source);
      }
      isResolving := false;
    }

    /** `clearInputs`: every text, list, flag and label back to its initial value. */
    method ClearInputs()
      requires Valid()
      modifies this`base, this`local, this`remote, this`conflictContent,
               this`resolvedContent, this`hasConflict, this`conflictType
      ensures Valid()
      ensures base == "" && local == "" && remote == ""
      ensures conflictContent == [] && resolvedContent == [] && !hasConflict && conflictType == None
      ensures !ShowsConflictViewer() && !ShowsResolvedPane()
    {
      base, local, remote := "", "", "";
      conflictContent := [];
      resolvedContent := [];
      hasConflict := false;
      conflictType := None;
    }
  }

  /** The merged view and the resolved view are never shown together. */
  lemma PanesExclusive(app: AppState)
    ensures !(app.ShowsConflictViewer() && app.ShowsResolvedPane())
  {
  }

  /** In a valid state the resolve button is on screen exactly when no
      resolution is shown and some merged line starts with `<<<<<<<`, and it
      is disabled exactly while resolving. */
  lemma ButtonFollowsMarkers(app: AppState)
    requires app.Valid()
    ensures app.RenderedButton().Some? <==>
      |app.resolvedContent| == 0 &&
      exists i :: 0 <= i < |app.conflictContent| && StartsWith(app.conflictContent[i], ConflictPrefix)
    ensures app.RenderedButton().Some? ==> (app.RenderedButton().value.disabled <==> app.isResolving)
  {
  }
}
