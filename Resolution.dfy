/**
  What `resolveConflict` does with a successful answer of the resolution
  service: map the predicted label to a provenance tag, split the returned
  code into lines (or use a placeholder when no code came back), and tag every
  line with that provenance.
 */
module Resolution {
  import opened Wrappers
  import opened Text

  /** Which side a resolved line is attributed to. */
  datatype Source = Local | Remote | Complex

  /** A resolved line; the provenance is optional in the component's type. */
  datatype ResolvedLine = ResolvedLine(line: string, source: Option<Source>)

  /** The two fields of the service's JSON answer that are read; `None`
      stands for a field that is `null` or absent. */
  datatype Response = Response(conflictType: Option<string>, resolvedCode: Option<string>)

  /** How the request ended: an error status or a thrown error, or an answer. */
  datatype Outcome = Failed | Received(data: Response)

  const NoCodePlaceholder: string := "[No resolved code returned]"

  /** Label `A` is local, `B` is remote, anything else (including no label) is complex. */
  function SourceOf(prediction: Option<string>): (source: Source)
    ensures source == Local <==> prediction == Some("A")
    ensures source == Remote <==> prediction == Some("B")
    ensures source == Complex <==> prediction != Some("A") && prediction != Some("B")
  {
    if prediction == Some("A") then Local
    else if prediction == Some("B") then Remote
    else Complex
  }

  /** `data.resolved_code?.split('\n') || ['[No resolved code returned]']`. */
  function ResolvedCodeLines(code: Option<string>): (lines: seq<string>)
    ensures |lines| >= 1
    ensures code.None? ==> lines == [NoCodePlaceholder]
    ensures code.Some? ==> Join(lines) == code.value
    ensures code.Some? ==> |lines| == multiset(code.value)[NewLine] + 1
    ensures code.Some? ==> forall i :: 0 <= i < |lines| ==> NewLine !in lines[i]
  {
    match code
    case None => [NoCodePlaceholder]
    case Some(text) =>
      JoinSplit(text);
      SplitCount(text);
      Split(text)
  }

  function LinesOf(resolved: seq<ResolvedLine>): (lines: seq<string>)
    ensures |lines| == |resolved|
    ensures forall i :: 0 <= i < |resolved| ==> lines[i] == resolved[i].line
  {
    seq(|resolved|, i requires 0 <= i < |resolved| => resolved[i].line)
  }

  /** `lines.map(line => ({ line, source }))`. */
  function TagLines(lines: seq<string>, source: Source): (tagged: seq<ResolvedLine>)
    ensures LinesOf(tagged) == lines
    ensures forall i :: 0 <= i < |tagged| ==> tagged[i].source == Some(source)
  {
    seq(|lines|, i requires 0 <= i < |lines| => ResolvedLine(lines[i], Some(source)))
  }

  /** The resolved content stored after an answer: never empty, every line
      tagged with the provenance of the label, the lines those of the code. */
  function ResolvedContent(response: Response): (content: seq<ResolvedLine>)
    ensures |content| >= 1
    ensures forall i :: 0 <= i < |content| ==> content[i].source == Some(SourceOf(response.conflictType))
    ensures LinesOf(content) == ResolvedCodeLines(response.resolvedCode)
  {
    TagLines(ResolvedCodeLines(response.resolvedCode), SourceOf(response.conflictType))
  }

  /** The resolved lines, joined back with newlines, are exactly the returned code. */
  lemma ResolvedTextRoundTrip(response: Response)
    requires response.resolvedCode.Some?
    ensures Join(LinesOf(ResolvedContent(response))) == response.resolvedCode.value
  {
  }

  /** No code at all gives the single placeholder line. */
  lemma MissingCodeGivesPlaceholder(prediction: Option<string>)
    ensures ResolvedContent(Response(prediction, None)) == [ResolvedLine(NoCodePlaceholder, Some(SourceOf(prediction)))]
  {
    var content := ResolvedContent(Response(prediction, None));
    assert LinesOf(content)[0] == NoCodePlaceholder;
  }

  /** An empty code string is not missing: it gives one empty line. */
  lemma EmptyCodeGivesEmptyLine(prediction: Option<string>)
    ensures ResolvedContent(Response(prediction, Some(""))) == [ResolvedLine("", Some(SourceOf(prediction)))]
  {
    var content := ResolvedContent(Response(prediction, Some("")));
    SplitEmpty();
    assert LinesOf(content)[0] == "";
  }
}
