/**
  The conflict viewer: the highlight class of each merged line, one row per
  merged line, and the "Resolve Conflict" button.
 */
module ConflictViewer {
  import opened Wrappers
  import opened Text
  import Regions

  const OpenPrefix: string := "<<<<<<<"
  const SeparatorPrefix: string := "======="
  const ClosePrefix: string := ">>>>>>>"

  const MarkerClass: string := "bg-red-700 font-bold text-white"
  const SeparatorClass: string := "bg-red-600 text-white"

  /** The three prefixes begin with different characters, so a line starts
      with at most one of them. */
  lemma PrefixesExclusive(line: string)
    ensures !(StartsWith(line, OpenPrefix) && StartsWith(line, SeparatorPrefix))
    ensures !(StartsWith(line, OpenPrefix) && StartsWith(line, ClosePrefix))
    ensures !(StartsWith(line, SeparatorPrefix) && StartsWith(line, ClosePrefix))
  {
    if StartsWith(line, OpenPrefix) {
      assert line[0] == line[..|OpenPrefix|][0] == '<';
    }
    if StartsWith(line, SeparatorPrefix) {
      assert line[0] == line[..|SeparatorPrefix|][0] == '=';
    }
  }

  /** `getLineClass`: the highlight of a merged line, chosen by its prefix. */
  function LineClass(line: string): (c: string)
    ensures StartsWith(line, OpenPrefix) ==> c == MarkerClass
    ensures StartsWith(line, SeparatorPrefix) ==> c == SeparatorClass
    ensures StartsWith(line, ClosePrefix) ==> c == MarkerClass
    ensures c == "" <==>
      !StartsWith(line, OpenPrefix) && !StartsWith(line, SeparatorPrefix) && !StartsWith(line, ClosePrefix)
  {
    PrefixesExclusive(line);
    if StartsWith(line, OpenPrefix) then MarkerClass
    else if StartsWith(line, SeparatorPrefix) then SeparatorClass
    else if StartsWith(line, ClosePrefix) then MarkerClass
    else ""
  }

  /** The same classifier with its three tests in the opposite order. */
  function LineClassReversed(line: string): string
  {
    if StartsWith(line, ClosePrefix) then MarkerClass
    else if StartsWith(line, SeparatorPrefix) then SeparatorClass
    else if StartsWith(line, OpenPrefix) then MarkerClass
    else ""
  }

  /** The order of the tests in `getLineClass` does not matter. */
  lemma CheckOrderIrrelevant(line: string)
    ensures LineClass(line) == LineClassReversed(line)
  {
    PrefixesExclusive(line);
  }

  /** The marker lines the merge inserts are all highlighted. */
  lemma MarkerLinesHighlighted()
    ensures LineClass(Regions.LocalMarker) == MarkerClass
    ensures LineClass(Regions.Separator) == SeparatorClass
    ensures LineClass(Regions.RemoteMarker) == MarkerClass
  {
    assert StartsWith(Regions.LocalMarker, OpenPrefix);
    assert StartsWith(Regions.Separator, SeparatorPrefix);
    assert StartsWith(Regions.RemoteMarker, ClosePrefix);
  }

  /** One rendered `<div>`: its key, its class and its text. */
  datatype Row = Row(key: nat, className: string, text: string)

  function RowTexts(rows: seq<Row>): (texts: seq<string>)
    ensures |texts| == |rows|
    ensures forall i :: 0 <= i < |rows| ==> texts[i] == rows[i].text
  {
    seq(|rows|, i requires 0 <= i < |rows| => rows[i].text)
  }

  /** `mergedContent.map(...)`: one row per merged line, in order. */
  function Rows(mergedContent: seq<string>): (rows: seq<Row>)
    ensures |rows| == |mergedContent|
    ensures forall i :: 0 <= i < |rows| ==> rows[i].key == i && rows[i].className == LineClass(rows[i].text)
    ensures RowTexts(rows) == mergedContent
  {
    seq(|mergedContent|, i requires 0 <= i < |mergedContent| => Row(i, LineClass(mergedContent[i]), mergedContent[i]))
  }

  /** In the rows of a flattened merge, the three marker rows of every conflict
      region are highlighted, at the positions the region occupies. */
  lemma ConflictRowsHighlighted(regions: seq<Regions.MergeRegion>, k: nat)
    requires k < |regions| && regions[k].Conflict?
    ensures var rows := Rows(Regions.Flatten(regions));
      var start := |Regions.Flatten(regions[..k])|;
      var a, b := regions[k].a, regions[k].b;
      && start + |a| + |b| + 2 < |rows|
      && rows[start] == Row(start, MarkerClass, Regions.LocalMarker)
      && rows[start + |a| + 1] == Row(start + |a| + 1, SeparatorClass, Regions.Separator)
      && rows[start + |a| + |b| + 2] == Row(start + |a| + |b| + 2, MarkerClass, Regions.RemoteMarker)
  {
    var merged := Regions.Flatten(regions);
    var start := |Regions.Flatten(regions[..k])|;
    var a, b := regions[k].a, regions[k].b;
    Regions.FlattenAt(regions, k);
    Regions.ConflictLayout(a, regions[k].o, b);
    var c := Regions.Contribution(regions[k]);
    assert merged[start] == c[0];
    assert merged[start + |a| + 1] == c[|a| + 1];
    assert merged[start + |a| + |b| + 2] == c[|a| + |b| + 2];
    MarkerLinesHighlighted();
    var rows := Rows(merged);
    assert RowTexts(rows) == merged;
    assert rows[start].text == merged[start];
    assert rows[start + |a| + 1].text == merged[start + |a| + 1];
    assert rows[start + |a| + |b| + 2].text == merged[start + |a| + |b| + 2];
  }

  /** The "Resolve Conflict" button: whether it is disabled, and its colour. */
  datatype Button = Button(disabled: bool, colour: string)

  const BusyColour: string := "bg-gray-500"
  const IdleColour: string := "bg-blue-600 hover:bg-blue-700"

  /** The button exists only when the merge has a conflict, and is disabled
      (and greyed out) exactly while a resolution is in flight. */
  function ResolveButton(hasConflict: bool, isResolving: bool): (button: Option<Button>)
    ensures button.Some? <==> hasConflict
    ensures button.Some? ==> (button.value.disabled <==> isResolving)
    ensures button.Some? ==> (button.value.colour == BusyColour <==> isResolving)
  {
    if hasConflict then Some(Button(isResolving, if isResolving then BusyColour else IdleColour))
    else None
  }
}
