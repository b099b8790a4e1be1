/**
  The regions returned by the three-way merge and their flattening into the
  lines the conflict viewer shows, with conflict markers inserted
  (the `forEach` in `detectConflict`), and the "has conflict" flag computed
  over the flattened lines.
 */
module Regions {
  import opened Text

  /** One region of the merge result: lines both sides agree on, or a conflict
      carrying the local slice `a`, the base slice `o` and the remote slice `b`. */
  datatype MergeRegion =
    | Ok(lines: seq<string>)
    | Conflict(a: seq<string>, o: seq<string>, b: seq<string>)

  const ConflictPrefix: string := "<<<<<<<"
  const LocalMarker: string := "<<<<<<< LOCAL"
  const Separator: string := "======="
  const RemoteMarker: string := ">>>>>>> REMOTE"

  /** The lines one region adds to the merged output. */
  function Contribution(region: MergeRegion): seq<string>
  {
    match region
    case Ok(lines) => lines
    case Conflict(a, _, b) => [LocalMarker] + a + [Separator] + b + [RemoteMarker]
  }

  /** How many lines a region adds, counted without building them. */
  function LineCount(region: MergeRegion): nat
  {
    match region
    case Ok(lines) => |lines|
    case Conflict(a, _, b) => |a| + |b| + 3
  }

  function TotalLineCount(regions: seq<MergeRegion>): nat
  {
    if regions == [] then 0
    else LineCount(regions[0]) + TotalLineCount(regions[1..])
  }

  /** `parts[0] + parts[1] + ...`: what repeated `push(...part)` builds. */
  function Concat<T>(parts: seq<seq<T>>): seq<T>
  {
    if parts == [] then [] else parts[0] + Concat(parts[1..])
  }

  lemma {:induction false} ConcatAppend<T>(xs: seq<seq<T>>, ys: seq<seq<T>>)
    ensures Concat(xs + ys) == Concat(xs) + Concat(ys)
  {
    if xs == [] {
      assert xs + ys == ys;
    } else {
      var zs := xs + ys;
      assert zs[1..] == xs[1..] + ys;
      ConcatAppend(xs[1..], ys);
      calc {
        Concat(zs);
        zs[0] + Concat(zs[1..]);
        xs[0] + (Concat(xs[1..]) + Concat(ys));
        (xs[0] + Concat(xs[1..])) + Concat(ys);
      }
    }
  }

  function Contributions(regions: seq<MergeRegion>): (parts: seq<seq<string>>)
    ensures |parts| == |regions|
    ensures forall i :: 0 <= i < |regions| ==> parts[i] == Contribution(regions[i])
  {
    seq(|regions|, i requires 0 <= i < |regions| => Contribution(regions[i]))
  }

  /** The merged lines: each region's contribution, in region order. */
  function Flatten(regions: seq<MergeRegion>): seq<string>
  {
    Concat(Contributions(regions))
  }

  /** The loop of `detectConflict` that pushes every region's lines onto `merged`. */
  method FlattenRegions(regions: seq<MergeRegion>) returns (merged: seq<string>)
    ensures merged == Flatten(regions)
  {
    merged := [];
    var i := 0;
    while i < |regions|
      invariant 0 <= i <= |regions|
      invariant merged == Flatten(regions[..i])
    {
      var part := regions[i];
      ghost var before := merged;
      match part {
        case Ok(lines) =>
          merged := merged + lines;
        case Conflict(a, _, b) =>
          merged := merged + [LocalMarker];
          merged := merged + a;
          merged := merged + [Separator];
          merged := merged + b;
          merged := merged + [RemoteMarker];
          assert merged == before + ([LocalMarker] + a + [Separator] + b + [RemoteMarker]);
      }
      assert merged == before + Contribution(part);
      FlattenPush(regions[..i], part);
      assert regions[..i] + [part] == regions[..i + 1];
      i := i + 1;
    }
    assert regions[..|regions|] == regions;
  }

  /** A conflict region is laid out as marker, local lines, separator, remote
      lines, marker; the base slice does not appear. */
  lemma ConflictLayout(a: seq<string>, o: seq<string>, b: seq<string>)
    ensures var c := Contribution(Conflict(a, o, b));
      && |c| == |a| + |b| + 3
      && c[0] == LocalMarker
      && c[1..|a| + 1] == a
      && c[|a| + 1] == Separator
      && c[|a| + 2..|a| + |b| + 2] == b
      && c[|a| + |b| + 2] == RemoteMarker
  {
  }

  /** Flattening distributes over concatenation of region lists. */
  lemma FlattenAppend(xs: seq<MergeRegion>, ys: seq<MergeRegion>)
    ensures Flatten(xs + ys) == Flatten(xs) + Flatten(ys)
  {
    assert Contributions(xs + ys) == Contributions(xs) + Contributions(ys);
    ConcatAppend(Contributions(xs), Contributions(ys));
  }

  /** Pushing one more region adds exactly its contribution at the end. */
  lemma FlattenPush(regions: seq<MergeRegion>, region: MergeRegion)
    ensures Flatten(regions + [region]) == Flatten(regions) + Contribution(region)
  {
    FlattenAppend(regions, [region]);
    assert Contributions([region]) == [Contribution(region)];
    assert Concat([Contribution(region)]) == Contribution(region) + Concat<string>([]);
  }

  /** Region `k` contributes exactly its lines, right after the lines of the
      regions before it and right before those of the regions after it. */
  lemma FlattenAt(regions: seq<MergeRegion>, k: nat)
    requires k < |regions|
    ensures Flatten(regions) == Flatten(regions[..k]) + Contribution(regions[k]) + Flatten(regions[k + 1..])
  {
    assert regions == regions[..k] + [regions[k]] + regions[k + 1..];
    FlattenAppend(regions[..k] + [regions[k]], regions[k + 1..]);
    FlattenPush(regions[..k], regions[k]);
  }

  /** The merged output has as many lines as the regions contribute. */
  lemma {:induction false} FlattenLength(regions: seq<MergeRegion>)
    ensures |Flatten(regions)| == TotalLineCount(regions)
  {
    if regions != [] {
      FlattenAt(regions, 0);
      FlattenLength(regions[1..]);
    }
  }

  /** The base slice of a conflict never reaches the output: replacing it
      leaves the merged lines unchanged. */
  lemma BaseSliceNotEmitted(regions: seq<MergeRegion>, k: nat, o': seq<string>)
    requires k < |regions| && regions[k].Conflict?
    ensures Flatten(regions[k := Conflict(regions[k].a, o', regions[k].b)]) == Flatten(regions)
  {
    var changed := regions[k := Conflict(regions[k].a, o', regions[k].b)];
    FlattenAt(regions, k);
    FlattenAt(changed, k);
    assert changed[..k] == regions[..k];
    assert changed[k + 1..] == regions[k + 1..];
  }

  /** The "has conflict" flag: some merged line starts with `<<<<<<<`. */
  predicate HasConflictMarker(lines: seq<string>)
  {
    AnyStartsWith(lines, ConflictPrefix)
  }

  /** A region sets the flag when it is a conflict, or when one of its
      agreed lines happens to start with `<<<<<<<`. */
  predicate RaisesFlag(region: MergeRegion)
  {
    region.Conflict? || (region.Ok? && HasConflictMarker(region.lines))
  }

  lemma ContributionRaisesFlag(region: MergeRegion)
    ensures HasConflictMarker(Contribution(region)) <==> RaisesFlag(region)
  {
    if region.Conflict? {
      assert StartsWith(Contribution(region)[0], ConflictPrefix);
    }
  }

  /** The flag is set exactly when some region raises it. */
  lemma {:induction false} HasConflictIff(regions: seq<MergeRegion>)
    ensures HasConflictMarker(Flatten(regions)) <==> exists k :: 0 <= k < |regions| && RaisesFlag(regions[k])
  {
    if regions != [] {
      var rest := regions[1..];
      FlattenAt(regions, 0);
      assert regions[..0] == [];
      assert Flatten(regions) == Contribution(regions[0]) + Flatten(rest);
      HasConflictIff(rest);
      AnyStartsWithAppend(Contribution(regions[0]), Flatten(rest), ConflictPrefix);
      ContributionRaisesFlag(regions[0]);
      assert forall k :: 1 <= k < |regions| ==> rest[k - 1] == regions[k];
    }
  }

  /** Any conflict region sets the flag. */
  lemma ConflictRaisesFlag(regions: seq<MergeRegion>, k: nat)
    requires k < |regions| && regions[k].Conflict?
    ensures HasConflictMarker(Flatten(regions))
  {
    HasConflictIff(regions);
    assert RaisesFlag(regions[k]);
  }

  /** The flag can be set without any conflict region: an agreed line that
      itself starts with `<<<<<<<` is enough. */
  lemma FlagWithoutConflictRegion()
    ensures var regions := [Ok(["<<<<<<< HEAD"])];
      && HasConflictMarker(Flatten(regions))
      && forall k :: 0 <= k < |regions| ==> !regions[k].Conflict?
  {
    var regions := [Ok(["<<<<<<< HEAD"])];
    FlattenPush([], regions[0]);
    HasConflictIff(regions);
    assert StartsWith("<<<<<<< HEAD", ConflictPrefix);
    assert RaisesFlag(regions[0]);
  }

  /** With no region raising the flag, it stays clear. */
  lemma NoFlagWithoutMarkers(regions: seq<MergeRegion>)
    requires forall k :: 0 <= k < |regions| ==> regions[k].Ok? && !HasConflictMarker(regions[k].lines)
    ensures !HasConflictMarker(Flatten(regions))
  {
    HasConflictIff(regions);
  }

  /** Flattening one stable line, a one-line conflict and another stable line. */
  lemma SingleConflictExample()
    ensures Flatten([Ok(["a"]), Conflict(["X"], ["b"], ["Y"]), Ok(["c"])])
         == ["a", LocalMarker, "X", Separator, "Y", RemoteMarker, "c"]
  {
    var regions := [Ok(["a"]), Conflict(["X"], ["b"], ["Y"]), Ok(["c"])];
    FlattenPush([], regions[0]);
    FlattenPush(regions[..1], regions[1]);
    FlattenPush(regions[..2], regions[2]);
    assert regions[..1] + [regions[1]] == regions[..2];
    assert regions[..2] + [regions[2]] == regions;
  }
}
