/**
  The JavaScript string and array primitives the front end relies on:
  `startsWith`, `Array.prototype.some` over `startsWith`, and `split('\n')`.
  `Join` is the inverse of `Split`; the front end never calls it, it is the
  reference against which `Split` is proved.
 */
module Text {

  const NewLine: char := '\n'

  /** `s.startsWith(prefix)`. */
  predicate StartsWith(s: string, prefix: string)
  {
    |prefix| <= |s| && s[..|prefix|] == prefix
  }

  /** `lines.some(line => line.startsWith(prefix))`. */
  function AnyStartsWith(lines: seq<string>, prefix: string): (r: bool)
    ensures r <==> exists i :: 0 <= i < |lines| && StartsWith(lines[i], prefix)
  {
    if lines == [] then false
    else if StartsWith(lines[0], prefix) then true
    else
      var rest := AnyStartsWith(lines[1..], prefix);
      assert forall i :: 1 <= i < |lines| ==> lines[i] == lines[1..][i - 1];
      rest
  }

  /** `some` over a concatenation is the disjunction of `some` over the parts. */
  lemma AnyStartsWithAppend(xs: seq<string>, ys: seq<string>, prefix: string)
    ensures AnyStartsWith(xs + ys, prefix) <==> AnyStartsWith(xs, prefix) || AnyStartsWith(ys, prefix)
  {
    var zs := xs + ys;
    if AnyStartsWith(zs, prefix) {
      var i :| 0 <= i < |zs| && StartsWith(zs[i], prefix);
      if i >= |xs| {
        assert ys[i - |xs|] == zs[i];
      }
    }
    if AnyStartsWith(xs, prefix) {
      var i :| 0 <= i < |xs| && StartsWith(xs[i], prefix);
      assert zs[i] == xs[i];
    }
    if AnyStartsWith(ys, prefix) {
      var j :| 0 <= j < |ys| && StartsWith(ys[j], prefix);
      assert zs[|xs| + j] == ys[j];
    }
  }

  /**
    `s.split('\n')`: the pieces between newline characters, keeping empty
    pieces, so that the empty text and a trailing newline both give an empty
    last piece.
   */
  function Split(s: string): (pieces: seq<string>)
    ensures |pieces| >= 1
    ensures forall i :: 0 <= i < |pieces| ==> NewLine !in pieces[i]
    decreases |s|
  {
    if s == [] then [""]
    else
      var rest := Split(s[1..]);
      if s[0] == NewLine then [""] + rest
      else [[s[0]] + rest[0]] + rest[1..]
  }

  /** `pieces.join('\n')`. */
  function Join(pieces: seq<string>): string
  {
    if pieces == [] then ""
    else if |pieces| == 1 then pieces[0]
    else pieces[0] + [NewLine] + Join(pieces[1..])
  }

  /** The empty text splits into one empty line. */
  lemma SplitEmpty()
    ensures Split("") == [""]
  {
  }

  /** There is one piece more than there are newline characters. */
  lemma {:induction false} SplitCount(s: string)
    ensures |Split(s)| == multiset(s)[NewLine] + 1
    decreases |s|
  {
    if s != [] {
      SplitCount(s[1..]);
      assert s == [s[0]] + s[1..];
      assert multiset(s) == multiset{s[0]} + multiset(s[1..]);
    }
  }

  /** Joining the pieces with newlines gives back the text. */
  lemma {:induction false} JoinSplit(s: string)
    ensures Join(Split(s)) == s
    decreases |s|
  {
    if s != [] {
      var rest := Split(s[1..]);
      JoinSplit(s[1..]);
      if s[0] == NewLine {
        assert Split(s) == [""] + rest;
        assert (Split(s))[1..] == rest;
      } else if |rest| == 1 {
        assert Split(s) == [[s[0]] + rest[0]];
      } else {
        var pieces := Split(s);
        assert pieces[1..] == rest[1..];
        calc {
          Join(pieces);
          ([s[0]] + rest[0]) + [NewLine] + Join(rest[1..]);
          [s[0]] + (rest[0] + [NewLine] + Join(rest[1..]));
          [s[0]] + Join(rest);
          [s[0]] + s[1..];
          s;
        }
      }
    }
  }

  /** A text without newlines is a single piece. */
  lemma {:induction false} SplitSingleLine(p: string)
    requires NewLine !in p
    ensures Split(p) == [p]
    decreases |p|
  {
    if p != [] {
      SplitSingleLine(p[1..]);
      assert [p[0]] + p[1..] == p;
    }
  }

  /** A first piece followed by a newline splits off as that piece. */
  lemma {:induction false} SplitFirstPiece(p: string, t: string)
    requires NewLine !in p
    ensures Split(p + [NewLine] + t) == [p] + Split(t)
    decreases |p|
  {
    var s := p + [NewLine] + t;
    if p == [] {
      assert s[1..] == t;
    } else {
      assert s[1..] == p[1..] + [NewLine] + t;
      SplitFirstPiece(p[1..], t);
      assert [p[0]] + p[1..] == p;
    }
  }

  /** Splitting the join of newline-free pieces gives back the pieces. */
  lemma {:induction false} SplitJoin(pieces: seq<string>)
    requires |pieces| >= 1
    requires forall i :: 0 <= i < |pieces| ==> NewLine !in pieces[i]
    ensures Split(Join(pieces)) == pieces
  {
    if |pieces| == 1 {
      SplitSingleLine(pieces[0]);
    } else {
      SplitJoin(pieces[1..]);
      SplitFirstPiece(pieces[0], Join(pieces[1..]));
      assert [pieces[0]] + pieces[1..] == pieces;
    }
  }
}
