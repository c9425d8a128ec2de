/** The array split action: a text cut at a delimiter into its non-empty pieces, optionally
    trimmed and with pieces that trim to nothing removed. */
module ArraySplit {
  import opened Wrappers
  import opened Text
  import opened Js
  import opened ArrayJoin
  import opened Seqs

  const NotAString := "Value is not a string"

  /** The delimiter parameter: a comma when absent, otherwise its text. */
  function Delimiter(delimiter: Value): string {
    if delimiter.Undef? then "," else ToStr(delimiter)
  }

  /** What the `forEach` keeps of one split piece: nothing of an empty piece; otherwise the
      piece, trimmed when `trim` is set, unless `removeEmpty` is set and it trimmed to nothing. */
  function KeptPiece(piece: string, trim: bool, removeEmpty: bool): (r: seq<string>)
    ensures |r| <= 1
  {
    if piece == [] then []
    else
      var kept := if trim then Trim(piece) else piece;
      if removeEmpty && kept == [] then [] else [kept]
  }

  /** What the `forEach` keeps of all the pieces, in order. */
  function KeepPieces(pieces: seq<string>, trim: bool, removeEmpty: bool): (r: seq<string>)
    ensures |r| <= |pieces|
  {
    if pieces == [] then [] else KeptPiece(pieces[0], trim, removeEmpty) + KeepPieces(pieces[1..], trim, removeEmpty)
  }

  /** The specification of the action. */
  function SplitResult(value: Value, delimiter: Value, trim: bool, removeEmpty: bool): (r: Result<seq<string>>)
    ensures r.Err? <==> !value.Str?
  {
    if !value.Str? then Err(NotAString)
    else Ok(KeepPieces(Split(value.s, Delimiter(delimiter)), trim, removeEmpty))
  }

  /** `arraySplit({value, delimiter, trim, removeEmpty})`: the pieces are visited in order and
      the kept ones pushed onto the result. */
  method SplitValue(value: Value, delimiter: Value, trim: bool, removeEmpty: bool) returns (r: Result<seq<string>>)
    ensures r == SplitResult(value, delimiter, trim, removeEmpty)
  {
    if !value.Str? {
      return Err(NotAString);
    }
    var pieces := Split(value.s, Delimiter(delimiter));
    var result: seq<string> := [];
    var i := 0;
    assert pieces[0..] == pieces;
    while i < |pieces|
      invariant 0 <= i <= |pieces|
      invariant result + KeepPieces(pieces[i..], trim, removeEmpty) == KeepPieces(pieces, trim, removeEmpty)
    {
      KeepStep(result, pieces, i, trim, removeEmpty);
      var kept := KeepOne(pieces[i], trim, removeEmpty);
      result := result + kept;
      i := i + 1;
    }
    assert pieces[i..] == [];
    AppendEmpty(result);
    return Ok(result);
  }

  /** The body of the `forEach` for one piece: what it pushes onto the result. */
  method KeepOne(piece: string, trim: bool, removeEmpty: bool) returns (kept: seq<string>)
    ensures kept == KeptPiece(piece, trim, removeEmpty)
  {
    kept := [];
    if piece != [] {
      var p := piece;
      if trim {
        p := Trim(p);
      }
      if !removeEmpty || p != [] {
        kept := [p];
      }
    }
  }

  lemma KeepStep(done: seq<string>, pieces: seq<string>, i: nat, trim: bool, removeEmpty: bool)
    requires i < |pieces|
    ensures done + KeepPieces(pieces[i..], trim, removeEmpty)
         == done + KeptPiece(pieces[i], trim, removeEmpty) + KeepPieces(pieces[i + 1..], trim, removeEmpty)
  {
    assert pieces[i..][0] == pieces[i] && pieces[i..][1..] == pieces[i + 1..];
  }

  /** Every kept piece is non-empty unless trimming is on and removal is off. */
  lemma {:induction false} KeepPiecesNonEmpty(pieces: seq<string>, trim: bool, removeEmpty: bool)
    requires !trim || removeEmpty
    ensures [] !in KeepPieces(pieces, trim, removeEmpty)
    decreases |pieces|
  {
    if pieces != [] {
      KeepPiecesNonEmpty(pieces[1..], trim, removeEmpty);
    }
  }

  /** With trimming, every kept piece is its own trim. */
  lemma {:induction false} KeepPiecesTrimmed(pieces: seq<string>, removeEmpty: bool)
    ensures forall piece :: piece in KeepPieces(pieces, true, removeEmpty) ==> Trim(piece) == piece
    decreases |pieces|
  {
    if pieces != [] {
      KeepPiecesTrimmed(pieces[1..], removeEmpty);
      TrimIdempotent(pieces[0]);
      var head := KeptPiece(pieces[0], true, removeEmpty);
      assert forall piece :: piece in head ==> Trim(piece) == piece;
      assert KeepPieces(pieces, true, removeEmpty) == head + KeepPieces(pieces[1..], true, removeEmpty);
    }
  }

  /** Trimming without removal keeps a piece of white space as an empty text. */
  lemma WhiteSpacePieceKept()
    ensures KeepPieces([" "], true, false) == [""]
    ensures KeepPieces([" "], true, true) == []
    ensures KeepPieces([" "], false, true) == [" "]
  {
    assert Trim(" ") == "";
  }

  /** Without trimming, pieces that are all non-empty are kept as they are. */
  lemma {:induction false} KeepNonEmpty(pieces: seq<string>, removeEmpty: bool)
    requires forall i :: 0 <= i < |pieces| ==> pieces[i] != []
    ensures KeepPieces(pieces, false, removeEmpty) == pieces
    decreases |pieces|
  {
    if pieces != [] {
      KeepNonEmpty(pieces[1..], removeEmpty);
    }
  }

  /** Splitting a text with no empty piece and joining the result with the same delimiter
      gives the text back. */
  lemma SplitThenJoin(s: string, delimiter: Value, removeEmpty: bool)
    requires Delimiter(delimiter) != []
    requires forall i :: 0 <= i < |Split(s, Delimiter(delimiter))| ==> Split(s, Delimiter(delimiter))[i] != []
    ensures Join(SplitResult(Str(s), delimiter, false, removeEmpty).value, Delimiter(delimiter)) == s
  {
    KeepNonEmpty(Split(s, Delimiter(delimiter)), removeEmpty);
    JoinSplit(s, Delimiter(delimiter));
  }

  /** Split undoes the join action: non-empty strings without the one-character separator,
      joined and split on it, come back unchanged. */
  lemma SplitUndoesJoin(parts: seq<string>, c: char)
    requires |parts| >= 1
    requires forall i :: 0 <= i < |parts| ==> parts[i] != [] && c !in parts[i]
    ensures JoinResult(Arr(Strs(parts)), Str([c]), "").Ok?
    ensures SplitResult(Str(JoinResult(Arr(Strs(parts)), Str([c]), "").value), Str([c]), false, false) == Ok(parts)
  {
    JoinArraySplitsBack(parts, c);
    KeepNonEmpty(parts, false);
  }
}
