/**
 * The routing table from user email to tracker project, built at start-up from
 * the `USER_JIRA_PAIRS` string `email=PROJECT,email=PROJECT,...`.
 */
module Routing {

  import opened GoStrings

  /** A comma-separated piece is kept only if splitting it on `=` gives exactly two parts. */
  predicate IsPair(piece: string)
  {
    |Split(piece, '=')| == 2
  }

  function PairKey(piece: string): string
    requires IsPair(piece)
  {
    Split(piece, '=')[0]
  }

  function PairValue(piece: string): string
    requires IsPair(piece)
  {
    Split(piece, '=')[1]
  }

  /** The table after inserting the pieces in order, a later key overwriting an earlier one. */
  function TableOf(pieces: seq<string>): map<string, string>
    decreases |pieces|
  {
    if pieces == [] then map[]
    else
      var table := TableOf(pieces[..|pieces| - 1]);
      var last := pieces[|pieces| - 1];
      if IsPair(last) then table[PairKey(last) := PairValue(last)] else table
  }

  /** The parsing loop: split on `,`, split each piece on `=`, skip pieces without exactly two parts. */
  method ParseUserJiraPairs(userJiraPairs: string) returns (table: map<string, string>)
    ensures table == TableOf(Split(userJiraPairs, ','))
  {
    table := map[];
    var pieces := Split(userJiraPairs, ',');
    for i := 0 to |pieces|
      invariant table == TableOf(pieces[..i])
    {
      assert pieces[..i + 1][..i] == pieces[..i];
      var parts := Split(pieces[i], '=');
      if |parts| != 2 {
        continue;
      }
      table := table[parts[0] := parts[1]];
    }
    assert pieces[..|pieces|] == pieces;
  }

  /**
   * A piece is kept exactly when it holds one `=`; its key and value are the raw
   * text on either side of it, with nothing trimmed.
   */
  lemma PairShape(piece: string)
    ensures IsPair(piece) <==> Count(piece, '=') == 1
    ensures IsPair(piece) ==> piece == PairKey(piece) + "=" + PairValue(piece)
    ensures IsPair(piece) ==> '=' !in PairKey(piece) && '=' !in PairValue(piece)
  {
    SplitLength(piece, '=');
    JoinSplit(piece, '=');
    SplitPiecesAreFree(piece, '=');
    if IsPair(piece) {
      var parts := Split(piece, '=');
      assert Join(parts, '=') == parts[0] + "=" + Join(parts[1..], '=');
    }
  }

  /** The keys of the table are exactly the keys of the pieces that are kept. */
  lemma {:induction false} TableKeys(pieces: seq<string>)
    ensures TableOf(pieces).Keys == set p | p in pieces && IsPair(p) :: PairKey(p)
    decreases |pieces|
  {
    if pieces != [] {
      var front := pieces[..|pieces| - 1];
      var last := pieces[|pieces| - 1];
      TableKeys(front);
      assert pieces == front + [last];
      var keys := set p | p in pieces && IsPair(p) :: PairKey(p);
      var frontKeys := set p | p in front && IsPair(p) :: PairKey(p);
      if IsPair(last) {
        assert keys == frontKeys + {PairKey(last)};
      } else {
        assert keys == frontKeys;
      }
    }
  }

  /** The value stored for a key is the value of the last kept piece with that key. */
  lemma {:induction false} LastPairWins(pieces: seq<string>, i: nat)
    requires i < |pieces| && IsPair(pieces[i])
    requires forall j :: i < j < |pieces| && IsPair(pieces[j]) ==> PairKey(pieces[j]) != PairKey(pieces[i])
    ensures PairKey(pieces[i]) in TableOf(pieces)
    ensures TableOf(pieces)[PairKey(pieces[i])] == PairValue(pieces[i])
    decreases |pieces|
  {
    if i < |pieces| - 1 {
      var front := pieces[..|pieces| - 1];
      assert front[i] == pieces[i];
      forall j | i < j < |front| && IsPair(front[j])
        ensures PairKey(front[j]) != PairKey(front[i])
      {
        assert front[j] == pieces[j];
      }
      LastPairWins(front, i);
    }
  }

  /** A piece that is not kept changes nothing, wherever it stands. */
  lemma {:induction false} SkippedPieceIgnored(before: seq<string>, piece: string, after: seq<string>)
    requires !IsPair(piece)
    ensures TableOf(before + [piece] + after) == TableOf(before + after)
    decreases |after|
  {
    if after == [] {
      assert (before + [piece] + after)[..|before|] == before;
      assert before + after == before;
    } else {
      var front := after[..|after| - 1];
      SkippedPieceIgnored(before, piece, front);
      assert (before + [piece] + after)[..|before| + |after|] == before + [piece] + front;
      assert (before + after)[..|before| + |after| - 1] == before + front;
    }
  }

  /** An empty `USER_JIRA_PAIRS` is one empty piece, which has no `=`, so the table is empty. */
  lemma EmptyPairsEmptyTable()
    ensures TableOf(Split("", ',')) == map[]
  {
    assert Split("", ',') == [""];
    assert !IsPair("");
    assert [""][..0] == [];
  }
}
