/**
 * Board squares as the rules engine names them: a file letter A..H followed by
 * a rank digit 1..8, enumerated rank by rank (A1, B1, ..., H1, A2, ..., H8) as
 * both GeneratePositionMap and GenerateAllBoardTiles list them.
 */
module Squares {

  const Files: string := "ABCDEFGH"

  /** A label the 1-based position dictionary has a key for. */
  predicate ValidLabel(s: string) {
    |s| == 2 && 'A' <= s[0] <= 'H' && '1' <= s[1] <= '8'
  }

  /** The label of a 0-based file index and a rank 1..8. */
  function Label(file: int, rank: int): (s: string)
    requires 0 <= file < 8 && 1 <= rank <= 8
    ensures ValidLabel(s)
    ensures s[0] as int - 'A' as int == file && s[1] as int - '0' as int == rank
  {
    [(65 + file) as char, (48 + rank) as char]
  }

  /** Position of a valid label in the rank-by-rank enumeration. */
  function LabelIndex(s: string): (k: int)
    requires ValidLabel(s)
    ensures 0 <= k < 64
  {
    (s[1] as int - '1' as int) * 8 + (s[0] as int - 'A' as int)
  }

  /** All 64 labels, A1..H1, A2..H2, ..., A8..H8. */
  function AllLabels(): seq<string> { seq(64, k requires 0 <= k < 64 => Label(k % 8, k / 8 + 1)) }

  lemma AllLabelsShape()
    ensures |AllLabels()| == 64
    ensures forall k :: 0 <= k < 64 ==> ValidLabel(AllLabels()[k]) && LabelIndex(AllLabels()[k]) == k
  {
  }

  lemma AllLabelsExactlyValid(s: string)
    ensures s in AllLabels() <==> ValidLabel(s)
  {
    AllLabelsShape();
    if ValidLabel(s) {
      var k := LabelIndex(s);
      assert AllLabels()[k] == s;
    }
  }

  /** The enumeration holds every label once. */
  lemma AllLabelsDistinct()
    ensures forall i, j :: 0 <= i < j < 64 ==> AllLabels()[i] != AllLabels()[j]
  {
    AllLabelsShape();
  }

  /** The label of rank `rank` and 0-based file `file` sits at index (rank - 1) * 8 + file. */
  lemma AllLabelsAt(file: int, rank: int)
    requires 0 <= file < 8 && 1 <= rank <= 8
    ensures 0 <= (rank - 1) * 8 + file < 64
    ensures AllLabels()[(rank - 1) * 8 + file] == Label(file, rank)
  {
    var k := (rank - 1) * 8 + file;
    assert k % 8 == file && k / 8 == rank - 1;
  }
}
