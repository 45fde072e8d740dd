/**
 * The 0-based position codec of Utils.cs: "D4" <-> (row 3, col 3), where the
 * row is the rank digit minus one and the column is the file letter minus 'A'.
 */
module Utils {
  import opened Wrappers
  import opened Text
  import opened Squares

  /**
   * PositionToCoordinates: (rank digit - 1, file letter - 'A'). The C# code
   * throws for a string shorter than two characters and for a second
   * character int.Parse rejects (anything but '0'..'9'); those are None here.
   * Characters after the second are ignored.
   */
  function PositionToCoordinates(position: string): (r: Option<(int, int)>)
    ensures r.Some? <==> |position| >= 2 && IsDigit(position[1])
  {
    if |position| >= 2 && IsDigit(position[1]) then
      Some((position[1] as int - '0' as int - 1, position[0] as int - 'A' as int))
    else
      None
  }

  /**
   * CoordinatesToPosition: the file character 'A' + col followed by row + 1 in
   * decimal. The model covers the file characters below the surrogate range.
   */
  function CoordinatesToPosition(row: int, col: int): (s: string)
    requires 0 <= 65 + col < 0xD800
    ensures |s| >= 2 && s[0] as int == 65 + col && s[1..] == IntToString(row + 1)
  {
    [(65 + col) as char] + IntToString(row + 1)
  }

  /** Every board label survives a trip through the coordinates. */
  lemma LabelRoundTrip(p: string)
    requires ValidLabel(p)
    ensures PositionToCoordinates(p).Some?
    ensures var (row, col) := PositionToCoordinates(p).value;
      0 <= row < 8 && 0 <= col < 8 && CoordinatesToPosition(row, col) == p
  {
    var (row, col) := PositionToCoordinates(p).value;
    SingleDigitToString(row + 1);
    assert CoordinatesToPosition(row, col) == [p[0], p[1]];
  }

  /** Every in-board coordinate pair survives a trip through the label. */
  lemma CoordinatesRoundTrip(row: int, col: int)
    requires 0 <= row < 8 && 0 <= col < 8
    ensures ValidLabel(CoordinatesToPosition(row, col))
    ensures PositionToCoordinates(CoordinatesToPosition(row, col)) == Some((row, col))
  {
    SingleDigitToString(row + 1);
  }

  /**
   * RandomPosition with its two random draws as parameters: the file index is
   * random.Next(8) and the rank random.Next(1, 9).
   */
  function RandomPosition(fileDraw: int, rankDraw: int): (s: string)
    requires 0 <= fileDraw < 8 && 1 <= rankDraw < 9
    ensures ValidLabel(s)
    ensures PositionToCoordinates(s) == Some((rankDraw - 1, fileDraw))
  {
    SingleDigitToString(rankDraw);
    [(65 + fileDraw) as char] + IntToString(rankDraw)
  }
}
