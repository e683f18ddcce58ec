// `parse_chess_position`: a square typed by the player, such as "e2",
// read as a board position.

module SquareParser {
  import opened Wrappers
  import opened Pieces

  /** `char::to_digit(10)`: the value of an ASCII decimal digit. */
  function DecimalDigit(ch: char): (r: Option<nat>)
    ensures r.Some? <==> '0' <= ch <= '9'
    ensures r.Some? ==> r.value < 10 && r.value == ch as int - '0' as int
  {
    if '0' <= ch <= '9' then Some(ch as int - '0' as int) else None
  }

  /** `parse_chess_position`: the first character gives the column (`'a'`
      when missing), the second the row (`'1'` when missing), the rest is
      ignored. A column character below `'a'` underflows the `usize`
      subtraction, a row character that is not a digit fails `unwrap`, and
      the digit `0` underflows `- 1`: each of these panics. The row is the
      digit minus one, not mirrored, and neither coordinate is checked
      against the board. */
  function ParseChessPosition(s: string): (r: Result<Position>)
    ensures r.Ok? ==> r.value.col == (if |s| > 0 then s[0] else 'a') as int - 'a' as int
    ensures r.Ok? ==> DecimalDigit(if |s| > 1 then s[1] else '1') == Some(r.value.row + 1)
  {
    var colChar := if |s| > 0 then s[0] else 'a';
    if colChar < 'a' then Panic
    else
      var col := colChar as int - 'a' as int;
      var rowChar := if |s| > 1 then s[1] else '1';
      match DecimalDigit(rowChar)
      case None => Panic
      case Some(digit) =>
        if digit < 1 then Panic
        else Ok(Position(digit - 1, col))
  }

  /** The parse panics exactly on a column character below `'a'`, a row
      character that is not a digit, or the row digit `0`. */
  lemma ParsePanics(s: string)
    ensures ParseChessPosition(s).Panic? <==>
      var colChar := if |s| > 0 then s[0] else 'a';
      var rowChar := if |s| > 1 then s[1] else '1';
      colChar < 'a' || !('1' <= rowChar <= '9')
  {
  }

  /** A well-formed square `<letter a..h><digit 1..8>` is read as the
      position whose coordinates are the letter's and the digit's offsets,
      and so lies on the board. */
  lemma ParseSquare(f: char, r: char, rest: string)
    requires 'a' <= f <= 'h' && '1' <= r <= '8'
    ensures ParseChessPosition([f, r] + rest) ==
      Ok(Position(r as int - '1' as int, f as int - 'a' as int))
    ensures OnBoard(ParseChessPosition([f, r] + rest).value)
  {
  }

  /** An empty input is the corner square (0, 0); a column alone is read
      on row 0. */
  lemma ParseDefaults(f: char)
    requires 'a' <= f
    ensures ParseChessPosition("") == Ok(Position(0, 0))
    ensures ParseChessPosition([f]) == Ok(Position(0, f as int - 'a' as int))
  {
  }

  /** Nothing checks the coordinates: "a9" is read as row 8, off the board. */
  lemma ParseOffBoard()
    ensures ParseChessPosition("a9") == Ok(Position(8, 0))
    ensures !OnBoard(ParseChessPosition("a9").value)
  {
  }
}
