/** The ticket's SeatNumber value object: a row of one to three digits and
    a column letter A-F, stored trimmed and upper-cased, with the row, the
    letter and the seat's position derived from it. */
module SeatNumbers {
  import opened Text
  import opened Exceptions

  datatype SeatNumber = SeatNumber(number: string)

  predicate IsColumnLetter(c: char) {
    'A' <= c <= 'F'
  }

  /** A whole-string match of ^\d{1,3}[A-F]$ */
  predicate MatchesSeatPattern(s: string) {
    && 2 <= |s| <= 4
    && IsColumnLetter(s[|s| - 1])
    && forall k :: 0 <= k < |s| - 1 ==> IsDigit(s[k])
  }

  /** number.trim().uppercase() */
  function Normalize(number: string): string {
    Uppercase(Trim(number))
  }

  /** SeatNumber.of: a blank value is refused; otherwise the normalised value
      must match the pattern, and the message quotes the value as given. */
  function Of(number: string): (r: Try<SeatNumber, IllegalArgument>)
    ensures r.Return? <==> !IsBlank(number) && MatchesSeatPattern(Normalize(number))
    ensures IsBlank(number) ==> r == Throw(IllegalArgument("Seat number cannot be blank"))
    ensures !IsBlank(number) && !MatchesSeatPattern(Normalize(number))
            ==> r == Throw(IllegalArgument("Invalid seat number format: " + number + ". Expected format: 12A, 34B, etc."))
    ensures r.Return? ==> r.value.number == Normalize(number)
  {
    if IsBlank(number) then Throw(IllegalArgument("Seat number cannot be blank"))
    else
      var normalized := Normalize(number);
      if !MatchesSeatPattern(normalized) then
        Throw(IllegalArgument("Invalid seat number format: " + number + ". Expected format: 12A, 34B, etc."))
      else Return(SeatNumber(normalized))
  }

  /** Every seat number of builds matches the pattern. */
  predicate Valid(seat: SeatNumber) {
    MatchesSeatPattern(seat.number)
  }

  /** A string matching the pattern is already in normal form. */
  lemma NormalizeOfMatching(s: string)
    requires MatchesSeatPattern(s)
    ensures Normalize(s) == s && !IsBlank(s)
  {
    assert IsDigit(s[0]);
    TrimOfTrimmed(s);
    UppercaseOfUpper(s);
  }

  /** of accepts its own output unchanged. */
  lemma OfIdempotent(number: string)
    requires Of(number).Return?
    ensures Valid(Of(number).value)
    ensures Of(Of(number).value.number) == Of(number)
  {
    NormalizeOfMatching(Normalize(number));
  }

  /** Exactly the valid seat numbers are their own of. */
  lemma OfFixedPoints(seat: SeatNumber)
    ensures Of(seat.number) == Return(seat) <==> Valid(seat)
  {
    if Valid(seat) {
      NormalizeOfMatching(seat.number);
    }
  }

  /** Lower-case letters and surrounding blanks are accepted: " 12a " is 12A. */
  lemma LowerCaseSeatAccepted()
    ensures Of(" 12a ") == Return(SeatNumber("12A"))
  {
    NormalizeLowerCaseSeat();
    SeatPatternOf12A();
  }

  lemma SeatPatternOf12A()
    ensures MatchesSeatPattern("12A")
  {
    assert IsDigit("12A"[0]) && IsDigit("12A"[1]);
  }

  lemma NormalizeLowerCaseSeat()
    ensures Normalize(" 12a ") == "12A" && !IsBlank(" 12a ")
  {
    TrimLowerCaseSeat();
    var u := Uppercase("12a");
    assert u[0] == '1' && u[1] == '2' && u[2] == 'A';
    assert u == "12A";
  }

  lemma TrimLowerCaseSeat()
    ensures Trim(" 12a ") == "12a" && !IsBlank(" 12a ")
  {
    var s := " 12a ";
    assert IsWhitespace(s[0]) && !IsWhitespace(s[1..][0]);
    assert TrimStart(s) == TrimStart(s[1..]) == s[1..];
    var t := s[1..];
    assert IsWhitespace(t[|t| - 1]) && !IsWhitespace(t[..|t| - 1][2]);
    assert TrimEnd(t) == TrimEnd(t[..|t| - 1]) == t[..|t| - 1];
    assert t[..|t| - 1] == "12a";
    assert !IsWhitespace(s[1]);
  }

  /** A string of digits and upper-case letters with a digit at each end,
      or a letter at the end, is its own normal form. */
  lemma NormalizeOfPlain(s: string)
    requires 1 <= |s| && (IsDigit(s[0]) || IsColumnLetter(s[0]) || s[0] == 'G')
    requires IsDigit(s[|s| - 1]) || IsColumnLetter(s[|s| - 1]) || s[|s| - 1] == 'G'
    requires forall k :: 0 <= k < |s| ==> UpperChar(s[k]) == s[k]
    ensures Normalize(s) == s && !IsBlank(s)
  {
    TrimOfTrimmed(s);
    UppercaseOfUpper(s);
  }

  /** A letter past F and a letter in front of the row are both refused, and
      so is a four-digit row. */
  lemma MalformedSeatsRefused()
    ensures Of("7G").Throw? && Of("G7").Throw? && Of("1234A").Throw?
  {
    NormalizeOfPlain("7G");
    NormalizeOfPlain("G7");
    NormalizeOfPlain("1234A");
  }

  /** getRowNumber: the digits before the letter, read as a number. */
  function RowNumber(seat: SeatNumber): (row: nat)
    requires Valid(seat)
    ensures row < 1000
  {
    var digits := seat.number[..|seat.number| - 1];
    DigitsValueBound(digits);
    assert Pow10(3) == 1000;
    assert Pow10(|digits|) <= Pow10(3) by {
      assert Pow10(1) == 10 && Pow10(2) == 100;
    }
    DigitsValue(digits)
  }

  /** getSeatLetter: the last character. */
  function SeatLetter(seat: SeatNumber): (c: char)
    requires Valid(seat)
    ensures IsColumnLetter(c)
  {
    seat.number[|seat.number| - 1]
  }

  predicate IsWindowSeat(seat: SeatNumber)
    requires Valid(seat)
  {
    SeatLetter(seat) in {'A', 'F'}
  }

  predicate IsAisleSeat(seat: SeatNumber)
    requires Valid(seat)
  {
    SeatLetter(seat) in {'C', 'D'}
  }

  predicate IsMiddleSeat(seat: SeatNumber)
    requires Valid(seat)
  {
    SeatLetter(seat) in {'B', 'E'}
  }

  /** Window, aisle and middle partition the seats: exactly one holds. */
  lemma SeatKindsPartition(seat: SeatNumber)
    requires Valid(seat)
    ensures IsWindowSeat(seat) || IsAisleSeat(seat) || IsMiddleSeat(seat)
    ensures !(IsWindowSeat(seat) && IsAisleSeat(seat))
    ensures !(IsWindowSeat(seat) && IsMiddleSeat(seat))
    ensures !(IsAisleSeat(seat) && IsMiddleSeat(seat))
  {
    var c := SeatLetter(seat);
    assert c == 'A' || c == 'B' || c == 'C' || c == 'D' || c == 'E' || c == 'F';
  }
}
