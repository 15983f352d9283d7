/** `GetColumnIndex`: a column reference such as "AB" turned into a base-26 column number,
    with the source's arithmetic kept as written: `(code - 64) % 26` with C#'s truncating
    remainder, so that `Z` contributes 0, and 32-bit signed wrap-around of the sum. */
module ColumnAddressing {
  import opened Wrappers
  import opened Text
  import opened Errors
  import opened Int32
  import opened Base26

  /** Longest reference the loop can take: `Convert.ToInt32(Math.Pow(26, 7))` is past Int32. */
  const MaxLetters: nat := 7

  /** The reference as the loop reads it: trimmed, then upper-cased. */
  function Normalize(s: string): string {
    ToUpper(Trim(s))
  }

  /** What `GetColumnIndex(s)` returns, or the overflow it raises. */
  function ColumnIndex(s: string): Result<int, Error> {
    var t := Normalize(s);
    if |t| > MaxLetters then Failure(ColumnIndexOverflow) else Success(Wrap32(Positional(t)))
  }

  // ---------------------------------------------------------------------------

  /** `GetColumnIndex`: trims and upper-cases the reference, then adds up the weighted
      character values from the right, in 32-bit arithmetic. */
  method GetColumnIndex(cellPositionCol: string) returns (r: Result<int, Error>)
    ensures r == ColumnIndex(cellPositionCol)
  {
    var col := Normalize(cellPositionCol);  // Trim().ToUpper()
    r := SumFromRight(col);
  }

  /** The loop of `GetColumnIndex` over the normalized reference `col`. */
  method SumFromRight(col: string) returns (r: Result<int, Error>)
    ensures |col| > MaxLetters ==> r == Failure(ColumnIndexOverflow)
    ensures |col| <= MaxLetters ==> r == Success(Wrap32(Positional(col)))
  {
    var colIndex := 0;
    var i := 0;
    while i < |col|
      invariant 0 <= i <= |col| && i <= MaxLetters
      invariant colIndex == Wrap32(Positional(col[|col| - i..]))
    {
      if i >= MaxLetters {
        // Convert.ToInt32(Math.Pow(26, i)) overflows for i >= 7.
        return Failure(ColumnIndexOverflow);
      }
      var idx := |col| - (i + 1);
      var colDec := TruncRem(col[idx] as int - 64, 26);
      LoopStep(col, i, colIndex, colDec);
      colIndex := Wrap32(colIndex + Wrap32(Pow26(i) * colDec));
      i := i + 1;
    }
    assert col[|col| - i..] == col;
    r := Success(colIndex);
  }

  // ---------------------------------------------------------------------------
  // Properties of the column index.

  /** `A`..`Y` are columns 1..25, also in lower case; `Z` is 0, not 26. */
  lemma SingleLetter(c: char)
    requires 'A' <= c <= 'Z' || 'a' <= c <= 'z'
    ensures ColumnIndex([c]) == Success(if UpperChar(c) == 'Z' then 0 else UpperChar(c) as int - 'A' as int + 1)
  {
    assert !IsWhiteSpace(c);
    assert TrimStart([c]) == [c];
    assert TrimEnd([c]) == [c];
    var t := Normalize([c]);
    assert t == [UpperChar(c)];
    assert Positional(t) == Scaled(LetterDigit(UpperChar(c)), 0) + Positional([]);
  }

  /** Column references the loop sees unchanged by Trim and ToUpper. */
  lemma NormalizeLetters(t: string)
    requires IsLetters(t)
    ensures Normalize(t) == t
  {
    if t != [] {
      assert !IsWhiteSpace(t[0]) && !IsWhiteSpace(t[|t| - 1]);
      assert TrimStart(t) == t;
      assert TrimEnd(t) == t;
    }
  }

  /** The digit of an upper-case letter: `A`..`Y` are 1..25 and `Z` is 0. */
  lemma UpperLetterDigit(c: char)
    requires 'A' <= c <= 'Z'
    ensures LetterDigit(c) == if c == 'Z' then 0 else c as int - 'A' as int + 1
  {
  }

  /** A two-letter reference weighs its first letter by 26. */
  lemma TwoLetters(a: char, b: char)
    requires 'A' <= a <= 'Z' && 'A' <= b <= 'Z'
    ensures ColumnIndex([a, b]) == Success(Wrap32(26 * LetterDigit(a) + LetterDigit(b)))
  {
    NormalizeLetters([a, b]);
    PositionalOfTwo(a, b);
  }

  lemma PositionalOfTwo(a: char, b: char)
    ensures Positional([a, b]) == 26 * LetterDigit(a) + LetterDigit(b)
  {
    assert [a, b][1..] == [b] && [b][1..] == [];
    assert Positional([a, b]) == Scaled(LetterDigit(a), 1) + Positional([b]);
    assert Scaled(LetterDigit(a), 1) == 26 * Scaled(LetterDigit(a), 0);
    assert Positional([b]) == Scaled(LetterDigit(b), 0) + Positional([]);
  }

  /** "AA" is column 27 and "BA" column 53, as in a spreadsheet, but "AZ" is 26, the same as the
      spreadsheet's "Z": the index does not follow spreadsheet column order. */
  lemma SampleIndices()
    ensures ColumnIndex("") == Success(0)
    ensures ColumnIndex("AA") == Success(27)
    ensures ColumnIndex("AZ") == Success(26)
    ensures ColumnIndex("BA") == Success(53)
  {
    assert Trim("") == "";
    UpperLetterDigit('A');
    UpperLetterDigit('B');
    UpperLetterDigit('Z');
    TwoLetters('A', 'A');
    TwoLetters('A', 'Z');
    TwoLetters('B', 'A');
  }

  /** The index depends on the reference only up to letter case and surrounding white space. */
  lemma CaseAndWhiteSpaceInsensitive(w1: string, s: string, w2: string)
    requires AllWhiteSpace(w1) && AllWhiteSpace(w2)
    ensures ColumnIndex(w1 + s + w2) == ColumnIndex(s)
    ensures ColumnIndex(ToUpper(s)) == ColumnIndex(s)
  {
    TrimIgnoresSurroundingWhite(w1, s, w2);
    TrimUpperCommute(s);
    TrimUpperCommute(Trim(s));
  }

  predicate IsLetters(t: string) {
    forall i :: 0 <= i < |t| ==> 'A' <= t[i] <= 'Z'
  }

  lemma {:induction false} PositionalBounds(t: string)
    requires IsLetters(t)
    ensures 0 <= Positional(t) < Pow26(|t|)
    decreases |t|
  {
    if t != [] {
      PositionalBounds(t[1..]);
      ScaledBounds(LetterDigit(t[0]), |t| - 1);
    }
  }

  /** A reference of at most six upper-case letters never wraps: its index is the plain
      weighted sum, between 0 and 26^n - 1. */
  lemma NoWrapUpToSixLetters(s: string)
    requires IsLetters(s) && |s| <= 6
    ensures ColumnIndex(s) == Success(Positional(s))
    ensures 0 <= Positional(s) < Pow26(|s|)
  {
    NormalizeLetters(s);
    PositionalBounds(s);
    assert Pow26(6) == 308915776;
    PowMonotone(|s|, 6);
  }

  lemma {:induction false} PowMonotone(m: nat, n: nat)
    requires m <= n
    ensures Pow26(m) <= Pow26(n)
    decreases n - m
  {
    if m < n {
      PowMonotone(m, n - 1);
    }
  }
}
