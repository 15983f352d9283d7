/** The weighted character sum that `GetColumnIndex` computes, and the step of its loop. */
module Base26 {
  import opened Int32

  /** What one character contributes: `(code - 64) % 26`. */
  function LetterDigit(c: char): int {
    TruncRem(c as int - 64, 26)
  }

  /** 26^n, the value of `Math.Pow(26, n)`. */
  function Pow26(n: nat): (p: nat)
    ensures p >= 1
  {
    if n == 0 then 1 else 26 * Pow26(n - 1)
  }

  /** d * 26^n, written by repeated multiplication by 26 so that it stays linear. */
  function Scaled(d: int, n: nat): int {
    if n == 0 then d else 26 * Scaled(d, n - 1)
  }

  /** The weighted sum: the character at position k of t has weight 26^(|t| - 1 - k). */
  function Positional(t: string): int
    decreases |t|
  {
    if t == [] then 0 else Scaled(LetterDigit(t[0]), |t| - 1) + Positional(t[1..])
  }

  lemma {:induction false} ScaledIsProduct(d: int, n: nat)
    ensures Scaled(d, n) == Pow26(n) * d
    decreases n
  {
    if n > 0 {
      ScaledIsProduct(d, n - 1);
      var p := Pow26(n - 1);
      assert Pow26(n) * d == 26 * (p * d);
    }
  }

  lemma {:induction false} ScaledBounds(d: int, n: nat)
    requires 0 <= d <= 25
    ensures 0 <= Scaled(d, n) <= 25 * Pow26(n)
    decreases n
  {
    if n > 0 {
      ScaledBounds(d, n - 1);
    }
  }

  /** Extending the summed suffix by the character before it adds that character's digit at
      weight 26^i. */
  lemma PositionalSuffix(t: string, i: nat)
    requires i < |t|
    ensures Positional(t[|t| - (i + 1)..])
         == Scaled(LetterDigit(t[|t| - (i + 1)]), i) + Positional(t[|t| - i..])
  {
    var u := t[|t| - (i + 1)..];
    assert u[0] == t[|t| - (i + 1)] && u[1..] == t[|t| - i..];
  }

  /** One turn of the loop of `GetColumnIndex` extends the summed suffix by one character. */
  lemma LoopStep(col: string, i: nat, colIndex: int, colDec: int)
    requires i < |col| && colIndex == Wrap32(Positional(col[|col| - i..]))
    requires colDec == LetterDigit(col[|col| - (i + 1)])
    ensures Wrap32(colIndex + Wrap32(Pow26(i) * colDec)) == Wrap32(Positional(col[|col| - (i + 1)..]))
  {
    PositionalSuffix(col, i);
    ScaledIsProduct(colDec, i);
    WrapAccumulate(Positional(col[|col| - i..]), Pow26(i) * colDec, colIndex, Positional(col[|col| - (i + 1)..]));
  }
}
