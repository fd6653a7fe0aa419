/** The plural suffix of the Russian word for "degree" chosen by
    `JsonToTextFormatter.get_ending`, taken over the integer `int(num)`. */
module ResponseFormatters {

  /** `get_ending`. Python's `%` with divisor 10 is never negative, and so is
      Dafny's, so `n % 10` here is the source's `last_digit` for every `n`. */
  function GetEnding(n: int): (r: string)
    ensures r == "" || r == "а" || r == "ов"
  {
    var lastDigit := n % 10;
    if lastDigit == 1 then ""
    else if lastDigit in {2, 3, 4} then "а"
    else "ов"
  }

  /** The suffix is fixed by the last digit of `int(num)` alone. */
  lemma GetEndingByLastDigit(n: int)
    ensures n % 10 == 1 <==> GetEnding(n) == ""
    ensures 2 <= n % 10 <= 4 <==> GetEnding(n) == "а"
    ensures (n % 10 == 0 || 5 <= n % 10) <==> GetEnding(n) == "ов"
  {
  }

  /** Adding ten does not change the suffix. */
  lemma GetEndingPeriodic(n: int)
    ensures GetEnding(n + 10) == GetEnding(n)
  {
  }

  /** Values as written on small non-negative numbers away from the teens;
      teens and negative numbers are shown with the corrected rule below. */
  lemma GetEndingExamples()
    ensures GetEnding(1) == "" && GetEnding(21) == ""
    ensures GetEnding(2) == "а" && GetEnding(34) == "а"
    ensures GetEnding(0) == "ов" && GetEnding(5) == "ов"
  {
  }

  /** The Russian rule for "degree": numbers ending in 11 to 14 take "ов",
      otherwise the last digit decides; the sign plays no role. */
  function DegreeEnding(n: int): (r: string)
    ensures r == "" || r == "а" || r == "ов"
  {
    var a := if n < 0 then -n else n;
    if 11 <= a % 100 <= 14 then "ов"
    else if a % 10 == 1 then ""
    else if a % 10 in {2, 3, 4} then "а"
    else "ов"
  }

  /** A temperature and its negation take the same suffix. */
  lemma DegreeEndingIgnoresSign(n: int)
    ensures DegreeEnding(-n) == DegreeEnding(n)
  {
  }

  /** Numbers ending in 11 to 14 take "ов". */
  lemma DegreeEndingTeens(n: int)
    requires 11 <= n % 100 <= 14
    ensures DegreeEnding(n) == "ов"
  {
  }

  /** Away from the teens, the rule agrees with `get_ending` on non-negative
      numbers. */
  lemma DegreeEndingAgreesOnNonNegative(n: int)
    requires n >= 0 && !(11 <= n % 100 <= 14)
    ensures DegreeEnding(n) == GetEnding(n)
  {
  }

  /** `get_ending` gives the singular suffix to 11 and "а" to 12 to 14,
      where Russian takes "ов". */
  lemma GetEndingMisdeclinesTeens()
    ensures GetEnding(11) == "" && DegreeEnding(11) == "ов"
    ensures GetEnding(12) == "а" && DegreeEnding(12) == "ов"
  {
  }

  /** `get_ending` declines negative numbers by their Python remainder:
      -1 takes "ов" instead of "", -2 "ов" instead of "а", -8 "а" instead of "ов". */
  lemma GetEndingMisdeclinesNegatives()
    ensures GetEnding(-1) == "ов" && DegreeEnding(-1) == ""
    ensures GetEnding(-2) == "ов" && DegreeEnding(-2) == "а"
    ensures GetEnding(-8) == "а" && DegreeEnding(-8) == "ов"
  {
  }
}
