/** Clamping of integers. */
module IntegerArithmetic {
  function Max(a: int, b: int): (r: int)
    ensures r >= a && r >= b && (r == a || r == b)
  {
    if a < b then b else a
  }

  function Min(a: int, b: int): (r: int)
    ensures r <= a && r <= b && (r == a || r == b)
  {
    if a < b then a else b
  }

  function Clamp(value: int, low: int, high: int): (r: int)
    ensures low <= high ==> low <= r <= high
    ensures low <= value <= high ==> r == value
    ensures low <= high && value <= low ==> r == low
    ensures low <= high <= value ==> r == high
  {
    if value < low then low else if value > high then high else value
  }
}
