/** utils.py: the numeric helper `clamp` (the JSON loader is file I/O and is not modelled). */
module Utils {

  /** `max(floor, min(number, ceil))`: the maximum is applied last, so `floor` wins when the
      bounds are crossed. */
  function Clamp(number: int, floor: int, ceil: int): (r: int)
    ensures floor <= ceil ==> floor <= r <= ceil
    ensures floor <= number <= ceil ==> r == number
    ensures number > ceil >= floor ==> r == ceil
    ensures number < floor ==> r == floor
    ensures floor > ceil ==> r == floor
  {
    var lowered := if number < ceil then number else ceil;
    if floor < lowered then lowered else floor
  }

  /** Clamping twice is clamping once, whatever the bounds. */
  lemma ClampIdempotent(number: int, floor: int, ceil: int)
    ensures Clamp(Clamp(number, floor, ceil), floor, ceil) == Clamp(number, floor, ceil)
  {
  }
}
