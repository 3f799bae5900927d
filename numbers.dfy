/** The larger and smaller of two numbers, for the source's `max` and `min`. */
module Numbers {

  function Max(a: int, b: int): int
  {
    if a < b then b else a
  }

  function RMax(a: real, b: real): real
  {
    if a < b then b else a
  }

  function RMin(a: real, b: real): real
  {
    if a < b then a else b
  }
}
