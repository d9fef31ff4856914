/** The library functions fmin, fmax and fabs, and the distance of two numbers. */
module RealNumbers {

  function Least(a: real, b: real): (r: real)
    ensures r <= a && r <= b && (r == a || r == b)
  {
    if a < b then a else b
  }

  function Greatest(a: real, b: real): (r: real)
    ensures a <= r && b <= r && (r == a || r == b)
  {
    if a < b then b else a
  }

  function Magnitude(x: real): (r: real)
    ensures 0.0 <= r && (r == x || r == -x)
  {
    if x < 0.0 then -x else x
  }

  function Distance(a: real, b: real): (r: real)
    ensures 0.0 <= r && (r == a - b || r == b - a)
  {
    if a < b then b - a else a - b
  }
}
