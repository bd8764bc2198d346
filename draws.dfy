/** The draws the scene constructor takes from `<random>`. The generator and
    the distributions' probabilities are not modelled: a draw is any value
    the distribution can produce. */
module Draws {

  predicate InRange(v: real, lo: real, hi: real)
  {
    lo <= v < hi
  }

  /** A draw of `std::uniform_real_distribution<float>(lo, hi)`: some value
      in [lo, hi). */
  method Uniform(lo: real, hi: real) returns (v: real)
    requires lo < hi
    ensures lo <= v < hi
  {
    assert InRange(lo, lo, hi);
    v :| InRange(v, lo, hi);
    assert InRange(v, lo, hi);
  }

  /** A draw of `std::bernoulli_distribution`: either outcome. */
  method Bernoulli() returns (b: bool)
  {
    b :| true;
  }
}
