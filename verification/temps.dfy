/** Simulated clock values: a finite instant or `Inf`, the store's stand-in for `math.inf`. */
module Temps {

  datatype Instant = Fin(r: real) | Inf

  /** `a <= b` on instants, with `Inf` above every finite instant and `Inf <= Inf`. */
  predicate Le(a: Instant, b: Instant)
  {
    b.Inf? || (a.Fin? && a.r <= b.r)
  }

  /** `a < b` on instants; `Inf < Inf` is false, as for floats. */
  predicate Lt(a: Instant, b: Instant)
  {
    a.Fin? && (b.Inf? || a.r < b.r)
  }
}
