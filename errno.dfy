/** Linux error numbers the drivers return negated. */
module Errno {
  /** Operation not permitted: the registers were never mapped. */
  const EPERM: int := 1
  /** Invalid argument: no PWM prescaler can represent the period. */
  const EINVAL: int := 22
}
