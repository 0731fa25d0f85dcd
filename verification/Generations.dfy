/** Migration generations travel as JSON numbers; the largest is the largest integer a double holds exactly. */
module Generations {
  const MAXIMUM_GENERATION := 9007199254740991.0
}
