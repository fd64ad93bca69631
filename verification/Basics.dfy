/** What several modules share: an optional value, and a number cut off at zero. */
module Basics {
  datatype Option<+T> = None | Some(value: T)

  function Or<T>(given: Option<T>, default: T): T {
    if given.Some? then given.value else default
  }

  function Max0(n: int): nat {
    if n < 0 then 0 else n
  }
}
