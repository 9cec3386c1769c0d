// Result types shared by every module.
//
// `Option` stands for a field Notion may leave null. `Outcome` is what
// evaluating one Python expression gives: `Ok` with its value, or `Raised`
// when it throws. The decoder's handler catches every exception the same
// way, so which exception was thrown is not recorded.
module Outcomes {

  datatype Option<+T> = None | Some(value: T)

  datatype Outcome<+T> = Ok(value: T) | Raised {

    predicate IsFailure() {
      Raised?
    }

    function PropagateFailure<U>(): Outcome<U>
      requires Raised?
    {
      Raised
    }

    function Extract(): T
      requires Ok?
    {
      value
    }
  }
}
