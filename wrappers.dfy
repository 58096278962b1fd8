/** Option and Result, the failure-compatible wrappers used throughout the model. */
module Wrappers {

  datatype Option<+T> = None | Some(value: T)

  /** An `anyhow::Result`: an error carries only its message. */
  datatype Result<+T> = Ok(value: T) | Err(error: string) {

    predicate IsFailure() {
      Err?
    }

    function PropagateFailure<U>(): Result<U>
      requires Err?
    {
      Err(error)
    }

    function Extract(): T
      requires Ok?
    {
      value
    }
  }
}

/** The value types of the instance model (rbx_dom_weak). */
module Dom {

  /** A stable instance reference. */
  type Ref = nat

  /** A property value; its encoding is opaque to the sync engine, so only its text is kept. */
  datatype Variant = Variant(repr: string)

  /** An instance's property map. */
  type Properties = map<string, Variant>
}
