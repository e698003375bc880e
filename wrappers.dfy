/** Small failure-carrying datatypes shared by every component. */
module Wrappers {

  datatype Option<+T> = None | Some(value: T)

  /** The outcome of one call to the generative completion service: the text
      it returned, or the message of the error it raised. */
  datatype Reply = Reply(text: string) | Failed(reason: string)
}
