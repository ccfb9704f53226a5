/** Outcomes of the foreign calls the model does not see into (the document store,
    the mail transport, the file system). Each call either returns or throws. */
module Io {

  /** A call that returns nothing useful (`await save()`, `await sendMail()`,
      `await verify()`): it completes, or it throws an error carrying `message`. */
  datatype Outcome = Ok | Err(message: string)

  /** The result of reading a text file: its content, or a failure to read it. */
  datatype FileRead = Content(text: string) | Unreadable
}
