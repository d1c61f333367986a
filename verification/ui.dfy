/** Feedback the pages give and the errors they inspect. */
module Ui {
  /** A `sonner` toast. */
  datatype Toast = SuccessToast(message: string) | ErrorToast(message: string)

  /** A caught value as the pages test it: an object whose `code` is a
      string, or anything else (no code, a non-string code, a non-object). */
  datatype Caught = Coded(code: string) | Uncoded
}
