/** The toast notices the pages raise. */
module Notices {
  datatype Toast = Toast(message: string, isError: bool)

  /** `error || fallback`: the server's text when it sent one, else the page's own. */
  function ToastText(error: string, fallback: string): (r: string)
    requires fallback != ""
    ensures r != ""
    ensures error != "" ==> r == error
    ensures error == "" ==> r == fallback
  {
    if error == "" then fallback else error
  }
}
