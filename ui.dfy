/** The shared page chrome (`ui.js`): the toast notifications every page
    shows after an action. */
module Ui {

  /** The `type` argument of `showToast`; `Success` is its default. */
  datatype ToastKind = Success | Error | Warning

  /** The last toast shown on a page, if any. */
  datatype Toast = NoToast | Toast(message: string, kind: ToastKind)
}
