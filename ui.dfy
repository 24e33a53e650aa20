/**
 * What a handler does to the user interface besides its own state: toasts
 * (react-hot-toast) and the callbacks a parent passes down.
 */
module Ui {
  import opened JsValues

  datatype Effect =
    | ToastError(message: JsValue)
    | ToastSuccess(message: JsValue)
    | CloseDialog
    | CallOnSuccess

  predicate IsToast(e: Effect) {
    e.ToastError? || e.ToastSuccess?
  }

  /** How many notifications a sequence of effects shows. */
  function ToastCount(effects: seq<Effect>): (n: nat)
    ensures n <= |effects|
    ensures n == 0 <==> forall i :: 0 <= i < |effects| ==> !IsToast(effects[i])
  {
    if effects == [] then 0
    else (if IsToast(effects[0]) then 1 else 0) + ToastCount(effects[1..])
  }
}
