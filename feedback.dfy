/**
 * What the admin pages do after a backend call settles: toasts, navigation
 * and cache invalidation are output effects; the call's outcome is an input.
 */
module Feedback {
  import opened Wrappers
  import opened Text

  /** The admin car list, where the add and edit pages return after a save. */
  const CarsPath := "/admin/cars"

  /** A settled insert, update or delete; a failure may carry `error.message`. */
  datatype MutationResult = Succeeded | Failed(message: Option<string>)

  datatype Effect =
    | ToastSuccess(text: string)
    | ToastError(text: string)
    | Navigate(path: string)
    | Invalidate(queryKey: string)

  /**
   * The effects of a settled mutation: the success effects, or one error toast
   * showing `error.message || fallback`.
   */
  function Settle(result: MutationResult, onSuccess: seq<Effect>, fallback: string): (r: seq<Effect>)
    ensures result.Succeeded? ==> r == onSuccess
    ensures result.Failed? ==> r == [ToastError(OrElse(result.message, fallback))]
    ensures result.Failed? && fallback != "" ==> r[0].text != ""
  {
    match result
    case Succeeded => onSuccess
    case Failed(message) => [ToastError(OrElse(message, fallback))]
  }
}
