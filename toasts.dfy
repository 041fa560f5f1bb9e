/** The toast notifications (sonner's `toast.success`, `toast.error`, `toast.info`) the pages raise. */
module Toasts {
  datatype Toast = Success(text: string) | Error(text: string) | Info(text: string)
}
