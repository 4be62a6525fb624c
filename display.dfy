/** What the components put on screen, as far as the model follows it. */
module Display {
  import opened Values

  /** `toast.success(text)` and `toast.error(text)`; an error toast may be raised with `undefined`. */
  datatype Toast = ToastSuccess(text: string) | ToastError(message: Option<string>)

  /** The body of a course table: the error, the rows, the empty-table message, or a render
      that throws. */
  datatype Body = ShowError(text: string) | ShowRows(rows: seq<Record>) | ShowEmpty(text: string) | Crash
}
