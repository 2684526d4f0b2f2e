/** What a page shows the user besides its own markup: `react-toastify`
    notifications. */
module Ui {
  datatype Toast = SuccessToast(msg: string) | ErrorToast(msg: string)
}
