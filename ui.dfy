/** The feedback widgets several screens share. */
module Ui {

  /** The two colours an alert comes in. */
  datatype Severity = Success | Error

  /** A snackbar: shown or not, with its text and severity. */
  datatype Snackbar = Snackbar(open: bool, message: string, severity: Severity)

  /** The initial snackbar state of the list screens. */
  const Hidden := Snackbar(false, "", Success)
}
