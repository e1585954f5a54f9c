/** What the screens show the user without changing their data. */
module Ui {
  /** An `Alert.alert(title, message)` dialog. */
  datatype Alert = Alert(title: string, message: string)

  /** A modal's Save either shows an alert and stays open, or hands the form to the screen. */
  datatype Saved<F> = Refused(alert: Alert) | Submitted(form: F)
}
