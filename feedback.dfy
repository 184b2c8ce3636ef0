/** The user-facing side effects the screens produce, recorded instead of shown. */
module Feedback {
  datatype Alert =
    /** `Alert.alert(title, message)`: a dialog with both texts (a missing
        message is empty). */
    | Alert(title: string, message: string)
    /** The global `alert(text)`, which takes a single argument: React Native
        shows it as `Alert.alert("Alert", text)`, and any further argument is
        dropped, so only the first one is recorded. */
    | GlobalAlert(text: string)

  /** The title and the message of the dialog an alert puts on screen. */
  function Shown(a: Alert): (d: (string, string))
    ensures a.Alert? ==> d == (a.title, a.message)
    ensures a.GlobalAlert? ==> d == ("Alert", a.text)
  {
    match a
    case Alert(t, m) => (t, m)
    case GlobalAlert(x) => ("Alert", x)
  }

  /** A global alert called with a title and a message shows the title as its
      text under the fixed heading "Alert", so it never looks like the
      `Alert.alert` call with the same arguments (unless the title is "Alert"
      and so is the message). */
  lemma GlobalAlertDropsMessage(title: string, message: string)
    ensures Shown(GlobalAlert(title)) == ("Alert", title)
    ensures Shown(GlobalAlert(title)) == Shown(Alert(title, message)) <==> title == "Alert" && message == "Alert"
  {
  }
}
