/** Shapes shared by the pages: optional values (JavaScript's `undefined`
    and `null`), toast notifications, and react-router navigations with the
    `location.state` object they carry. */
module Ui {

  datatype Option<+T> = None | Some(value: T)

  datatype ToastKind = Success | Error

  /** One toast notification as a page shows it. */
  datatype Toast = Toast(kind: ToastKind, message: string)

  /** `location.state.from`: the location a visitor was on when sent to sign in. */
  datatype From = From(pathname: Option<string>)

  /** The `location.state` object passed along with a navigation. */
  datatype LocState = LocState(from: Option<From>, email: Option<string>)

  /** A `navigate(path, { state })` call. */
  datatype Navigation = Navigation(path: string, state: Option<LocState>)

  /** `navigate(path)` with no state. */
  function GoTo(path: string): Navigation {
    Navigation(path, None)
  }
}
