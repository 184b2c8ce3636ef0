/** The session record the screens read, and the payload the sign-up flows hand to
    `saveSession`. The session store that owns the record is not part of this model:
    a session is an input (`None` stands for a `null` session). */
module Sessions {
  import opened JsValues

  /** The fields of the session object the screens read; a missing field is `Undefined`. */
  datatype Session = Session(
    clientId: JVal,
    userId: JVal,
    clientTypeId: JVal,
    loginKey: JVal,
    unit: JVal,
    officeId: JVal,
    officeNumber: JVal)

  /** The object passed to `saveSession` by the sign-up flows. */
  datatype SessionPayload = SessionPayload(
    firstName: JVal,
    clientId: string,
    clientTypeId: int,
    email: JVal,
    mobileNumber: JVal)

  /** One call of `saveSession`: `saveSession(null)` on logout, or a new session. */
  datatype SessionWrite = Cleared | Saved(payload: SessionPayload)
}
