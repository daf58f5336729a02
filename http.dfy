/** The routes' JSON answers: a status code and a JSON body. */
module Http {
  import opened Wrappers
  import opened Json

  datatype Reply = Reply(status: int, body: Value)

  /** `NextResponse.json({ error: message }, { status })` */
  function Error(status: int, message: string): (r: Reply)
    ensures r.status == status && Property(r.body, "error") == Some(JStr(message))
  {
    Reply(status, JObj([Member("error", JStr(message))]))
  }

  /** An exception the handler does not catch: the framework answers 500
      with a body of its own, not modelled. */
  const Unhandled: Reply := Reply(500, JNull)

  /** `NextResponse.json({ ok: true })` */
  const Ok: Reply := Reply(200, JObj([Member("ok", JBool(true))]))
}
