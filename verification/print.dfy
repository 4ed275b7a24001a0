/*******************************************************************************
 *  `PrintStream`: each envelope is printed as one line of JSON on stdout.
 *  Stdout is modelled as the list of lines printed so far.
 *******************************************************************************/

module Print {
  import opened Primitives
  import opened Envelope
  import opened Streams

  datatype PrintStream = PrintStream(stdout: seq<string>)

  /** `send_envelope`: prints the envelope's JSON and succeeds, or prints
      nothing and fails when serialization fails. */
  function SendEnvelope<T>(p: PrintStream, ser: Serializer<T>, render: Render, e: StreamEnvelope<T>)
    : (res: (PrintStream, Result<(), StreamError>))
    ensures res.1.Ok? <==> ser(e.data).Ok?
    ensures res.1.Ok? ==> res.0.stdout == p.stdout + [EnvelopeText(ser, render, e).value]
    ensures res.1.Err? ==> res.0 == p && res.1.error == SendError(SERIALIZE_FAILED + ser(e.data).error)
  {
    match EnvelopeText(ser, render, e)
    case Ok(json) => (p.(stdout := p.stdout + [json]), Ok(()))
    case Err(err) => (p, Err(err))
  }

  /** `send`: wraps the payload in an envelope with the label and sends it. */
  function Send<T>(p: PrintStream, ser: Serializer<T>, render: Render, dataType: string, data: T)
    : (res: (PrintStream, Result<(), StreamError>))
    ensures res.1.Ok? <==> ser(data).Ok?
    ensures res.1.Ok? ==> res.0.stdout == p.stdout + [render(Object([("type", String(dataType)), ("data", ser(data).value)]))]
    ensures res.1.Err? ==> res.0 == p
  {
    SendEnvelope(p, ser, render, New(dataType, data))
  }
}
