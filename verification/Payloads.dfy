/** Payloads and the two schema checks a stage runner makes at its queues. */
module Payloads {
  import opened Options

  /** A payload as the runners see it: its schema id ("" when unset) and its bytes. */
  datatype Payload = Payload(schemaId: string, data: seq<nat>)

  /** ValidateInputSchema: may a payload taken from a queue with this schema be processed? */
  predicate AcceptsInput(queueSchema: string, p: Payload)
  {
    queueSchema == "" || (p.schemaId != "" && p.schemaId == queueSchema)
  }

  /** ApplyOutputSchema: the payload to enqueue, or None when it is a schema error. */
  function Stamp(queueSchema: string, p: Payload): (r: Option<Payload>)
    ensures r.Some? ==> AcceptsInput(queueSchema, r.value) && r.value.data == p.data
    ensures r.Some? ==> r.value.schemaId == if queueSchema == "" then p.schemaId else queueSchema
    ensures r.None? <==> queueSchema != "" && p.schemaId != "" && p.schemaId != queueSchema
  {
    if queueSchema == "" then Some(p)
    else if p.schemaId == "" then Some(p.(schemaId := queueSchema))
    else if p.schemaId != queueSchema then None
    else Some(p)
  }

  /** What input validation accepts is exactly what output stamping would leave as it is. */
  lemma AcceptedExactly(queueSchema: string, p: Payload)
    ensures AcceptsInput(queueSchema, p) <==> Stamp(queueSchema, p) == Some(p)
  {
  }
}
