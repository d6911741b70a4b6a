/** `Payload`: the message body a run publishes and its size check. */
module Payloads {
  import opened Wrappers

  datatype Payload = Payload(payloadSize: int, payloadFile: string, payloadData: seq<bv8>)

  /**
   * The constructor: stores the declared size and the file name as given and loads
   * the bytes with the reader. The reader is an external collaborator, so it is a
   * parameter.
   */
  function NewPayload(payloadSize: int, payloadFileName: string, load: string -> seq<bv8>): (p: Payload)
    ensures p.payloadSize == payloadSize && p.payloadFile == payloadFileName
    ensures p.payloadData == load(payloadFileName)
  {
    Payload(payloadSize, payloadFileName, load(payloadFileName))
  }

  /** The `PayloadException`; its message reports the actual length, then the expected size. */
  datatype PayloadError = LengthMismatch(actual: int, expected: int)

  /** `validate()`: succeeds iff the declared size equals the loaded length. */
  function Validate(p: Payload): (r: Outcome<PayloadError>)
    ensures r.Pass? <==> p.payloadSize == |p.payloadData|
    ensures r.Fail? ==> r.error.actual == |p.payloadData| && r.error.expected == p.payloadSize
  {
    if p.payloadSize != |p.payloadData| then Fail(LengthMismatch(|p.payloadData|, p.payloadSize)) else Pass
  }

  /** A freshly loaded payload validates exactly when the reader returned the declared number of bytes. */
  lemma NewPayloadValidates(payloadSize: int, payloadFileName: string, load: string -> seq<bv8>)
    ensures Validate(NewPayload(payloadSize, payloadFileName, load)).Pass? <==> |load(payloadFileName)| == payloadSize
  {
  }
}
