/**
 The wire envelope exchanged with a peer, the session description it carries,
 and the JSON codec the dispatcher relies on.

 The JSON library is foreign code: it is modelled as a record of four total
 functions (`Json`), each of which may fail, and every operation that needs it
 takes it as a parameter. Properties that depend on the codec behaving well
 (decode undoes encode) are stated as explicit hypotheses.
 */
module Protocol {

  type Bytes = seq<bv8>

  datatype Option<T> = None | Some(value: T)

  /** The errors the core can produce: a codec failure, or a registry lookup miss. */
  datatype Error = JsonError(detail: string) | InvalidServer

  /** The errors the codec, and so a negotiation, can fail with: never a lookup miss. */
  type CodecError = e: Error | e.JsonError? witness JsonError("")

  datatype Result<+T, +E> = Ok(value: T) | Err(error: E)

  /** The envelope: a correlation id and the opaque, already encoded payload. */
  datatype Message = Message(id: string, payload: Bytes)

  /** A WebRTC session description; the core never looks inside it. */
  datatype SdpType = Offer | PrAnswer | Answer | Rollback
  datatype SessionDescription = SessionDescription(sdpType: SdpType, sdp: string)

  /** The JSON codec: encoding and decoding of descriptions and of envelopes. */
  datatype Json = Json(
    marshalDescription: SessionDescription -> Result<Bytes, CodecError>,
    unmarshalDescription: Bytes -> Result<SessionDescription, CodecError>,
    marshalMessage: Message -> Result<Bytes, CodecError>,
    unmarshalMessage: Bytes -> Result<Message, CodecError>)

  /** Decoding an envelope that encoded successfully gives back that envelope. */
  ghost predicate EnvelopeRoundTrips(json: Json) {
    forall m :: json.marshalMessage(m).Ok? ==> json.unmarshalMessage(json.marshalMessage(m).value) == Ok(m)
  }

  /** Decoding a description that encoded successfully gives back that description. */
  ghost predicate DescriptionRoundTrips(json: Json) {
    forall sd :: json.marshalDescription(sd).Ok? ==>
      json.unmarshalDescription(json.marshalDescription(sd).value) == Ok(sd)
  }

  /**
   Encodes `sd`, wraps the bytes in an envelope carrying `id` and encodes the
   envelope. The first failure is returned as it is.
   */
  function MarshalMessage(json: Json, id: string, sd: SessionDescription): (r: Result<Bytes, CodecError>)
    ensures r.Ok? <==>
      json.marshalDescription(sd).Ok? &&
      json.marshalMessage(Message(id, json.marshalDescription(sd).value)).Ok?
    ensures json.marshalDescription(sd).Err? ==> r == Err(json.marshalDescription(sd).error)
    ensures json.marshalDescription(sd).Ok? && r.Err? ==>
      r.error == json.marshalMessage(Message(id, json.marshalDescription(sd).value)).error
    ensures EnvelopeRoundTrips(json) && r.Ok? ==>
      json.unmarshalMessage(r.value) == Ok(Message(id, json.marshalDescription(sd).value))
  {
    match json.marshalDescription(sd)
    case Err(e) => Err(e)
    case Ok(b) => json.marshalMessage(Message(id, b))
  }

  /**
   With a well-behaved codec, the frame built for `id` and `sd` decodes to an
   envelope carrying `id` whose payload decodes back to `sd`.
   */
  lemma MarshalMessageRoundTrip(json: Json, id: string, sd: SessionDescription)
    requires EnvelopeRoundTrips(json) && DescriptionRoundTrips(json)
    requires MarshalMessage(json, id, sd).Ok?
    ensures json.unmarshalMessage(MarshalMessage(json, id, sd).value).Ok?
    ensures json.unmarshalMessage(MarshalMessage(json, id, sd).value).value.id == id
    ensures json.unmarshalDescription(json.unmarshalMessage(MarshalMessage(json, id, sd).value).value.payload) == Ok(sd)
  {
  }
}
