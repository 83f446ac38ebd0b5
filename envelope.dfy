/** The outbound side of the Open Floor protocol as the client builds it with
    the `openfloor` library: envelopes, their events and the text feature of
    an utterance, and the JSON shape under which they travel. */
module Envelopes {
  import opened PyJson

  datatype Conversation = Conversation(id: string)
  datatype Sender = Sender(speakerUri: string)
  datatype To = To(serviceUrl: string)

  /** Outbound text always travels as a list of values. */
  datatype TextFeature = TextFeature(values: seq<string>)

  /** The features of a dialog event, in insertion order, keyed by name ("text"). */
  datatype DialogEvent = DialogEvent(speakerUri: string, features: seq<(string, TextFeature)>)

  datatype Event =
    | GetManifestsEvent(to: To)
    | UtteranceEvent(dialogEvent: DialogEvent, to: To)

  datatype Envelope = Envelope(conversation: Conversation, sender: Sender, events: seq<Event>)

  /** The event kinds as they are written on the wire. */
  const GetManifestsType := "getManifests"
  const UtteranceType := "utterance"
  const PublishManifestsType := "publishManifests"

  function FeatureJson(f: TextFeature): Json
  {
    Obj([("values", Arr(StrList(f.values)))])
  }

  function FeaturesJson(fs: seq<(string, TextFeature)>): (r: seq<(string, Json)>)
    ensures |r| == |fs|
    ensures forall i :: 0 <= i < |fs| ==> r[i] == (fs[i].0, FeatureJson(fs[i].1))
  {
    if fs == [] then [] else [(fs[0].0, FeatureJson(fs[0].1))] + FeaturesJson(fs[1..])
  }

  /** An event in its wire form: `eventType`, `to` and `parameters`. */
  function EventJson(e: Event): Json
  {
    var to := ("to", Obj([("serviceUrl", Str(e.to.serviceUrl))]));
    match e
    case GetManifestsEvent(_) =>
      Obj([("eventType", Str(GetManifestsType)), to, ("parameters", Obj([]))])
    case UtteranceEvent(d, _) =>
      var dialog := Obj([("speakerUri", Str(d.speakerUri)), ("features", Obj(FeaturesJson(d.features)))]);
      Obj([("eventType", Str(UtteranceType)), to, ("parameters", Obj([("dialogEvent", dialog)]))])
  }

  function EventsJson(es: seq<Event>): (r: seq<Json>)
    ensures |r| == |es|
    ensures forall i :: 0 <= i < |es| ==> r[i] == EventJson(es[i])
  {
    if es == [] then [] else [EventJson(es[0])] + EventsJson(es[1..])
  }

  /** The payload `{"openFloor": envelope}` in its wire form. */
  function PayloadJson(e: Envelope): Json
  {
    Obj([("openFloor", Obj([
      ("conversation", Obj([("id", Str(e.conversation.id))])),
      ("sender", Obj([("speakerUri", Str(e.sender.speakerUri))])),
      ("events", Arr(EventsJson(e.events)))]))])
  }
}
