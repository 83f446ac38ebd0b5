/** `OpenFloorClient`: a fixed identity, two protocol operations (manifest
    discovery and one utterance exchange) and the manifest renderer. */
module OpenFloor {
  import opened PyJson
  import opened Envelopes
  import opened ResponseInterpreter
  import opened ManifestFormat

  const DefaultServiceUrl := "http://localhost:3000/"

  /** Eight lower-case hexadecimal digits, as `uuid4().hex[:8]` yields. */
  predicate IsHex8(s: string)
  {
    |s| == 8 && forall i :: 0 <= i < |s| ==> s[i] in "0123456789abcdef"
  }

  /** Python's `given or fallback` on an optional string. */
  function OrDefault(given: Option<string>, fallback: string): (r: string)
    ensures given.Some? && given.value != "" ==> r == given.value
    ensures given.None? || given.value == "" ==> r == fallback
  {
    match given
    case Some(s) => if s != "" then s else fallback
    case None => fallback
  }

  /** `prefix` followed by the lines of `t`, or the exception of `t`. */
  function Prepend(prefix: seq<string>, t: Try<seq<string>>): Try<seq<string>>
  {
    match t
    case Ok(rest) => Ok(prefix + rest)
    case Raised => Raised
  }

  lemma PrependTwice(a: seq<string>, b: seq<string>, t: Try<seq<string>>)
    ensures Prepend(a, Prepend(b, t)) == Prepend(a + b, t)
  {
    if t.Ok? {
      assert a + (b + t.value) == (a + b) + t.value;
    }
  }

  class OpenFloorClient {
    const speakerUri: string
    const serviceUrl: string
    const conversationId: string

    /** The identity is fixed here and never reassigned (the fields are
        constants).  The random hexadecimal suffixes are parameters. */
    constructor (givenSpeakerUri: Option<string>, givenServiceUrl: Option<string>,
                 speakerHex: string, conversationHex: string)
      requires IsHex8(speakerHex) && IsHex8(conversationHex)
      ensures speakerUri == OrDefault(givenSpeakerUri, "client:" + speakerHex)
      ensures serviceUrl == OrDefault(givenServiceUrl, DefaultServiceUrl)
      ensures conversationId == "conv_" + conversationHex
      ensures speakerUri != "" && serviceUrl != "" && |conversationId| == 13
    {
      speakerUri := OrDefault(givenSpeakerUri, "client:" + speakerHex);
      serviceUrl := OrDefault(givenServiceUrl, DefaultServiceUrl);
      conversationId := "conv_" + conversationHex;
    }

    /** `_create_envelope`: the events as given, sent by this client, in the
        freshly made conversation (never `conversationId`). */
    function CreateEnvelope(events: seq<Event>, conversation: Conversation): (e: Envelope)
      ensures e.events == events
      ensures e.sender == Sender(speakerUri)
      ensures e.conversation == conversation
    {
      Envelope(conversation, Sender(speakerUri), events)
    }

    /** The envelope `get_manifest` sends: one getManifests event to the agent. */
    function ManifestRequest(agentUrl: string, conversation: Conversation): (e: Envelope)
      ensures |e.events| == 1 && e.events[0] == GetManifestsEvent(To(agentUrl))
      ensures e.sender.speakerUri == speakerUri
    {
      CreateEnvelope([GetManifestsEvent(To(agentUrl))], conversation)
    }

    /** The envelope `send_message` sends: one utterance to the agent whose
        text feature carries exactly the message, in this client's voice. */
    function MessageRequest(agentUrl: string, message: string, conversation: Conversation): (e: Envelope)
      ensures |e.events| == 1 && e.events[0].UtteranceEvent?
      ensures e.events[0].to.serviceUrl == agentUrl
      ensures e.events[0].dialogEvent.speakerUri == speakerUri && e.sender.speakerUri == speakerUri
      ensures e.events[0].dialogEvent.features == [("text", TextFeature([message]))]
    {
      var dialogEvent := DialogEvent(speakerUri, [("text", TextFeature([message]))]);
      CreateEnvelope([UtteranceEvent(dialogEvent, To(agentUrl))], conversation)
    }

    /** `get_manifest(agent_url)`: sends the manifest request through
        `exchange` and scans the reply for the first publishManifests event
        with a non-empty manifest list. */
    method GetManifest(agentUrl: string, conversation: Conversation, exchange: (Envelope, string) -> Response)
      returns (sent: Envelope, result: Reply<Json>)
      ensures sent == ManifestRequest(agentUrl, conversation)
      ensures result == ManifestOutcome(exchange(sent, agentUrl))
    {
      var request := GetManifestsEvent(To(agentUrl));
      sent := CreateEnvelope([request], conversation);
      var response := exchange(sent, agentUrl);
      if response.TransportError? {
        return sent, Invalid;
      }
      var listed := EventList(response.body);
      if listed.Raised? || listed.value.None? {
        return sent, Invalid;
      }
      var events := listed.value.value;
      var i := 0;
      while i < |events|
        invariant 0 <= i <= |events|
        invariant FirstPicked(events, ManifestsIn) == FirstPicked(events[i..], ManifestsIn)
      {
        var event := events[i];
        assert events[i..][0] == event && events[i..][1..] == events[i + 1..];
        var eventType := Get(event, "eventType", Null);
        if eventType.Raised? {
          return sent, Invalid;
        }
        if eventType.value == Str(PublishManifestsType) {
          var parameters := Get(event, "parameters", Obj([]));
          if parameters.Raised? {
            return sent, Invalid;
          }
          var manifests := Get(parameters.value, "servicingManifests", Arr([]));
          if manifests.Raised? {
            return sent, Invalid;
          }
          if Truthy(manifests.value) {
            if Len(manifests.value).Raised? {
              return sent, Invalid;
            }
            return sent, Found(manifests.value);
          }
        }
        i := i + 1;
      }
      result := NotFound;
    }

    /** `send_message(agent_url, message)`: sends the utterance through
        `exchange` and scans the reply for the first utterance whose text is
        non-empty. */
    method SendMessage(agentUrl: string, message: string, conversation: Conversation,
                       exchange: (Envelope, string) -> Response, show: Json -> string)
      returns (sent: Envelope, result: Reply<Json>)
      ensures sent == MessageRequest(agentUrl, message, conversation)
      ensures result == ReplyOutcome(exchange(sent, agentUrl), show)
    {
      var feature := TextFeature([message]);
      var dialog := DialogEvent(speakerUri, [("text", feature)]);
      var utterance := UtteranceEvent(dialog, To(agentUrl));
      sent := CreateEnvelope([utterance], conversation);
      var response := exchange(sent, agentUrl);
      if response.TransportError? {
        return sent, Invalid;
      }
      var listed := EventList(response.body);
      if listed.Raised? || listed.value.None? {
        return sent, Invalid;
      }
      var events := listed.value.value;
      var pick := TextPick(show);
      var i := 0;
      while i < |events|
        invariant 0 <= i <= |events|
        invariant FirstPicked(events, pick) == FirstPicked(events[i..], pick)
      {
        var event := events[i];
        assert events[i..][0] == event && events[i..][1..] == events[i + 1..];
        var eventType := Get(event, "eventType", Null);
        if eventType.Raised? {
          return sent, Invalid;
        }
        if eventType.value == Str(UtteranceType) {
          var parameters := Get(event, "parameters", Obj([]));
          if parameters.Raised? {
            return sent, Invalid;
          }
          var dialogEvent := Get(parameters.value, "dialogEvent", Obj([]));
          if dialogEvent.Raised? {
            return sent, Invalid;
          }
          var features := Get(dialogEvent.value, "features", Obj([]));
          if features.Raised? {
            return sent, Invalid;
          }
          var textFeature := Get(features.value, "text", Obj([]));
          if textFeature.Raised? {
            return sent, Invalid;
          }
          var text := ResolveText(textFeature.value, show);
          if text.Raised? {
            return sent, Invalid;
          }
          if Truthy(text.value) {
            return sent, Found(text.value);
          }
        }
        i := i + 1;
      }
      result := NotFound;
    }

    /** `format_manifest(manifests)`: appends the lines of each manifest in
        turn and joins them with newlines; an exception is not caught. */
    method FormatManifest(manifests: Json, show: Json -> string) returns (r: Try<string>)
      ensures r == FormatManifests(manifests, show)
    {
      if !Truthy(manifests) {
        return Ok(NoManifests);
      }
      var iterated := Iter(manifests);
      if iterated.Raised? {
        return Raised;
      }
      var items := iterated.value;
      var formatted: seq<string> := [];
      var i := 0;
      assert items[i..] == items;
      assert Prepend([], AllManifestLines(items, 1, show)) == AllManifestLines(items, 1, show) by {
        if AllManifestLines(items, 1, show).Ok? {
          assert [] + AllManifestLines(items, 1, show).value == AllManifestLines(items, 1, show).value;
        }
      }
      while i < |items|
        invariant 0 <= i <= |items|
        invariant AllManifestLines(items, 1, show) == Prepend(formatted, AllManifestLines(items[i..], i + 1, show))
      {
        assert items[i..][0] == items[i] && items[i..][1..] == items[i + 1..];
        var appended := AppendManifest(formatted, i + 1, items[i], show);
        if appended.Raised? {
          assert AllManifestLines(items[i..], i + 1, show) == Raised;
          assert AllManifestLines(items, 1, show) == Raised;
          return Raised;
        }
        PrependTwice(formatted, ManifestLines(i + 1, items[i], show).value, AllManifestLines(items[i + 1..], i + 2, show));
        formatted := appended.value;
        i := i + 1;
      }
      assert items[i..] == [];
      assert AllManifestLines(items, 1, show) == Ok(formatted + []);
      assert formatted + [] == formatted;
      r := Ok(Join("\n", formatted));
    }
  }

  /** The body of `format_manifest`'s outer loop: the header of manifest `k`,
      its identification and its capabilities, appended to `formatted`. */
  method AppendManifest(formatted: seq<string>, k: nat, manifest: Json, show: Json -> string)
    returns (r: Try<seq<string>>)
    ensures r == Prepend(formatted, ManifestLines(k, manifest, show))
  {
    var lines := formatted + [Header(k)];
    var identification := Get(manifest, "identification", Obj([]));
    if identification.Raised? {
      return Raised;
    }
    ghost var identity: seq<string> := [];
    if Truthy(identification.value) {
      var shown := IdentificationLines(identification.value, show);
      if shown.Raised? {
        return Raised;
      }
      lines, identity := lines + shown.value, shown.value;
    }
    var capabilities := Get(manifest, "capabilities", Arr([]));
    if capabilities.Raised? {
      return Raised;
    }
    if Truthy(capabilities.value) {
      var count := Len(capabilities.value);
      if count.Raised? {
        return Raised;
      }
      lines := lines + ["  Capabilities: " + NatToString(count.value)];
      var listed := Iter(capabilities.value);
      if listed.Raised? {
        return Raised;
      }
      ghost var before := lines;
      r := AppendCapabilities(lines, listed.value, show);
      if r.Ok? {
        var rest := CapabilitiesLines(listed.value, 1, show).value;
        assert r.value == formatted + ([Header(k)] + identity + ["  Capabilities: " + NatToString(count.value)] + rest);
      }
      return;
    }
    assert lines == formatted + ([Header(k)] + identity);
    r := Ok(lines);
  }

  /** The inner loop of `format_manifest`: the lines of every capability,
      numbered from 1, appended to `formatted`. */
  method AppendCapabilities(formatted: seq<string>, capabilities: seq<Json>, show: Json -> string)
    returns (r: Try<seq<string>>)
    ensures r == Prepend(formatted, CapabilitiesLines(capabilities, 1, show))
  {
    var lines := formatted;
    var j := 0;
    assert capabilities[j..] == capabilities;
    assert lines[|formatted|..] == [];
    assert Prepend([], CapabilitiesLines(capabilities, 1, show)) == CapabilitiesLines(capabilities, 1, show) by {
      if CapabilitiesLines(capabilities, 1, show).Ok? {
        assert [] + CapabilitiesLines(capabilities, 1, show).value == CapabilitiesLines(capabilities, 1, show).value;
      }
    }
    while j < |capabilities|
      invariant 0 <= j <= |capabilities|
      invariant |formatted| <= |lines| && lines[..|formatted|] == formatted
      invariant CapabilitiesLines(capabilities, 1, show) ==
        Prepend(lines[|formatted|..], CapabilitiesLines(capabilities[j..], j + 1, show))
    {
      var capability := capabilities[j];
      assert capabilities[j..][0] == capability && capabilities[j..][1..] == capabilities[j + 1..];
      var shown := CapabilityLines(j + 1, capability, show);
      if shown.Raised? {
        assert CapabilitiesLines(capabilities[j..], j + 1, show) == Raised;
        return Raised;
      }
      ghost var done := lines[|formatted|..];
      PrependTwice(done, shown.value, CapabilitiesLines(capabilities[j + 1..], j + 2, show));
      lines := lines + shown.value;
      assert lines[|formatted|..] == done + shown.value;
      j := j + 1;
    }
    assert capabilities[j..] == [];
    ghost var done := lines[|formatted|..];
    assert CapabilitiesLines(capabilities, 1, show) == Ok(done + []);
    assert done + [] == done;
    assert lines == formatted + done;
    r := Ok(lines);
  }

  /** The envelope carries the sender's identity but not the client's
      conversation id: clients differing only there send the same envelope. */
  lemma EnvelopeIgnoresConversationId(a: OpenFloorClient, b: OpenFloorClient, events: seq<Event>, conversation: Conversation)
    requires a.speakerUri == b.speakerUri
    ensures a.CreateEnvelope(events, conversation) == b.CreateEnvelope(events, conversation)
  {
  }

  /** An agent that echoes the payload of `send_message` makes the client
      return its own message, or the no-response sentinel for "". */
  lemma EchoedMessageRequest(c: OpenFloorClient, agentUrl: string, message: string,
                             conversation: Conversation, show: Json -> string)
    ensures ParseReply(PayloadJson(c.MessageRequest(agentUrl, message, conversation)), show) ==
      if message == "" then NotFound else Found(Str(message))
  {
    var e := c.MessageRequest(agentUrl, message, conversation);
    PayloadEvents(e);
    var event := EventJson(e.events[0]);
    assert EventsJson(e.events) == [event];
    EchoedUtterance(c.speakerUri, agentUrl, message, show);
    assert TextPick(show)(event) == TextIn(event, show);
    assert [event][1..] == [];
    assert FirstPicked([event], TextPick(show)) ==
      if message == "" then Ok(None) else Ok(Some(Str(message)));
  }

  /** An agent that echoes the payload of `get_manifest` makes the client
      return `[]`: its own request publishes no manifests. */
  lemma EchoedManifestPayload(c: OpenFloorClient, agentUrl: string, conversation: Conversation)
    ensures ParseManifests(PayloadJson(c.ManifestRequest(agentUrl, conversation))) == NotFound
  {
    var e := c.ManifestRequest(agentUrl, conversation);
    PayloadEvents(e);
    var event := EventJson(e.events[0]);
    assert EventsJson(e.events) == [event];
    EchoedManifestRequest(agentUrl);
    assert [event][1..] == [];
    assert FirstPicked([event], ManifestsIn) == Ok(None);
  }
}
