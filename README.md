# Open Floor client, modelled in Dafny

This project models `OpenFloorClient` from the Open Floor chat client
(`openfloor_client.py`). The class
builds Open Floor request envelopes, hands them to an HTTP transport, and
reads the JSON that comes back. The model has six modules:

- `PyJson` (`py_json.dfy`): decoded JSON (`Null`, `Bool`, `Int`, `Str`, `Arr`,
  `Obj` as a sequence of key-value pairs) and the Python operations the client
  applies to it. These are `in`, `.get`, `x['k']`, `x[0]`, iteration, `len`,
  truthiness and `str.join`. Every case that Python answers with an exception
  yields `Raised`. For example, `'openFloor' in` a list tests membership and
  the subscript that follows then raises. Iterating a dictionary visits its
  keys. A dictionary lookup takes the last duplicated key, as `json.loads`
  does.
- `Envelopes` (`envelope.dfy`): `Envelope`, `Event` (`GetManifestsEvent`,
  `UtteranceEvent`), `DialogEvent`, `TextFeature`, `To`, `Sender`,
  `Conversation`, and the JSON shape events travel in. That shape lets the
  model state what the client makes of an agent that echoes its own payload.
- `ResponseInterpreter` (`interpreter.dfy`): response interpretation. A
  generic first-match scan (`FirstPicked`) is instantiated with the
  per-event step of `get_manifest` (`ManifestsIn`) and of `send_message`
  (`TextIn`, which uses the text-feature precedence `ResolveText`). Every
  outcome is a three-way `Reply`:
  - `Found(v)`: the value returned.
  - `NotFound`: `[]` for manifests, or the string `"Agent sent no response"`.
  - `Invalid`: Python's `None`, for a missing `openFloor` key, any exception,
    or a transport failure.
- `ManifestFormat` (`format.dfy`): the text `format_manifest` renders.
- `OpenFloor` (`client.dfy`): the class `OpenFloorClient`. Its identity fields
  are constants set by the constructor. `GetManifest`, `SendMessage` and
  `FormatManifest` are methods whose loops mirror the source's loops. Each is
  proved equal to the corresponding specification function.
- `Scenarios` (`scenarios.dfy`): concrete responses and what the client
  returns for each: a `values` list, a token stream, a scalar `value`, an
  utterance without text, an envelope without events, a `publishManifests`
  event with an empty list, and one whose `servicingManifests` is a number or
  `true`.

The transport is a parameter `exchange: (Envelope, string) -> Response`. A
`Response` is `Received(json)` or `TransportError`. The second case covers
the network errors and the invalid-JSON error that `_send_envelope`
re-raises. The fresh `Conversation()` put into each envelope is a parameter,
and so are the two random hexadecimal suffixes of the constructor.

Where the code and the protocol's intended design disagree, the model follows
the code:

- **Manifest event name.** Only the exact eventType `publishManifests` is
  accepted. The singular synonym is not.
- **Empty reply text.** An utterance whose text resolves to `""` is skipped.
  A response that has only such utterances gives the no-response sentinel,
  not `""` (`Scenarios.EmptyFeaturesIsNoResponse`).
- **Errors.** In `get_manifest` and `send_message`, every error is caught and
  the operation returns `None`; no error reaches the caller. `format_manifest`
  catches nothing, so its exceptions reach the caller.
- **Outbound text.** An empty outbound message is not rejected.
- **Conversation id.** The client's `conversation_id` never enters the
  envelope (`OpenFloor.EnvelopeIgnoresConversationId`).

## Model

| member | source | states |
|---|---|---|
| `OpenFloor.OpenFloorClient.constructor` | openfloor_client.py:24-27 | a `None` or empty speaker URI becomes `client:` plus the 8-hex suffix; a `None` or empty service URL becomes `http://localhost:3000/`; the conversation id is `conv_` plus 8 hex digits; the fields are constants, never reassigned |
| `OpenFloor.OrDefault` | openfloor_client.py:25-26 | Python's `x or default` on an optional string: a non-empty given value is kept, otherwise the default |
| `OpenFloor.OpenFloorClient.CreateEnvelope` | openfloor_client.py:34-46 | the envelope carries the events unchanged and in order, the client's speaker URI as sender, and the fresh conversation |
| `OpenFloor.EnvelopeIgnoresConversationId` | openfloor_client.py:37-43 | the envelope does not depend on the client's `conversation_id` |
| `OpenFloor.OpenFloorClient.ManifestRequest` | openfloor_client.py:88-93 | exactly one getManifests event, addressed to `agent_url`, sent as this client |
| `OpenFloor.OpenFloorClient.MessageRequest` | openfloor_client.py:131-146 | exactly one utterance event, addressed to `agent_url`. Its dialog speaker and the envelope sender are the client's speaker URI. Its only feature is `text` with `values == [message]` |
| `OpenFloor.OpenFloorClient.GetManifest` | openfloor_client.py:86-118 | sends exactly the manifest request to `agent_url` through the transport; its loop returns what `ManifestOutcome` of the transport's answer is, including None when `len(manifests)` in the progress message raises |
| `OpenFloor.OpenFloorClient.SendMessage` | openfloor_client.py:129-182 | sends exactly the message request to `agent_url`; its loop returns what `ReplyOutcome` of the transport's answer is |
| `OpenFloor.OpenFloorClient.FormatManifest` | openfloor_client.py:185-212 | its loop computes exactly `FormatManifests`, exceptions included |
| `OpenFloor.AppendManifest` | openfloor_client.py:191-210 | one pass of the outer loop appends exactly the lines of manifest `k`, or raises |
| `OpenFloor.AppendCapabilities` | openfloor_client.py:206-210 | the inner loop appends exactly the lines of every capability, numbered from 1, or raises |
| `PyJson.KeysHaveMember` | openfloor_client.py:97 | `key in d` holds exactly when some member of the dictionary has that key |
| `PyJson.LookupIffKey` | openfloor_client.py:97-99 | `.get` finds a value exactly for the keys `in` reports |
| `PyJson.LookupIsLastBinding` | openfloor_client.py:98-104 | a lookup yields the last member with the key (duplicate keys keep the last value) |
| `PyJson.NonEmptyHasKeys` | openfloor_client.py:191 | a non-empty dictionary iterates over at least one key |
| `PyJson.ContainsIsLookup` | openfloor_client.py:162-164 | on a dictionary, `in` agrees with the lookup, and the subscript then yields the looked-up value |
| `PyJson.JoinStrings` | openfloor_client.py:166 | `str.join` succeeds exactly when every part is a string |
| `ResponseInterpreter.FirstPickedFound` | openfloor_client.py:101-108 | the scan returns `v` exactly when some event gives `v` and every earlier event is skipped |
| `ResponseInterpreter.FirstPickedNone` | openfloor_client.py:110-111 | the scan finds nothing exactly when every event is skipped |
| `ResponseInterpreter.FirstPickedRaised` | openfloor_client.py:116-118 | the scan raises exactly when some event raises and every earlier event is skipped |
| `ResponseInterpreter.NotAnEnvelopeIsInvalid` | openfloor_client.py:97-114 | anything other than a dictionary with an `openFloor` key gives None (not `[]`, not the sentinel), for both operations |
| `ResponseInterpreter.InterpretOutcomes` | openfloor_client.py:150-175 | Found and NotFound, each defined by the event list alone: the first taken event, or all events skipped |
| `ResponseInterpreter.PublishedIsTaken` | openfloor_client.py:102-108 | a `publishManifests` event with a truthy `servicingManifests` gives that list when it has a length, and raises when `len` fails on it |
| `ResponseInterpreter.SkippedEvents` | openfloor_client.py:102-106 | events of another type are skipped. So are `publishManifests` events whose list is empty or missing, and those with no `parameters` at all |
| `ResponseInterpreter.ManifestsOutcomesDistinct` | openfloor_client.py:106-114 | the manifests returned are non-empty and have a length, so they never equal the `[]` returned for "no manifests" |
| `ResponseInterpreter.NonUtteranceSkipped` | openfloor_client.py:154-155 | a dictionary event whose type is not exactly `utterance` is skipped by the reply scan |
| `ResponseInterpreter.UtteranceIsResolved` | openfloor_client.py:155-172 | an utterance whose nested entries are dictionaries or absent gives the resolved text of its text feature when that text is truthy; it is skipped when the text is falsy, and raises when resolving raises |
| `ResponseInterpreter.ReplyNeverEmpty` | openfloor_client.py:170-178 | `send_message` never returns `""`: it returns a non-empty reply, the sentinel, or None |
| `ResponseInterpreter.TokensJoin` | openfloor_client.py:164-166 | a token stream of dictionaries joins to the in-order concatenation of `value` over the tokens that have one |
| `ResponseInterpreter.ValuesFirst` | openfloor_client.py:162-163 | a non-empty `values` list gives `values[0]` |
| `ResponseInterpreter.TokensSecond` | openfloor_client.py:164-166 | when `values` is empty or absent, non-empty well-formed `tokens` give the concatenated token values |
| `ResponseInterpreter.ScalarLast` | openfloor_client.py:167-168 | when neither `values` nor `tokens` is non-empty, the text is `str(value)`, or `""` when `value` is absent |
| `ResponseInterpreter.EchoedUtterance` | openfloor_client.py:131-172 | the client's own outbound utterance, read back by the reply scan, yields the message (skipped when the message is `""`) |
| `ResponseInterpreter.PayloadEvents` | openfloor_client.py:97-101 | the event list read back from an outbound payload is the envelope's events in wire form, in order |
| `OpenFloor.EchoedMessageRequest` | openfloor_client.py:131-175 | an agent echoing the `send_message` payload gets back the message itself, or the sentinel when the message is `""` |
| `OpenFloor.EchoedManifestPayload` | openfloor_client.py:88-111 | an agent echoing the `get_manifest` payload makes the client return `[]` |
| `ResponseInterpreter.EchoedManifestRequest` | openfloor_client.py:88-106 | the outbound getManifests event is never taken as a manifest publication |
| `ManifestFormat.NatToString` | openfloor_client.py:192 | `str(n)`: a non-empty string of decimal digits, with a leading zero only for 0 |
| `ManifestFormat.DecimalRoundTrip` | openfloor_client.py:192 | reading back the rendered number gives the number |
| `ManifestFormat.NatToStringInjective` | openfloor_client.py:192 | distinct numbers render differently, so the headers are distinct |
| `ManifestFormat.ManifestHeader` | openfloor_client.py:192-210 | the lines of one manifest hold exactly one header line, its own |
| `ManifestFormat.HeadersInOrder` | openfloor_client.py:191-192 | one `Manifest k:` header per manifest, k = 1..n in list order |
| `ManifestFormat.RenderedOpensWithFirstHeader` | openfloor_client.py:187-212 | a non-empty manifest list renders as text that opens with the header of manifest 1, never as `No manifests available` |
| `ManifestFormat.IdentificationDefaults` | openfloor_client.py:195-200 | each identification line shows its entry, or `Unknown` (`No description` for the synopsis) when the entry is missing |
| `ManifestFormat.CapabilityShape` | openfloor_client.py:206-210 | a capability line shows its keyphrases joined with `, `, followed by a line for the first description only, present only when there are descriptions. A missing `keyphrases` or `descriptions` counts as `[]` |
| `ManifestFormat.ManifestLayout` | openfloor_client.py:192-210 | one manifest renders as its header, then the identification lines only when `identification` is truthy (it must then be a dictionary), then, when `capabilities` is truthy, `Capabilities: N` with N its length, followed by the numbered capability lines |
| `Scenarios.ReplyOfSingleUtterance` | openfloor_client.py:154-175 | a response with one utterance gives its resolved text when that text is non-empty, the sentinel when it is empty, None when resolving raises |
| `Scenarios.ValuesHello` | openfloor_client.py:162-163 | `values: ["hello"]` replies `"hello"` |
| `Scenarios.TokensHello` | openfloor_client.py:164-166 | tokens `he` and `llo` reply `"hello"` |
| `Scenarios.ScalarX` | openfloor_client.py:167-168 | a scalar `value: "x"` replies `"x"` |
| `Scenarios.EmptyFeaturesIsNoResponse` | openfloor_client.py:159-175 | an utterance without text features is skipped, giving the sentinel, not `""` |
| `Scenarios.NoEventsIsNoResponse` | openfloor_client.py:99-111 | an envelope without events gives `[]` and the sentinel |
| `Scenarios.UnsizedManifestsAreInvalid` | openfloor_client.py:104-118 | `servicingManifests: 5` or `true` gives None, because `len` raises in the progress message |
| `Scenarios.EmptyPublishedList` | openfloor_client.py:104-111 | a `publishManifests` event with an empty list gives `[]`, not an error |
| `PyJson.Lookup` | openfloor_client.py:98-99 | dictionary lookup, the last duplicated key winning; see `LookupIffKey`, `LookupIsLastBinding` |
| `PyJson.Keys` | openfloor_client.py:97 | the keys a dictionary lists, each once, in first-occurrence order; see `KeysHaveMember`, `NonEmptyHasKeys` |
| `PyJson.Truthy` | openfloor_client.py:106 | Python truthiness of a JSON value, as the `if` tests at lines 106, 162, 164, 170, 187, 196, 204 and 209 use it |
| `PyJson.Contains` | openfloor_client.py:97 | `key in c`: key membership for a dictionary, element membership for a list, substring for a string, a TypeError otherwise; see `ContainsIsLookup` |
| `PyJson.Get` | openfloor_client.py:99 | `d.get(key, default)`: the bound value or the default, an AttributeError on anything but a dictionary; see `ContainsIsLookup`, `Gives` |
| `PyJson.Subscript` | openfloor_client.py:98 | `c[key]`: a KeyError for a missing key, a TypeError on anything but a dictionary; see `ContainsIsLookup` |
| `PyJson.First` | openfloor_client.py:163 | `c[0]`: the first element or character, an error when empty or not a list or string; see `ValuesFirst` |
| `PyJson.Iter` | openfloor_client.py:101 | what `for` visits: list elements, dictionary keys, string characters, a TypeError otherwise |
| `PyJson.Len` | openfloor_client.py:107 | `len(c)`, a TypeError for a number, a boolean or null; see `PublishedIsTaken`, `UnsizedManifestsAreInvalid` |
| `PyJson.PyStr` | openfloor_client.py:168 | `str(j)`: a string is itself, any other value is the host's rendering `show`; see `ScalarLast` |
| `Envelopes.EventJson` | openfloor_client.py:53-55 | an event in wire form: `eventType`, `to.serviceUrl` and `parameters`; see `EchoedUtterance`, `EchoedManifestRequest` |
| `Envelopes.PayloadJson` | openfloor_client.py:53-55 | the payload `{openFloor: envelope}` in wire form; see `PayloadEvents`, `EchoedMessageRequest`, `EchoedManifestPayload` |
| `ResponseInterpreter.FirstPicked` | openfloor_client.py:101-108 | the first-match event scan with early return; see `FirstPickedFound`, `FirstPickedNone`, `FirstPickedRaised` |
| `ResponseInterpreter.EventList` | openfloor_client.py:97-99 | `'openFloor' in response_data`, then the events of `response_data['openFloor'].get('events', [])`; see `NotAnEnvelopeIsInvalid`, `PayloadEvents` |
| `ResponseInterpreter.Interpret` | openfloor_client.py:97-118 | Invalid for a missing envelope or an exception, else the scan's first pick or NotFound; see `InterpretOutcomes`, `NotAnEnvelopeIsInvalid` |
| `ResponseInterpreter.ManifestsIn` | openfloor_client.py:102-108 | one step of the manifest scan; see `PublishedIsTaken`, `SkippedEvents`, `EchoedManifestRequest` |
| `ResponseInterpreter.ParseManifests` | openfloor_client.py:97-114 | the manifest scan over a decoded response; see `ManifestsOutcomesDistinct`, `EmptyPublishedList`, `UnsizedManifestsAreInvalid` |
| `ResponseInterpreter.ManifestOutcome` | openfloor_client.py:94-118 | a transport failure gives None, a received body is parsed; see `ManifestsOutcomesDistinct` |
| `ResponseInterpreter.ManifestsReturned` | openfloor_client.py:108-118 | the value `get_manifest` returns: the manifests, `[]`, or None; see `ManifestsOutcomesDistinct` |
| `ResponseInterpreter.TokenValues` | openfloor_client.py:166 | the values of the tokens that have a `value` key, in order; see `TokensJoin` |
| `ResponseInterpreter.ResolveText` | openfloor_client.py:162-168 | the precedence values, then tokens, then scalar `value`; see `ValuesFirst`, `TokensSecond`, `ScalarLast` |
| `ResponseInterpreter.TextIn` | openfloor_client.py:155-172 | one step of the reply scan; see `NonUtteranceSkipped`, `UtteranceIsResolved`, `EchoedUtterance` |
| `ResponseInterpreter.ParseReply` | openfloor_client.py:150-178 | the reply scan over a decoded response; see `ReplyOfSingleUtterance`, `ValuesHello`, `TokensHello`, `ScalarX` |
| `ResponseInterpreter.ReplyOutcome` | openfloor_client.py:147-182 | a transport failure gives None, a received body is parsed; see `ReplyNeverEmpty` |
| `ResponseInterpreter.ReplyReturned` | openfloor_client.py:172-182 | the value `send_message` returns: the reply, `Agent sent no response`, or None; see `ReplyNeverEmpty`, `EmptyFeaturesIsNoResponse` |
| `ManifestFormat.Header` | openfloor_client.py:192 | the header line of manifest k; see `ManifestHeader`, `HeadersInOrder`, `NatToStringInjective` |
| `ManifestFormat.IdentificationLines` | openfloor_client.py:197-200 | the four identification lines; see `IdentificationDefaults` |
| `ManifestFormat.CapabilityLines` | openfloor_client.py:207-210 | the lines of one capability; see `CapabilityShape` |
| `ManifestFormat.CapabilitiesLines` | openfloor_client.py:206-210 | the lines of every capability, numbered from j; see `AppendCapabilities`, `ManifestLayout` |
| `ManifestFormat.ManifestLines` | openfloor_client.py:192-210 | the lines of one manifest; see `ManifestLayout`, `ManifestHeader`, `AppendManifest` |
| `ManifestFormat.AllManifestLines` | openfloor_client.py:191-210 | the lines of every manifest, numbered from k; see `HeadersInOrder` |
| `ManifestFormat.FormatManifests` | openfloor_client.py:187-212 | the text `format_manifest` returns, exceptions included; see `FormatManifest`, `HeadersInOrder`, `ManifestLayout`, `CapabilityShape`, `RenderedOpensWithFirstHeader` |

## Left out

- HTTP: `requests.post`, the headers, the 30-second timeout, `raise_for_status` and `response.json()` are I/O. They are replaced by the abstract `exchange` function and its `Received`/`TransportError` result.
- `Payload.to_json` and `json.loads` round-tripping through the `openfloor` library are foreign code. Envelopes are datatypes, and `Envelopes.PayloadJson` gives only the shape the protocol prescribes, not the library's exact output.
- The library's own validation of the objects it builds is foreign code. Building an event or an envelope never fails in the model.
- `Conversation()` id generation and `uuid.uuid4()` are randomness. They become parameters.
- `print` calls are console output. The one exception is the message `get_manifest` prints before returning its manifests: it takes `len(manifests)`, which can raise. That `len` is modelled, so a truthy list without a length gives None. The printed text itself is left out.
- `str()` of a non-string JSON value (Python number, list and dict formatting) is given as the abstract parameter `show`. A string is rendered as itself.
- JSON floating-point numbers are not modelled. Numbers are integers.
- `cli_client.py` is UI plumbing: input loops, argument parsing, exit codes. It is not part of this model.
