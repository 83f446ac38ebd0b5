/** How the client reads an Open Floor response: the first suitable event
    wins, manifests come from `publishManifests`, reply text from an
    `utterance` whose text feature may arrive as `values`, `tokens` or a
    scalar `value`.  Each extraction has three outcomes, as the client's
    callers see them. */
module ResponseInterpreter {
  import opened PyJson
  import opened Envelopes

  /** `Found(v)`: the value the operation returns.  `NotFound`: the agent spoke
      the protocol but supplied nothing (`[]` for manifests, the sentinel
      string for a reply).  `Invalid`: the operation returns None. */
  datatype Reply<+T> = Found(value: T) | NotFound | Invalid

  /** What `_send_envelope` delivers: the decoded body, or a failure (a network
      error, a non-2xx status, a body that is not JSON). */
  datatype Response = Received(body: Json) | TransportError

  const NoResponseText := "Agent sent no response"

  // ---------------------------------------------------------------------
  // The event scan: the first event that a pick function takes wins

  /** `for event in events`: an event yields `Ok(Some(v))` to stop the scan
      with `v`, `Ok(None)` to be skipped, or `Raised`. */
  function FirstPicked<T>(events: seq<Json>, pick: Json -> Try<Option<T>>): Try<Option<T>>
  {
    if events == [] then Ok(None)
    else
      match pick(events[0])
      case Raised => Raised
      case Ok(Some(v)) => Ok(Some(v))
      case Ok(None) => FirstPicked(events[1..], pick)
  }

  /** Every event of `events` is skipped by `pick`. */
  ghost predicate AllSkipped<T>(events: seq<Json>, pick: Json -> Try<Option<T>>)
  {
    forall j :: 0 <= j < |events| ==> pick(events[j]) == Ok(None)
  }

  lemma {:induction false} FirstPickedFound<T>(events: seq<Json>, pick: Json -> Try<Option<T>>, v: T)
    ensures FirstPicked(events, pick) == Ok(Some(v)) <==>
      exists i :: 0 <= i < |events| && AllSkipped(events[..i], pick) && pick(events[i]) == Ok(Some(v))
  {
    if events != [] {
      FirstPickedFound(events[1..], pick, v);
      if FirstPicked(events, pick) == Ok(Some(v)) {
        if pick(events[0]) != Ok(Some(v)) {
          var i :| 0 <= i < |events[1..]| && AllSkipped(events[1..][..i], pick) && pick(events[1..][i]) == Ok(Some(v));
          var pre := events[..i + 1];
          assert AllSkipped(pre, pick) by {
            forall j | 0 <= j < |pre| ensures pick(pre[j]) == Ok(None) {
              if j > 0 { assert pre[j] == events[1..][..i][j - 1]; }
            }
          }
          assert pick(events[i + 1]) == Ok(Some(v));
        } else {
          assert AllSkipped(events[..0], pick);
        }
      }
      if exists i :: 0 <= i < |events| && AllSkipped(events[..i], pick) && pick(events[i]) == Ok(Some(v)) {
        var i :| 0 <= i < |events| && AllSkipped(events[..i], pick) && pick(events[i]) == Ok(Some(v));
        if i > 0 {
          assert events[..i][0] == events[0];
          var pre := events[1..][..i - 1];
          assert AllSkipped(pre, pick) by {
            forall j | 0 <= j < |pre| ensures pick(pre[j]) == Ok(None) {
              assert pre[j] == events[..i][j + 1];
            }
          }
          assert events[1..][i - 1] == events[i];
        }
      }
    }
  }

  lemma {:induction false} FirstPickedNone<T>(events: seq<Json>, pick: Json -> Try<Option<T>>)
    ensures FirstPicked(events, pick) == Ok(None) <==> AllSkipped(events, pick)
  {
    if events != [] {
      FirstPickedNone(events[1..], pick);
      assert AllSkipped(events, pick) <==> pick(events[0]) == Ok(None) && AllSkipped(events[1..], pick) by {
        if pick(events[0]) == Ok(None) && AllSkipped(events[1..], pick) {
          forall j | 0 <= j < |events| ensures pick(events[j]) == Ok(None) {
            if j > 0 { assert events[j] == events[1..][j - 1]; }
          }
        }
        if AllSkipped(events, pick) {
          assert pick(events[0]) == Ok(None);
          forall j | 0 <= j < |events| - 1 ensures pick(events[1..][j]) == Ok(None) {
            assert events[1..][j] == events[j + 1];
          }
        }
      }
    }
  }

  lemma {:induction false} FirstPickedRaised<T>(events: seq<Json>, pick: Json -> Try<Option<T>>)
    ensures FirstPicked(events, pick) == Raised <==>
      exists i :: 0 <= i < |events| && AllSkipped(events[..i], pick) && pick(events[i]) == Raised
  {
    if events != [] {
      FirstPickedRaised(events[1..], pick);
      if FirstPicked(events, pick) == Raised {
        if pick(events[0]) != Raised {
          var i :| 0 <= i < |events[1..]| && AllSkipped(events[1..][..i], pick) && pick(events[1..][i]) == Raised;
          var pre := events[..i + 1];
          assert AllSkipped(pre, pick) by {
            forall j | 0 <= j < |pre| ensures pick(pre[j]) == Ok(None) {
              if j > 0 { assert pre[j] == events[1..][..i][j - 1]; }
            }
          }
          assert pick(events[i + 1]) == Raised;
        } else {
          assert AllSkipped(events[..0], pick);
        }
      }
      if exists i :: 0 <= i < |events| && AllSkipped(events[..i], pick) && pick(events[i]) == Raised {
        var i :| 0 <= i < |events| && AllSkipped(events[..i], pick) && pick(events[i]) == Raised;
        if i > 0 {
          assert events[..i][0] == events[0];
          var pre := events[1..][..i - 1];
          assert AllSkipped(pre, pick) by {
            forall j | 0 <= j < |pre| ensures pick(pre[j]) == Ok(None) {
              assert pre[j] == events[..i][j + 1];
            }
          }
          assert events[1..][i - 1] == events[i];
        }
      }
    }
  }

  // ---------------------------------------------------------------------
  // The envelope: `'openFloor' in response_data`, then its `events`

  /** `Ok(None)` when the response has no `openFloor` entry; otherwise what a
      loop over `response_data['openFloor'].get('events', [])` visits. */
  function EventList(response: Json): Try<Option<seq<Json>>>
  {
    var present :- Contains(response, "openFloor");
    if !present then Ok(None)
    else
      var envelope :- Subscript(response, "openFloor");
      var events :- Get(envelope, "events", Arr([]));
      var items :- Iter(events);
      Ok(Some(items))
  }

  /** A parse whose envelope is missing, or that raised, is Invalid; otherwise
      the first event `pick` takes is Found and no such event is NotFound. */
  function Interpret<T>(response: Json, pick: Json -> Try<Option<T>>): Reply<T>
  {
    match EventList(response)
    case Raised => Invalid
    case Ok(None) => Invalid
    case Ok(Some(events)) =>
      match FirstPicked(events, pick)
      case Raised => Invalid
      case Ok(Some(v)) => Found(v)
      case Ok(None) => NotFound
  }

  /** Anything that is not a dictionary with an `openFloor` entry is Invalid,
      whichever error path Python takes for it (a list or a string on which
      `in` succeeds fails on the subscript). */
  lemma NotAnEnvelopeIsInvalid<T>(response: Json, pick: Json -> Try<Option<T>>)
    requires !(response.Obj? && Lookup(response.fields, "openFloor").Some?)
    ensures Interpret(response, pick) == Invalid
  {
    if response.Obj? {
      ContainsIsLookup(response.fields, "openFloor");
    }
  }

  /** The three outcomes, each characterised by the events alone. */
  lemma InterpretOutcomes<T>(response: Json, pick: Json -> Try<Option<T>>, v: T)
    ensures Interpret(response, pick) == Found(v) <==>
      exists events :: EventList(response) == Ok(Some(events)) &&
        exists i :: 0 <= i < |events| && AllSkipped(events[..i], pick) && pick(events[i]) == Ok(Some(v))
    ensures Interpret(response, pick) == NotFound <==>
      exists events :: EventList(response) == Ok(Some(events)) && AllSkipped(events, pick)
  {
    match EventList(response)
    case Ok(Some(events)) =>
      FirstPickedFound(events, pick, v);
      FirstPickedNone(events, pick);
    case _ =>
  }

  // ---------------------------------------------------------------------
  // get_manifest

  /** One event of the manifest scan: only eventType `publishManifests`
      counts, and only with a truthy `servicingManifests`.  The progress
      message printed before returning takes `len` of the list, which raises
      for a truthy value without a length (a number, `true`). */
  function ManifestsIn(event: Json): Try<Option<Json>>
  {
    var eventType :- Get(event, "eventType", Null);
    if eventType != Str(PublishManifestsType) then Ok(None)
    else
      var parameters :- Get(event, "parameters", Obj([]));
      var manifests :- Get(parameters, "servicingManifests", Arr([]));
      if Truthy(manifests) then
        var _ :- Len(manifests);
        Ok(Some(manifests))
      else Ok(None)
  }

  function ParseManifests(response: Json): Reply<Json>
  {
    Interpret(response, ManifestsIn)
  }

  /** The outcome of `get_manifest` for what the transport delivered. */
  function ManifestOutcome(r: Response): Reply<Json>
  {
    match r
    case TransportError => Invalid
    case Received(body) => ParseManifests(body)
  }

  /** The value `get_manifest` returns: None, `[]` or the manifests. */
  function ManifestsReturned(r: Reply<Json>): Option<Json>
  {
    match r
    case Found(m) => Some(m)
    case NotFound => Some(Arr([]))
    case Invalid => None
  }

  /** A publishManifests event with a truthy manifest list that has a length
      is taken; one whose truthy list has no length raises. */
  lemma PublishedIsTaken(fields: seq<(string, Json)>, params: seq<(string, Json)>, m: Json)
    requires Lookup(fields, "eventType") == Some(Str(PublishManifestsType))
    requires Lookup(fields, "parameters") == Some(Obj(params))
    requires Lookup(params, "servicingManifests") == Some(m) && Truthy(m)
    ensures Len(m).Ok? ==> ManifestsIn(Obj(fields)) == Ok(Some(m))
    ensures Len(m).Raised? ==> ManifestsIn(Obj(fields)) == Raised
  {
  }

  /** A dictionary event is skipped when its type is not exactly
      `publishManifests`, or when its manifest list is empty or missing,
      including when the event has no `parameters` at all. */
  lemma SkippedEvents(fields: seq<(string, Json)>, params: seq<(string, Json)>)
    ensures Lookup(fields, "eventType") != Some(Str(PublishManifestsType)) ==>
      ManifestsIn(Obj(fields)) == Ok(None)
    ensures (Lookup(fields, "parameters") == Some(Obj(params)) &&
      !Truthy(Entry(params, "servicingManifests"))) ==>
      ManifestsIn(Obj(fields)) == Ok(None)
    ensures Lookup(fields, "parameters") == None ==> ManifestsIn(Obj(fields)) == Ok(None)
  {
  }

  /** The manifests returned are never the empty list returned for "no
      manifests", and the returned `[]` always means NotFound. */
  lemma {:induction false} ManifestsOutcomesDistinct(r: Response)
    ensures ManifestOutcome(r).Found? ==> Truthy(ManifestOutcome(r).value) && Len(ManifestOutcome(r).value).Ok?
    ensures ManifestsReturned(ManifestOutcome(r)) == Some(Arr([])) <==> ManifestOutcome(r) == NotFound
  {
    if r.Received? {
      var body := r.body;
      match EventList(body)
      case Ok(Some(events)) =>
        if ParseManifests(body).Found? {
          var m := ParseManifests(body).value;
          FirstPickedFound(events, ManifestsIn, m);
          var i :| 0 <= i < |events| && AllSkipped(events[..i], ManifestsIn) && ManifestsIn(events[i]) == Ok(Some(m));
        }
      case _ =>
    }
  }

  // ---------------------------------------------------------------------
  // send_message

  /** `[token.get('value', '') for token in tokens if 'value' in token]`. */
  function TokenValues(tokens: seq<Json>): Try<seq<Json>>
  {
    if tokens == [] then Ok([])
    else
      var present :- Contains(tokens[0], "value");
      var v :- if present then Get(tokens[0], "value", Str("")) else Ok(Null);
      var rest :- TokenValues(tokens[1..]);
      Ok(if present then [v] + rest else rest)
  }

  /** The text of a text feature, by precedence: `values[0]` when `values` is
      truthy, else the joined `tokens` when those are truthy, else
      `str(value)` with "" for a missing value. */
  function ResolveText(feature: Json, show: Json -> string): Try<Json>
  {
    var hasValues :- Contains(feature, "values");
    var values :- if hasValues then Subscript(feature, "values") else Ok(Null);
    if hasValues && Truthy(values) then First(values)
    else
      var hasTokens :- Contains(feature, "tokens");
      var tokens :- if hasTokens then Subscript(feature, "tokens") else Ok(Null);
      if hasTokens && Truthy(tokens) then
        var items :- Iter(tokens);
        var parts :- TokenValues(items);
        var text :- JoinStrings("", parts);
        Ok(Str(text))
      else
        var value :- Get(feature, "value", Str(""));
        Ok(Str(PyStr(show, value)))
  }

  /** One event of the reply scan: only eventType `utterance` counts, and only
      when its resolved text is truthy. */
  function TextIn(event: Json, show: Json -> string): Try<Option<Json>>
  {
    var eventType :- Get(event, "eventType", Null);
    if eventType != Str(UtteranceType) then Ok(None)
    else
      var parameters :- Get(event, "parameters", Obj([]));
      var dialogEvent :- Get(parameters, "dialogEvent", Obj([]));
      var features :- Get(dialogEvent, "features", Obj([]));
      var feature :- Get(features, "text", Obj([]));
      var text :- ResolveText(feature, show);
      if Truthy(text) then Ok(Some(text)) else Ok(None)
  }

  /** The reply scan's pick function, for a given `str()` rendering. */
  function TextPick(show: Json -> string): Json -> Try<Option<Json>>
  {
    e => TextIn(e, show)
  }

  function ParseReply(response: Json, show: Json -> string): Reply<Json>
  {
    Interpret(response, TextPick(show))
  }

  /** The outcome of `send_message` for what the transport delivered. */
  function ReplyOutcome(r: Response, show: Json -> string): Reply<Json>
  {
    match r
    case TransportError => Invalid
    case Received(body) => ParseReply(body, show)
  }

  /** The value `send_message` returns: None, the sentinel or the reply. */
  function ReplyReturned(r: Reply<Json>): Option<Json>
  {
    match r
    case Found(t) => Some(t)
    case NotFound => Some(Str(NoResponseText))
    case Invalid => None
  }

  /** `send_message` never returns "": the reply is a truthy value, the
      sentinel, or None. */
  lemma {:induction false} ReplyNeverEmpty(r: Response, show: Json -> string)
    ensures ReplyOutcome(r, show).Found? ==> Truthy(ReplyOutcome(r, show).value)
    ensures ReplyReturned(ReplyOutcome(r, show)) != Some(Str(""))
  {
    if r.Received? {
      var body := r.body;
      var pick := TextPick(show);
      match EventList(body)
      case Ok(Some(events)) =>
        if ParseReply(body, show).Found? {
          var t := ParseReply(body, show).value;
          FirstPickedFound(events, pick, t);
          var i :| 0 <= i < |events| && AllSkipped(events[..i], pick) && pick(events[i]) == Ok(Some(t));
        }
      case _ =>
    }
  }

  /** A dictionary event is skipped by the reply scan unless its type is
      exactly `utterance`. */
  lemma NonUtteranceSkipped(fields: seq<(string, Json)>, show: Json -> string)
    requires Lookup(fields, "eventType") != Some(Str(UtteranceType))
    ensures TextIn(Obj(fields), show) == Ok(None)
  {
  }

  /** An utterance event whose `parameters`, `dialogEvent`, `features` and
      `text` are dictionaries or absent (and then defaulted to `{}`) yields the
      resolved text of its text feature when that text is truthy, is skipped
      when it is not, and raises when resolving raises. */
  lemma UtteranceIsResolved(fields: seq<(string, Json)>, params: seq<(string, Json)>,
                            dialog: seq<(string, Json)>, features: seq<(string, Json)>,
                            feature: Json, show: Json -> string)
    requires Lookup(fields, "eventType") == Some(Str(UtteranceType))
    requires Gives(fields, "parameters", Obj([]), Obj(params))
    requires Gives(params, "dialogEvent", Obj([]), Obj(dialog))
    requires Gives(dialog, "features", Obj([]), Obj(features))
    requires Gives(features, "text", Obj([]), feature)
    ensures TextIn(Obj(fields), show) ==
      match ResolveText(feature, show)
      case Raised => Raised
      case Ok(t) => if Truthy(t) then Ok(Some(t)) else Ok(None)
  {
  }

  // ---------------------------------------------------------------------
  // The precedence of the three text shapes, for a dictionary text feature

  /** A well-formed token stream: a list of dictionaries whose `value`, where
      present, is a string. */
  ghost predicate StringTokens(tokens: seq<Json>)
  {
    forall i :: 0 <= i < |tokens| ==>
      tokens[i].Obj? && (Lookup(tokens[i].fields, "value").Some? ==> Lookup(tokens[i].fields, "value").value.Str?)
  }

  /** The in-order concatenation of `value` over the tokens that have one. */
  function TokenText(tokens: seq<Json>): string
  {
    if tokens == [] then ""
    else
      var head :=
        if tokens[0].Obj? then
          match Lookup(tokens[0].fields, "value")
          case Some(Str(s)) => s
          case _ => ""
        else "";
      head + TokenText(tokens[1..])
  }

  lemma {:induction false} JoinConcat(s: string, rest: seq<Json>)
    requires AllStrings(rest)
    ensures AllStrings([Str(s)] + rest)
    ensures Join("", Texts([Str(s)] + rest)) == s + Join("", Texts(rest))
  {
    var all := [Str(s)] + rest;
    assert Texts(all) == [s] + Texts(rest) by {
      assert all[1..] == rest;
    }
    if rest == [] {
      assert Texts(all) == [s];
    } else {
      assert Texts(all)[1..] == Texts(rest);
    }
  }

  /** A well-formed token stream joins to `TokenText`. */
  lemma {:induction false} TokensJoin(tokens: seq<Json>)
    requires StringTokens(tokens)
    ensures TokenValues(tokens).Ok?
    ensures AllStrings(TokenValues(tokens).value)
    ensures Join("", Texts(TokenValues(tokens).value)) == TokenText(tokens)
  {
    if tokens != [] {
      var t := tokens[0];
      assert StringTokens(tokens[1..]) by {
        forall i | 0 <= i < |tokens[1..]|
          ensures tokens[1..][i].Obj? && (Lookup(tokens[1..][i].fields, "value").Some? ==> Lookup(tokens[1..][i].fields, "value").value.Str?)
        {
          assert tokens[1..][i] == tokens[i + 1];
        }
      }
      TokensJoin(tokens[1..]);
      var rest := TokenValues(tokens[1..]).value;
      ContainsIsLookup(t.fields, "value");
      if Lookup(t.fields, "value").Some? {
        var s := Lookup(t.fields, "value").value.s;
        assert TokenValues(tokens) == Ok([Str(s)] + rest);
        JoinConcat(s, rest);
      } else {
        assert TokenValues(tokens) == Ok(rest);
      }
    }
  }

  /** 1. A non-empty `values` list gives its first element. */
  lemma ValuesFirst(fields: seq<(string, Json)>, show: Json -> string)
    requires Entry(fields, "values").Arr? && Entry(fields, "values").items != []
    ensures ResolveText(Obj(fields), show) == Ok(Entry(fields, "values").items[0])
  {
    ContainsIsLookup(fields, "values");
  }

  /** 2. Otherwise a non-empty, well-formed token stream gives the concatenation
      of its token values. */
  lemma TokensSecond(fields: seq<(string, Json)>, show: Json -> string)
    requires !Truthy(Entry(fields, "values"))
    requires Entry(fields, "tokens").Arr? && Entry(fields, "tokens").items != []
    requires StringTokens(Entry(fields, "tokens").items)
    ensures ResolveText(Obj(fields), show) == Ok(Str(TokenText(Entry(fields, "tokens").items)))
  {
    ContainsIsLookup(fields, "values");
    ContainsIsLookup(fields, "tokens");
    TokensJoin(Entry(fields, "tokens").items);
  }

  /** 3. Otherwise the scalar `value`, as a string, with "" by default. */
  lemma ScalarLast(fields: seq<(string, Json)>, show: Json -> string)
    requires !Truthy(Entry(fields, "values")) && !Truthy(Entry(fields, "tokens"))
    ensures ResolveText(Obj(fields), show) ==
      Ok(Str(match Lookup(fields, "value") case Some(v) => PyStr(show, v) case None => ""))
  {
    ContainsIsLookup(fields, "values");
    ContainsIsLookup(fields, "tokens");
  }

  // ---------------------------------------------------------------------
  // What an agent that echoes the request would make the client return

  /** An outbound utterance read back by the reply scan yields its own
      message, or is skipped when the message is "". */
  lemma EchoedUtterance(speakerUri: string, agentUrl: string, message: string, show: Json -> string)
    ensures TextIn(EventJson(UtteranceEvent(DialogEvent(speakerUri, [("text", TextFeature([message]))]), To(agentUrl))), show)
      == (if message == "" then Ok(None) else Ok(Some(Str(message))))
  {
    var feature := FeatureJson(TextFeature([message]));
    assert StrList([message]) == [Str(message)];
    assert Keys([("values", Arr([Str(message)]))]) == ["values"];
    assert Contains(feature, "values") == Ok(true);
    assert ResolveText(feature, show) == Ok(Str(message));
    var features := [("text", feature)];
    assert FeaturesJson([("text", TextFeature([message]))]) == features;
    var dialog := Obj([("speakerUri", Str(speakerUri)), ("features", Obj(features))]);
    var parameters := Obj([("dialogEvent", dialog)]);
    var event := EventJson(UtteranceEvent(DialogEvent(speakerUri, [("text", TextFeature([message]))]), To(agentUrl)));
    assert event.fields[..2][..1] == [("eventType", Str(UtteranceType))];
    assert Lookup(event.fields[..2], "eventType") == Some(Str(UtteranceType));
    assert Get(event, "eventType", Null) == Ok(Str(UtteranceType));
    assert Get(event, "parameters", Obj([])) == Ok(parameters);
    assert Get(parameters, "dialogEvent", Obj([])) == Ok(dialog);
    assert Get(dialog, "features", Obj([])) == Ok(Obj(features));
    assert Get(Obj(features), "text", Obj([])) == Ok(feature);
  }

  /** The events of an outbound payload, read back the way the client reads a
      response, are the events of the envelope in their wire form, in order. */
  lemma PayloadEvents(e: Envelope)
    ensures EventList(PayloadJson(e)) == Ok(Some(EventsJson(e.events)))
  {
    var body := Obj([
      ("conversation", Obj([("id", Str(e.conversation.id))])),
      ("sender", Obj([("speakerUri", Str(e.sender.speakerUri))])),
      ("events", Arr(EventsJson(e.events)))]);
    assert Keys([("openFloor", body)]) == ["openFloor"];
    assert Get(body, "events", Arr([])) == Ok(Arr(EventsJson(e.events)));
  }

  /** An outbound getManifests event is never taken by the manifest scan. */
  lemma EchoedManifestRequest(agentUrl: string)
    ensures ManifestsIn(EventJson(GetManifestsEvent(To(agentUrl)))) == Ok(None)
  {
  }
}
