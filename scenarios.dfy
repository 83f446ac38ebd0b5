/** Concrete responses and what the client makes of them. */
module Scenarios {
  import opened PyJson
  import opened Envelopes
  import opened ResponseInterpreter

  /** A response whose events are the given utterance text features. */
  function UtteranceResponse(feature: Json): Json
  {
    var dialog := Obj([("features", Obj([("text", feature)]))]);
    var event := Obj([("eventType", Str(UtteranceType)), ("parameters", Obj([("dialogEvent", dialog)]))]);
    Obj([("openFloor", Obj([("events", Arr([event]))]))])
  }

  lemma {:induction false} UtteranceResponseEvents(feature: Json)
    ensures EventList(UtteranceResponse(feature)) ==
      Ok(Some([Obj([("eventType", Str(UtteranceType)),
                    ("parameters", Obj([("dialogEvent", Obj([("features", Obj([("text", feature)]))]))]))])]))
  {
    var event := Obj([("eventType", Str(UtteranceType)),
                      ("parameters", Obj([("dialogEvent", Obj([("features", Obj([("text", feature)]))]))]))]);
    var envelope := Obj([("events", Arr([event]))]);
    LookupSmall(("openFloor", envelope), ("openFloor", envelope), "openFloor");
    LookupSmall(("events", Arr([event])), ("events", Arr([event])), "events");
  }

  lemma {:induction false} ReplyOfSingleUtterance(feature: Json, show: Json -> string)
    ensures ParseReply(UtteranceResponse(feature), show) ==
      match ResolveText(feature, show)
      case Raised => Invalid
      case Ok(t) => if Truthy(t) then Found(t) else NotFound
  {
    UtteranceResponseEvents(feature);
    var event := Obj([("eventType", Str(UtteranceType)),
                      ("parameters", Obj([("dialogEvent", Obj([("features", Obj([("text", feature)]))]))]))]);
    var dialog := Obj([("features", Obj([("text", feature)]))]);
    var parameters := Obj([("dialogEvent", dialog)]);
    LookupSmall(("eventType", Str(UtteranceType)), ("parameters", parameters), "eventType");
    LookupSmall(("eventType", Str(UtteranceType)), ("parameters", parameters), "parameters");
    LookupSmall(("dialogEvent", dialog), ("dialogEvent", dialog), "dialogEvent");
    LookupSmall(("features", Obj([("text", feature)])), ("features", Obj([("text", feature)])), "features");
    LookupSmall(("text", feature), ("text", feature), "text");
    assert TextIn(event, show) == (match ResolveText(feature, show)
      case Raised => Raised
      case Ok(t) => if Truthy(t) then Ok(Some(t)) else Ok(None));
    assert TextPick(show)(event) == TextIn(event, show);
    assert [event][1..] == [];
    assert FirstPicked([event], TextPick(show)) == (match TextIn(event, show)
      case Raised => Raised
      case Ok(Some(t)) => Ok(Some(t))
      case Ok(None) => Ok(None));
  }

  lemma ValuesHello(show: Json -> string)
    ensures ParseReply(UtteranceResponse(Obj([("values", Arr([Str("hello")]))])), show) == Found(Str("hello"))
  {
    ReplyOfSingleUtterance(Obj([("values", Arr([Str("hello")]))]), show);
    ValuesFirst([("values", Arr([Str("hello")]))], show);
  }

  lemma TokensHello(show: Json -> string)
    ensures ParseReply(UtteranceResponse(Obj([("tokens", Arr([Obj([("value", Str("he"))]), Obj([("value", Str("llo"))])]))])), show)
      == Found(Str("hello"))
  {
    var tokens := [Obj([("value", Str("he"))]), Obj([("value", Str("llo"))])];
    var fields := [("tokens", Arr(tokens))];
    HelloTokens();
    LookupSmall(("tokens", Arr(tokens)), ("tokens", Arr(tokens)), "tokens");
    LookupSmall(("tokens", Arr(tokens)), ("tokens", Arr(tokens)), "values");
    TokensSecond(fields, show);
    ReplyOfSingleUtterance(Obj(fields), show);
  }

  /** The tokens `he` and `llo` are well formed and read "hello". */
  lemma HelloTokens()
    ensures var tokens := [Obj([("value", Str("he"))]), Obj([("value", Str("llo"))])];
      StringTokens(tokens) && TokenText(tokens) == "hello"
  {
    var tokens := [Obj([("value", Str("he"))]), Obj([("value", Str("llo"))])];
    LookupSmall(("value", Str("he")), ("value", Str("he")), "value");
    LookupSmall(("value", Str("llo")), ("value", Str("llo")), "value");
    assert tokens[1..] == [Obj([("value", Str("llo"))])];
    assert tokens[1..][1..] == [];
    assert TokenText(tokens[1..]) == "llo";
  }

  lemma ScalarX(show: Json -> string)
    ensures ParseReply(UtteranceResponse(Obj([("value", Str("x"))])), show) == Found(Str("x"))
  {
    ReplyOfSingleUtterance(Obj([("value", Str("x"))]), show);
    ScalarLast([("value", Str("x"))], show);
  }

  /** An utterance with no text resolves to "" and is skipped, so the client
      reports the no-response sentinel for it. */
  lemma EmptyFeaturesIsNoResponse(show: Json -> string)
    ensures ParseReply(UtteranceResponse(Obj([])), show) == NotFound
    ensures ReplyReturned(ParseReply(UtteranceResponse(Obj([])), show)) == Some(Str(NoResponseText))
  {
    ReplyOfSingleUtterance(Obj([]), show);
    ScalarLast([], show);
  }

  /** A response with no events at all. */
  lemma NoEventsIsNoResponse(show: Json -> string)
    ensures ParseReply(Obj([("openFloor", Obj([]))]), show) == NotFound
    ensures ParseManifests(Obj([("openFloor", Obj([]))])) == NotFound
    ensures ManifestsReturned(ParseManifests(Obj([("openFloor", Obj([]))]))) == Some(Arr([]))
  {
  }

  /** A publishManifests event with an empty list is NotFound, not an error. */
  lemma EmptyPublishedList()
    ensures ParseManifests(Obj([("openFloor", Obj([("events", Arr([
      Obj([("eventType", Str(PublishManifestsType)), ("parameters", Obj([("servicingManifests", Arr([]))]))])]))]))]))
      == NotFound
  {
    var parameters := Obj([("servicingManifests", Arr([]))]);
    var event := Obj([("eventType", Str(PublishManifestsType)), ("parameters", parameters)]);
    var envelope := Obj([("events", Arr([event]))]);
    LookupSmall(("openFloor", envelope), ("openFloor", envelope), "openFloor");
    LookupSmall(("events", Arr([event])), ("events", Arr([event])), "events");
    LookupSmall(("eventType", Str(PublishManifestsType)), ("parameters", parameters), "eventType");
    LookupSmall(("eventType", Str(PublishManifestsType)), ("parameters", parameters), "parameters");
    LookupSmall(("servicingManifests", Arr([])), ("servicingManifests", Arr([])), "servicingManifests");
    assert ManifestsIn(event) == Ok(None);
    assert [event][1..] == [];
    assert FirstPicked([event], ManifestsIn) == Ok(None);
    assert EventList(Obj([("openFloor", envelope)])) == Ok(Some([event]));
  }

  /** A response whose only publishManifests event carries `m`. */
  function PublishedResponse(m: Json): Json
  {
    var event := Obj([("eventType", Str(PublishManifestsType)), ("parameters", Obj([("servicingManifests", m)]))]);
    Obj([("openFloor", Obj([("events", Arr([event]))]))])
  }

  /** A truthy `servicingManifests` without a length (a number or `true`)
      makes `len` raise while the client reports what it found, so
      `get_manifest` returns None rather than the value. */
  lemma {:induction false} UnsizedManifestsAreInvalid()
    ensures ParseManifests(PublishedResponse(Int(5))) == Invalid
    ensures ParseManifests(PublishedResponse(Bool(true))) == Invalid
  {
    UnsizedPublished(Int(5));
    UnsizedPublished(Bool(true));
  }

  lemma {:induction false} UnsizedPublished(m: Json)
    requires Truthy(m) && Len(m).Raised?
    ensures ParseManifests(PublishedResponse(m)) == Invalid
  {
    var parameters := Obj([("servicingManifests", m)]);
    var event := Obj([("eventType", Str(PublishManifestsType)), ("parameters", parameters)]);
    var envelope := Obj([("events", Arr([event]))]);
    LookupSmall(("openFloor", envelope), ("openFloor", envelope), "openFloor");
    LookupSmall(("events", Arr([event])), ("events", Arr([event])), "events");
    LookupSmall(("eventType", Str(PublishManifestsType)), ("parameters", parameters), "eventType");
    LookupSmall(("eventType", Str(PublishManifestsType)), ("parameters", parameters), "parameters");
    LookupSmall(("servicingManifests", m), ("servicingManifests", m), "servicingManifests");
    assert ManifestsIn(event) == Raised;
    assert EventList(PublishedResponse(m)) == Ok(Some([event]));
  }
}
