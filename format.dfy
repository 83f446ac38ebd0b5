/** The text `format_manifest` renders for a manifest list: a header per
    manifest numbered from 1, its identification and its capabilities, the
    lines joined with newlines. */
module ManifestFormat {
  import opened PyJson

  const NoManifests := "No manifests available"

  // ---------------------------------------------------------------------
  // Decimal numerals, as `str` of a non-negative int

  function Digit(d: nat): char
    requires d < 10
  {
    "0123456789"[d]
  }

  /** `str(n)`: canonical decimal digits, with no leading zero. */
  function NatToString(n: nat): (r: string)
    ensures r != ""
    ensures forall i :: 0 <= i < |r| ==> '0' <= r[i] <= '9'
    ensures r[0] == '0' <==> n == 0
    ensures |r| == 1 || r[0] != '0'
  {
    if n < 10 then [Digit(n)] else NatToString(n / 10) + [Digit(n % 10)]
  }

  /** Reading a numeral back; the partner of `NatToString`. */
  function DecimalValue(s: string): nat
  {
    if s == [] then 0
    else
      var c := s[|s| - 1];
      var d := if '0' <= c <= '9' then (c - '0') as nat else 0;
      10 * DecimalValue(s[..|s| - 1]) + d
  }

  lemma {:induction false} DecimalRoundTrip(n: nat)
    ensures DecimalValue(NatToString(n)) == n
  {
    if n >= 10 {
      DecimalRoundTrip(n / 10);
      var s := NatToString(n);
      assert s[..|s| - 1] == NatToString(n / 10);
    }
  }

  /** Distinct numbers render as distinct numerals, so no two headers coincide. */
  lemma NatToStringInjective(m: nat, n: nat)
    requires NatToString(m) == NatToString(n)
    ensures m == n
  {
    DecimalRoundTrip(m);
    DecimalRoundTrip(n);
  }

  // ---------------------------------------------------------------------
  // The lines of one manifest

  function Header(k: nat): string
  {
    "\n\U{1F4CB} Manifest " + NatToString(k) + ":"
  }

  /** The four identification lines; a missing entry shows "Unknown", a
      missing synopsis "No description". */
  function IdentificationLines(identification: Json, show: Json -> string): Try<seq<string>>
  {
    var name :- Get(identification, "conversationalName", Str("Unknown"));
    var organization :- Get(identification, "organization", Str("Unknown"));
    var synopsis :- Get(identification, "synopsis", Str("No description"));
    var speakerUri :- Get(identification, "speakerUri", Str("Unknown"));
    Ok(["  Name: " + PyStr(show, name),
        "  Organization: " + PyStr(show, organization),
        "  Description: " + PyStr(show, synopsis),
        "  Speaker URI: " + PyStr(show, speakerUri)])
  }

  /** Capability number `j`: its keyphrases joined with ", ", then the first
      of its descriptions when it has any. */
  function CapabilityLines(j: nat, capability: Json, show: Json -> string): Try<seq<string>>
  {
    var keyphrases :- Get(capability, "keyphrases", Arr([]));
    var phrases :- Iter(keyphrases);
    var joined :- JoinStrings(", ", phrases);
    var line := "    " + NatToString(j) + ". Keywords: " + joined;
    var descriptions :- Get(capability, "descriptions", Arr([]));
    if Truthy(descriptions) then
      var first :- First(descriptions);
      Ok([line, "       Description: " + PyStr(show, first)])
    else
      Ok([line])
  }

  /** The lines of `capabilities`, numbered from `j`. */
  function CapabilitiesLines(capabilities: seq<Json>, j: nat, show: Json -> string): Try<seq<string>>
    decreases |capabilities|
  {
    if capabilities == [] then Ok([])
    else
      var head :- CapabilityLines(j, capabilities[0], show);
      var rest :- CapabilitiesLines(capabilities[1..], j + 1, show);
      Ok(head + rest)
  }

  function ManifestLines(k: nat, manifest: Json, show: Json -> string): Try<seq<string>>
  {
    var identification :- Get(manifest, "identification", Obj([]));
    var identity :- if Truthy(identification) then IdentificationLines(identification, show) else Ok([]);
    var capabilities :- Get(manifest, "capabilities", Arr([]));
    if !Truthy(capabilities) then Ok([Header(k)] + identity)
    else
      var count :- Len(capabilities);
      var items :- Iter(capabilities);
      var lines :- CapabilitiesLines(items, 1, show);
      Ok([Header(k)] + identity + ["  Capabilities: " + NatToString(count)] + lines)
  }

  /** The lines of `manifests`, the first of them numbered `k`. */
  function AllManifestLines(manifests: seq<Json>, k: nat, show: Json -> string): Try<seq<string>>
    decreases |manifests|
  {
    if manifests == [] then Ok([])
    else
      var head :- ManifestLines(k, manifests[0], show);
      var rest :- AllManifestLines(manifests[1..], k + 1, show);
      Ok(head + rest)
  }

  /** `format_manifest(manifests)`; it does not catch, so a malformed manifest
      raises to the caller. */
  function FormatManifests(manifests: Json, show: Json -> string): Try<string>
  {
    if !Truthy(manifests) then Ok(NoManifests)
    else
      var items :- Iter(manifests);
      var lines :- AllManifestLines(items, 1, show);
      Ok(Join("\n", lines))
  }

  // ---------------------------------------------------------------------
  // Properties of the rendering

  /** Header lines are the lines that begin with a newline. */
  predicate IsHeaderLine(line: string)
  {
    line != "" && line[0] == '\n'
  }

  function Headers(lines: seq<string>): seq<string>
  {
    if lines == [] then []
    else (if IsHeaderLine(lines[0]) then [lines[0]] else []) + Headers(lines[1..])
  }

  /** The headers numbered k, k+1, ..., k+n-1. */
  function HeaderRun(k: nat, n: nat): (r: seq<string>)
    ensures |r| == n
    ensures forall i :: 0 <= i < n ==> r[i] == Header(k + i)
    decreases n
  {
    if n == 0 then [] else [Header(k)] + HeaderRun(k + 1, n - 1)
  }

  lemma {:induction false} HeadersAppend(a: seq<string>, b: seq<string>)
    ensures Headers(a + b) == Headers(a) + Headers(b)
  {
    if a == [] {
      assert a + b == b;
    } else {
      HeadersAppend(a[1..], b);
      assert (a + b)[0] == a[0];
      assert (a + b)[1..] == a[1..] + b;
      calc {
        Headers(a + b);
        (if IsHeaderLine(a[0]) then [a[0]] else []) + Headers(a[1..] + b);
        (if IsHeaderLine(a[0]) then [a[0]] else []) + (Headers(a[1..]) + Headers(b));
        ((if IsHeaderLine(a[0]) then [a[0]] else []) + Headers(a[1..])) + Headers(b);
        Headers(a) + Headers(b);
      }
    }
  }

  /** No line but the header line of a manifest begins with a newline. */
  predicate NoHeaderLines(lines: seq<string>)
  {
    forall i :: 0 <= i < |lines| ==> !IsHeaderLine(lines[i])
  }

  lemma {:induction false} NoHeadersFiltered(lines: seq<string>)
    requires NoHeaderLines(lines)
    ensures Headers(lines) == []
  {
    if lines != [] {
      assert !IsHeaderLine(lines[0]);
      NoHeadersFiltered(lines[1..]);
    }
  }

  lemma {:induction false} CapabilitiesLinesIndented(capabilities: seq<Json>, j: nat, show: Json -> string)
    requires CapabilitiesLines(capabilities, j, show).Ok?
    ensures NoHeaderLines(CapabilitiesLines(capabilities, j, show).value)
    decreases |capabilities|
  {
    if capabilities != [] {
      CapabilitiesLinesIndented(capabilities[1..], j + 1, show);
    }
  }

  /** The lines of one manifest hold exactly one header: its own. */
  lemma ManifestHeader(k: nat, manifest: Json, show: Json -> string)
    requires ManifestLines(k, manifest, show).Ok?
    ensures Headers(ManifestLines(k, manifest, show).value) == [Header(k)]
  {
    var lines := ManifestLines(k, manifest, show).value;
    assert lines[0] == Header(k);
    assert NoHeaderLines(lines[1..]) by {
      var capabilities := Get(manifest, "capabilities", Arr([])).value;
      if Truthy(capabilities) {
        CapabilitiesLinesIndented(Iter(capabilities).value, 1, show);
      }
    }
    NoHeadersFiltered(lines[1..]);
  }

  /** One header per manifest, numbered in list order from `k`. */
  lemma {:induction false} HeadersInOrder(manifests: seq<Json>, k: nat, show: Json -> string)
    requires AllManifestLines(manifests, k, show).Ok?
    ensures Headers(AllManifestLines(manifests, k, show).value) == HeaderRun(k, |manifests|)
    decreases |manifests|
  {
    if manifests != [] {
      var head := ManifestLines(k, manifests[0], show).value;
      var rest := AllManifestLines(manifests[1..], k + 1, show).value;
      ManifestHeader(k, manifests[0], show);
      HeadersInOrder(manifests[1..], k + 1, show);
      HeadersAppend(head, rest);
    }
  }

  lemma {:induction false} JoinStartsWithFirst(sep: string, parts: seq<string>)
    requires parts != []
    ensures IsPrefix(parts[0], Join(sep, parts))
  {
    if |parts| > 1 {
      var j := Join(sep, parts);
      assert j == parts[0] + (sep + Join(sep, parts[1..]));
      assert j[..|parts[0]|] == parts[0];
    }
  }

  /** A non-empty (truthy) manifest list renders, if it renders at all, as text
      that opens with the header of manifest 1, so never as the "No manifests
      available" message. */
  lemma {:induction false} RenderedOpensWithFirstHeader(manifests: Json, show: Json -> string)
    requires Truthy(manifests) && FormatManifests(manifests, show).Ok?
    ensures IsPrefix(Header(1), FormatManifests(manifests, show).value)
    ensures FormatManifests(manifests, show).value != NoManifests
  {
    var items := Iter(manifests).value;
    if manifests.Obj? {
      NonEmptyHasKeys(manifests.fields);
    }
    assert items != [];
    var lines := AllManifestLines(items, 1, show).value;
    assert lines[0] == Header(1);
    JoinStartsWithFirst("\n", lines);
    var text := Join("\n", lines);
    assert text[0] == '\n';
  }

  /** The identification lines fall back to their defaults entry by entry. */
  lemma IdentificationDefaults(fields: seq<(string, Json)>, show: Json -> string)
    ensures IdentificationLines(Obj(fields), show) == Ok([
      "  Name: " + Shown(fields, "conversationalName", "Unknown", show),
      "  Organization: " + Shown(fields, "organization", "Unknown", show),
      "  Description: " + Shown(fields, "synopsis", "No description", show),
      "  Speaker URI: " + Shown(fields, "speakerUri", "Unknown", show)])
  {
  }

  /** The entry `key` as shown, or `fallback` when it is missing. */
  function Shown(fields: seq<(string, Json)>, key: string, fallback: string, show: Json -> string): string
  {
    match Lookup(fields, key)
    case Some(v) => PyStr(show, v)
    case None => fallback
  }

  /** A capability shows one line of keyphrases and at most one description:
      the first, and only when the descriptions are non-empty.  A missing
      `keyphrases` or `descriptions` counts as the empty list. */
  lemma CapabilityShape(j: nat, fields: seq<(string, Json)>, phrases: seq<string>, descriptions: seq<Json>, show: Json -> string)
    requires Gives(fields, "keyphrases", Arr([]), Arr(StrList(phrases)))
    requires Gives(fields, "descriptions", Arr([]), Arr(descriptions))
    ensures CapabilityLines(j, Obj(fields), show) ==
      Ok(["    " + NatToString(j) + ". Keywords: " + Join(", ", phrases)] +
         (if descriptions == [] then [] else ["       Description: " + PyStr(show, descriptions[0])]))
  {
    TextsOfStrList(phrases);
    var c := Obj(fields);
    assert Get(c, "keyphrases", Arr([])) == Ok(Arr(StrList(phrases)));
    assert Iter(Arr(StrList(phrases))) == Ok(StrList(phrases));
    assert JoinStrings(", ", StrList(phrases)) == Ok(Join(", ", phrases));
    assert Get(c, "descriptions", Arr([])) == Ok(Arr(descriptions));
    var line := "    " + NatToString(j) + ". Keywords: " + Join(", ", phrases);
    if descriptions == [] {
      assert CapabilityLines(j, c, show) == Ok([line]);
      assert [line] + [] == [line];
    } else {
      assert First(Arr(descriptions)) == Ok(descriptions[0]);
      var d := "       Description: " + PyStr(show, descriptions[0]);
      assert CapabilityLines(j, c, show) == Ok([line, d]);
      assert [line] + [d] == [line, d];
    }
  }

  /** The layout of one manifest's lines: its header; then the four
      identification lines exactly when `identification` is truthy (a truthy
      value that is not a dictionary raises); then, when `capabilities` is
      truthy, the line `Capabilities: N` with N its length, followed by the
      capability lines numbered from 1. */
  lemma {:induction false} ManifestLayout(k: nat, fields: seq<(string, Json)>, show: Json -> string)
    requires ManifestLines(k, Obj(fields), show).Ok?
    ensures var lines := ManifestLines(k, Obj(fields), show).value;
      var identification := Entry(fields, "identification");
      var capabilities := Entry(fields, "capabilities");
      var at := if Truthy(identification) then 5 else 1;
      |lines| >= at && lines[0] == Header(k) &&
      (Truthy(identification) ==>
        identification.Obj? && lines[1..5] == IdentificationLines(identification, show).value) &&
      (!Truthy(capabilities) ==> |lines| == at) &&
      (Truthy(capabilities) ==>
        Iter(capabilities).Ok? && |lines| > at &&
        lines[at] == "  Capabilities: " + NatToString(|Iter(capabilities).value|) &&
        CapabilitiesLines(Iter(capabilities).value, 1, show).Ok? &&
        lines[at + 1..] == CapabilitiesLines(Iter(capabilities).value, 1, show).value)
  {
    var manifest := Obj(fields);
    var identification := Entry(fields, "identification");
    var capabilities := Entry(fields, "capabilities");
    assert Get(manifest, "identification", Obj([])) == Ok(if Lookup(fields, "identification").Some? then identification else Obj([]));
    assert Get(manifest, "capabilities", Arr([])) == Ok(if Lookup(fields, "capabilities").Some? then capabilities else Arr([]));
    if Truthy(capabilities) {
      assert Len(capabilities).value == |Iter(capabilities).value|;
    }
  }
}
