/**
 * The search box: trimming, the recogniser for a "lat, lon" coordinate pair,
 * the dispatch between coordinates and geocoding, and the display names a
 * search produces.
 */
module Search {

  import opened Common

  /**
   * The characters JavaScript's `trim` removes and its `\s` class matches:
   * WhiteSpace (tab, vertical tab, form feed, space, no-break space, byte order
   * mark and the Unicode space separators) and LineTerminator.
   */
  predicate IsSpace(c: char)
  {
    || c == '\t' || c == '\n' || c == '\U{B}' || c == '\U{C}' || c == '\r' || c == ' '
    || c == '\U{A0}' || c == '\U{1680}' || ('\U{2000}' <= c <= '\U{200A}')
    || c == '\U{2028}' || c == '\U{2029}' || c == '\U{202F}' || c == '\U{205F}'
    || c == '\U{3000}' || c == '\U{FEFF}'
  }

  /** Every character of `s` from index `i` up to (not including) `j` is white space. */
  predicate SpaceBetween(s: string, i: int, j: int)
  {
    forall k :: i <= k < j && 0 <= k < |s| ==> IsSpace(s[k])
  }

  predicate AllSpace(s: string)
  {
    SpaceBetween(s, 0, |s|)
  }

  predicate IsDigit(c: char)
  {
    '0' <= c <= '9'
  }

  predicate AllDigits(s: string)
  {
    forall k :: 0 <= k < |s| ==> IsDigit(s[k])
  }

  /** The number of white-space characters `s` starts with. */
  function LeadingSpace(s: string): (n: nat)
    ensures n <= |s|
    ensures SpaceBetween(s, 0, n)
    ensures n < |s| ==> !IsSpace(s[n])
  {
    if |s| > 0 && IsSpace(s[0]) then 1 + LeadingSpace(s[1..]) else 0
  }

  /** The number of white-space characters `s` ends with. */
  function TrailingSpace(s: string): (n: nat)
    ensures n <= |s|
    ensures SpaceBetween(s, |s| - n, |s|)
    ensures n < |s| ==> !IsSpace(s[|s| - n - 1])
  {
    if |s| > 0 && IsSpace(s[|s| - 1]) then 1 + TrailingSpace(s[..|s| - 1]) else 0
  }

  /**
   * JavaScript's `String.prototype.trim`: the infix of `s` left after removing
   * white space at both ends.
   */
  function Trim(s: string): (r: string)
    ensures exists i :: 0 <= i <= |s| - |r| && r == s[i..i + |r|] && SpaceBetween(s, 0, i) && SpaceBetween(s, i + |r|, |s|)
    ensures |r| > 0 ==> !IsSpace(r[0]) && !IsSpace(r[|r| - 1])
    ensures |r| == 0 <==> AllSpace(s)
  {
    var i := LeadingSpace(s);
    var t := s[i..];
    var n := TrailingSpace(t);
    assert SpaceBetween(s, i + |t| - n, |s|) by {
      assert forall k :: |t| - n <= k < |t| ==> t[k] == s[i + k];
    }
    s[i..|s| - n]
  }

  /** Trimming is idempotent. */
  lemma TrimIdempotent(s: string)
    ensures Trim(Trim(s)) == Trim(s)
  {
  }

  /** The pattern `-?\d+\.?\d*`: an optional minus, digits, an optional point, digits. */
  predicate IsNumber(t: string)
  {
    var u := if |t| > 0 && t[0] == '-' then t[1..] else t;
    |u| > 0 && IsDigit(u[0]) && DigitsWithOptionalPoint(u[1..])
  }

  /** The pattern `\d*\.?\d*` with the point, if any, after the first run of digits. */
  predicate DigitsWithOptionalPoint(v: string)
  {
    if |v| == 0 then true
    else if IsDigit(v[0]) then DigitsWithOptionalPoint(v[1..])
    else v[0] == '.' && AllDigits(v[1..])
  }

  /**
   * `q` is a match of `^(-?\d+\.?\d*),\s*(-?\d+\.?\d*)$` whose two groups
   * capture `lat` and `lon`.
   */
  predicate CoordinateForm(q: string, lat: string, lon: string)
  {
    && |lat| + 1 + |lon| <= |q|
    && q[..|lat|] == lat
    && q[|lat|] == ','
    && SpaceBetween(q, |lat| + 1, |q| - |lon|)
    && q[|q| - |lon|..] == lon
    && IsNumber(lat)
    && IsNumber(lon)
  }

  /** The index of the first comma of `s`, or `|s|` when there is none. */
  function FirstComma(s: string): (c: nat)
    ensures c <= |s|
    ensures c < |s| ==> s[c] == ','
    ensures forall k :: 0 <= k < c ==> s[k] != ','
  {
    if |s| == 0 then 0
    else if s[0] == ',' then 0
    else 1 + FirstComma(s[1..])
  }

  /**
   * The coordinate recogniser: split at the first comma, skip the white space
   * after it, and accept when both sides are numbers. Returns the two groups.
   */
  function MatchCoordinates(q: string): (m: Option<(string, string)>)
    ensures m.Some? ==> CoordinateForm(q, m.value.0, m.value.1)
  {
    var c := FirstComma(q);
    if c == |q| then None
    else
      var lat := q[..c];
      var rest := q[c + 1..];
      var lon := rest[LeadingSpace(rest)..];
      if IsNumber(lat) && IsNumber(lon) then
        assert forall k :: 0 <= k < LeadingSpace(rest) ==> rest[k] == q[c + 1 + k];
        Some((lat, lon))
      else None
  }

  /** A number matched by the coordinate pattern contains no comma. */
  lemma NumberHasNoComma(t: string, k: nat)
    requires IsNumber(t) && k < |t|
    ensures t[k] != ','
  {
    var u := if |t| > 0 && t[0] == '-' then t[1..] else t;
    var off := |t| - |u|;
    if k >= off + 1 {
      NoCommaAfterFirstDigit(u[1..], k - off - 1);
    }
  }

  /** Digits with at most one decimal point contain no comma. */
  lemma {:induction false} NoCommaAfterFirstDigit(v: string, k: nat)
    requires DigitsWithOptionalPoint(v) && k < |v|
    ensures v[k] != ','
    decreases |v|
  {
    if k > 0 && IsDigit(v[0]) {
      NoCommaAfterFirstDigit(v[1..], k - 1);
    }
  }

  /** A number starts with a minus or a digit, so never with white space. */
  lemma NumberStartsWithoutSpace(t: string)
    requires IsNumber(t)
    ensures |t| > 0 && !IsSpace(t[0])
  {
  }

  /** The white space before a non-space character is what `LeadingSpace` counts. */
  lemma LeadingSpaceExact(s: string, n: nat)
    requires n <= |s| && SpaceBetween(s, 0, n)
    requires n < |s| ==> !IsSpace(s[n])
    ensures LeadingSpace(s) == n
  {
  }

  /**
   * The recogniser finds exactly the matches of the pattern: it returns the
   * groups `lat` and `lon` if and only if `q` has the coordinate form with
   * those groups. In particular the groups of a match are unique.
   */
  lemma MatchCoordinatesExact(q: string, lat: string, lon: string)
    ensures MatchCoordinates(q) == Some((lat, lon)) <==> CoordinateForm(q, lat, lon)
  {
    if CoordinateForm(q, lat, lon) {
      forall k | 0 <= k < |lat| ensures q[k] != ',' {
        assert q[k] == lat[k];
        NumberHasNoComma(lat, k);
      }
      assert FirstComma(q) == |lat|;
      var rest := q[|lat| + 1..];
      var n := |rest| - |lon|;
      assert forall k :: 0 <= k < n ==> rest[k] == q[|lat| + 1 + k];
      NumberStartsWithoutSpace(lon);
      assert rest[n] == lon[0];
      LeadingSpaceExact(rest, n);
      assert rest[n..] == lon;
    }
  }

  /** Every coordinate decomposition of `q` is the one the recogniser returns. */
  lemma CoordinateFormDetermined(q: string)
    ensures forall lat, lon :: CoordinateForm(q, lat, lon) ==> MatchCoordinates(q) == Some((lat, lon))
  {
    forall lat, lon | CoordinateForm(q, lat, lon)
      ensures MatchCoordinates(q) == Some((lat, lon))
    {
      MatchCoordinatesExact(q, lat, lon);
    }
  }

  /** What the search box asks for once its text is read. */
  datatype Query =
    | Ignore                                  // nothing but white space
    | Coordinates(lat: string, lon: string)   // the two captured numbers
    | PlaceName(text: string)                 // free text for the geocoder

  /**
   * Dispatch of the search text: blank text is ignored, a coordinate pair
   * skips geocoding, anything else is geocoded as trimmed.
   */
  function Classify(raw: string): (q: Query)
    ensures q == Ignore <==> AllSpace(raw)
    ensures q.Coordinates? ==> CoordinateForm(Trim(raw), q.lat, q.lon)
    ensures q.PlaceName? ==> q.text == Trim(raw) && |q.text| > 0
    ensures q.PlaceName? ==> forall lat, lon :: !CoordinateForm(q.text, lat, lon)
  {
    var query := Trim(raw);
    if |query| == 0 then Ignore
    else match MatchCoordinates(query)
      case Some((lat, lon)) => Coordinates(lat, lon)
      case None =>
        CoordinateFormDetermined(query);
        PlaceName(query)
  }

  /** A geocoder result: the fields the widget reads. */
  datatype Place = Place(name: string, admin1: Option<string>, country: Option<string>, latitude: real, longitude: real)

  /** JavaScript truthiness of an optional text field: present and not empty. */
  predicate Truthy(field: Option<string>)
  {
    field.Some? && |field.value| > 0
  }

  function OptionalPart(field: Option<string>): string
  {
    if Truthy(field) then ", " + field.value else ""
  }

  /**
   * The display name of a geocoded place: the name, then the region and then
   * the country, each only when present and not empty, separated by ", ".
   */
  function PlaceLabel(p: Place): (displayName: string)
    ensures !Truthy(p.admin1) && !Truthy(p.country) ==> displayName == p.name
    ensures Truthy(p.admin1) && !Truthy(p.country) ==> displayName == p.name + ", " + p.admin1.value
    ensures !Truthy(p.admin1) && Truthy(p.country) ==> displayName == p.name + ", " + p.country.value
    ensures Truthy(p.admin1) && Truthy(p.country) ==> displayName == p.name + ", " + p.admin1.value + ", " + p.country.value
    ensures p.name <= displayName
    ensures displayName == p.name <==> !Truthy(p.admin1) && !Truthy(p.country)
  {
    p.name + OptionalPart(p.admin1) + OptionalPart(p.country)
  }

  /**
   * The geocoder's answer is reduced to its first result; a missing or empty
   * result list means no match.
   */
  function FirstResult(results: Option<seq<Place>>): (p: Option<Place>)
    ensures p.Some? <==> results.Some? && |results.value| > 0
    ensures p.Some? ==> p.value == results.value[0]
  {
    match results
    case Some(places) => if |places| > 0 then Some(places[0]) else None
    case None => None
  }

  /**
   * The host's number handling, which the model does not define: `parseFloat`
   * of a captured group and `toFixed(4)` of a coordinate.
   */
  datatype Numerics = Numerics(parseFloat: string -> real, toFixed4: real -> string)

  lemma MadridTrimmed()
    ensures Trim("40.4168, -3.7038") == "40.4168, -3.7038"
  {
  }

  lemma MadridForm()
    ensures CoordinateForm("40.4168, -3.7038", "40.4168", "-3.7038")
  {
  }

  /** Madrid typed as a coordinate pair, with a space after the comma. */
  lemma MadridCoordinates()
    ensures Classify("40.4168, -3.7038") == Coordinates("40.4168", "-3.7038")
  {
    MadridTrimmed();
    MadridForm();
    MatchCoordinatesExact("40.4168, -3.7038", "40.4168", "-3.7038");
  }
}
