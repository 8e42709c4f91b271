/** Geocoding an address (utils/GeoCodingUtil.java): the address is cleaned
    for use in a URL, sent to the geocoding service, and the first result,
    if any, becomes a Location. */
module GeoCoding {
  import opened Common

  /** Java's `\s` in a regular expression: space, tab, newline, vertical tab,
      form feed and carriage return. */
  predicate IsRegexSpace(c: char) {
    c == ' ' || c == '\t' || c == '\n' || c == '\U{B}' || c == '\U{C}' || c == '\r'
  }

  /** The characters `[a-zA-Z0-9\s,]` matches; every other one is deleted. */
  predicate Kept(c: char) {
    ('a' <= c <= 'z') || ('A' <= c <= 'Z') || ('0' <= c <= '9') || IsRegexSpace(c) || c == ','
  }

  /** `replaceAll("[^a-zA-Z0-9\\s,]", "")` */
  function DropUnkept(s: string): string {
    if s == [] then [] else (if Kept(s[0]) then [s[0]] else []) + DropUnkept(s[1..])
  }

  /** `replace(" ", "+")` */
  function SpacesToPlus(s: string): string {
    if s == [] then [] else [if s[0] == ' ' then '+' else s[0]] + SpacesToPlus(s[1..])
  }

  /** `formatAddress` */
  function FormatAddress(address: string): string {
    SpacesToPlus(DropUnkept(address))
  }

  /** Deleting works character by character: on a concatenation it is the
      concatenation of the parts, and a single character is kept or dropped. */
  lemma {:induction false} DropUnkeptAppend(a: string, b: string)
    ensures DropUnkept(a + b) == DropUnkept(a) + DropUnkept(b)
  {
    if a != [] {
      assert (a + b)[1..] == a[1..] + b;
      DropUnkeptAppend(a[1..], b);
    } else {
      assert a + b == b;
    }
  }

  /** What survives the deletion is exactly the kept characters, in order. */
  lemma {:induction false} DropUnkeptKeeps(s: string)
    ensures forall c :: c in DropUnkept(s) ==> Kept(c) && c in s
    ensures |DropUnkept(s)| <= |s|
    ensures (forall i :: 0 <= i < |s| ==> Kept(s[i])) ==> DropUnkept(s) == s
  {
    if s != [] {
      DropUnkeptKeeps(s[1..]);
      if forall i :: 0 <= i < |s| ==> Kept(s[i]) {
        assert forall i :: 0 <= i < |s[1..]| ==> Kept(s[1..][i]) by {
          forall i | 0 <= i < |s[1..]| ensures Kept(s[1..][i]) {
            assert s[1..][i] == s[i + 1];
          }
        }
      }
    }
  }

  /** Replacing spaces keeps the length and each non-space character, turns
      each space into '+', and leaves no space. */
  lemma {:induction false} SpacesToPlusPointwise(s: string)
    ensures |SpacesToPlus(s)| == |s|
    ensures forall i :: 0 <= i < |s| ==> SpacesToPlus(s)[i] == if s[i] == ' ' then '+' else s[i]
  {
    if s != [] {
      SpacesToPlusPointwise(s[1..]);
      forall i | 1 <= i < |s|
        ensures SpacesToPlus(s)[i] == if s[i] == ' ' then '+' else s[i]
      {
        assert s[1..][i - 1] == s[i];
      }
    }
  }

  /** Replacing spaces changes nothing in a string without spaces. */
  lemma {:induction false} SpacesToPlusNoSpace(s: string)
    requires ' ' !in s
    ensures SpacesToPlus(s) == s
  {
    if s != [] {
      SpacesToPlusNoSpace(s[1..]);
    }
  }

  lemma {:induction false} SpacesToPlusAppend(a: string, b: string)
    ensures SpacesToPlus(a + b) == SpacesToPlus(a) + SpacesToPlus(b)
  {
    if a != [] {
      assert (a + b)[1..] == a[1..] + b;
      SpacesToPlusAppend(a[1..], b);
    } else {
      assert a + b == b;
    }
  }

  /** Formatting works character by character: the address is formatted
      piece by piece, and each character is dropped, turned into '+' (a
      space) or kept as it is (so tabs, newlines and commas survive). */
  lemma FormatAddressPiecewise(a: string, b: string, c: char)
    ensures FormatAddress(a + b) == FormatAddress(a) + FormatAddress(b)
    ensures FormatAddress([c]) == if !Kept(c) then [] else if c == ' ' then "+" else [c]
  {
    DropUnkeptAppend(a, b);
    SpacesToPlusAppend(DropUnkept(a), DropUnkept(b));
    assert [c][1..] == [];
    assert DropUnkept([c]) == if Kept(c) then [c] else [];
    if Kept(c) {
      assert SpacesToPlus([c]) == [if c == ' ' then '+' else c] + SpacesToPlus([]);
    }
  }

  /** The formatted address has one character per kept character of the
      address, contains no space, and consists of kept characters and '+'
      only. */
  lemma FormatAddressShape(address: string)
    ensures |FormatAddress(address)| == |DropUnkept(address)|
    ensures ' ' !in FormatAddress(address)
    ensures forall c :: c in FormatAddress(address) ==> c == '+' || (Kept(c) && c != ' ')
  {
    var kept := DropUnkept(address);
    DropUnkeptKeeps(address);
    SpacesToPlusPointwise(kept);
    var r := FormatAddress(address);
    forall c | c in r
      ensures c == '+' || (Kept(c) && c != ' ')
    {
      var i :| 0 <= i < |r| && r[i] == c;
      assert kept[i] in kept;
    }
  }

  /** '+' is not a kept character, so formatting twice removes the '+' the
      first pass wrote: formatting is idempotent on an address exactly when
      no space survives the deletion. */
  lemma FormatTwiceIffNoSpace(address: string)
    ensures FormatAddress(FormatAddress(address)) == FormatAddress(address) <==> ' ' !in DropUnkept(address)
  {
    if ' ' in DropUnkept(address) {
      FormatTwiceShrinks(address);
    } else {
      FormatTwiceKeeps(address);
    }
  }

  lemma FormatTwiceShrinks(address: string)
    requires ' ' in DropUnkept(address)
    ensures |FormatAddress(FormatAddress(address))| < |FormatAddress(address)|
  {
    var kept := DropUnkept(address);
    var once := FormatAddress(address);
    SpacesToPlusPointwise(kept);
    var i :| 0 <= i < |kept| && kept[i] == ' ';
    assert once[i] == '+';
    DropStrictlyShorter(once, i);
    SpacesToPlusPointwise(DropUnkept(once));
  }

  lemma FormatTwiceKeeps(address: string)
    requires ' ' !in DropUnkept(address)
    ensures FormatAddress(FormatAddress(address)) == FormatAddress(address)
  {
    var kept := DropUnkept(address);
    DropUnkeptKeeps(address);
    SpacesToPlusNoSpace(kept);
    assert FormatAddress(address) == kept;
    assert forall j :: 0 <= j < |kept| ==> Kept(kept[j]) by {
      forall j | 0 <= j < |kept| ensures Kept(kept[j]) {
        assert kept[j] in kept;
      }
    }
    DropUnkeptKeeps(kept);
  }

  /** A string with a character that is not kept loses at least that one. */
  lemma {:induction false} DropStrictlyShorter(s: string, i: nat)
    requires i < |s| && !Kept(s[i])
    ensures |DropUnkept(s)| < |s|
  {
    DropUnkeptKeeps(s[1..]);
    if i > 0 {
      assert s[1..][i - 1] == s[i];
      DropStrictlyShorter(s[1..], i - 1);
    }
  }

  /** The smallest address that shows formatting is not idempotent. */
  lemma FormatTwiceDiffers()
    ensures FormatAddress("a b") == "a+b"
    ensures FormatAddress(FormatAddress("a b")) == "ab"
  {
  }

  // ---------------------------------------------------------------------
  // The geocoding request
  // ---------------------------------------------------------------------

  /** The `address` object of a result, with its `country_code` entry if any. */
  datatype AddressObject = AddressObject(countryCode: Option<string>)

  /** One element of the service's JSON array: `lat`, `lon` (None where
      `getDouble` throws because the entry is missing or not a number) and
      the optional `address` object. */
  datatype GeoObject = GeoObject(lat: Option<real>, lon: Option<real>, address: Option<AddressObject>)

  /** `model/Location.java` */
  datatype Location = Location(latitude: real, longitude: real, countryCode: string)

  /** `getCountryCode`: the country code when the result has an address
      object with one, "" otherwise. */
  function GetCountryCode(location: GeoObject): (code: string)
    ensures location.address.Some? && location.address.value.countryCode.Some? ==>
      code == location.address.value.countryCode.value
    ensures !(location.address.Some? && location.address.value.countryCode.Some?) ==> code == ""
  {
    match location.address
    case None => ""
    case Some(a) => a.countryCode.GetOr("")
  }

  /** One element of the JSON array: an object, or any other JSON value
      (on which `getJSONObject` throws). */
  datatype GeoElement = Object(obj: GeoObject) | NotAnObject

  /** What the geocoding client gives for a request. */
  datatype GeoReply =
    | TransportFailed              // IOException from the client call itself
    | Unsuccessful                 // a response whose isSuccessful() is false
    | Interrupted                  // InterruptedException during the request
    | NotAnArray                   // a body that `new JSONArray` cannot parse
    | Results(results: seq<GeoElement>)

  /** The exceptions `getLocationFromAddress` throws. */
  datatype GeoError =
    | Transport             // the client's IOException, passed on
    | UnexpectedCode        // IOException("Unexpected code ...")
    | ThreadInterrupted     // RuntimeException wrapping the interruption
    | BodyNotArray          // JSONException from `new JSONArray(responseBody)`
    | FirstNotObject        // JSONException from getJSONObject(0)
    | MissingCoordinate     // JSONException from getDouble

  /** `getLocationFromAddress`, with the geocoding service as the parameter
      `geocode`: the formatted address is sent; the first result becomes the
      Location, and an empty result list gives null. */
  function GetLocationFromAddress(address: string, geocode: string -> GeoReply): Result<Option<Location>, GeoError> {
    match geocode(FormatAddress(address))
    case TransportFailed => Err(Transport)
    case Unsuccessful => Err(UnexpectedCode)
    case Interrupted => Err(ThreadInterrupted)
    case NotAnArray => Err(BodyNotArray)
    case Results(results) =>
      if |results| == 0 then Ok(None)
      else
        match results[0]
        case NotAnObject => Err(FirstNotObject)
        case Object(first) =>
          if first.lat.None? then Err(MissingCoordinate)
          else if first.lon.None? then Err(MissingCoordinate)
          else Ok(Some(Location(first.lat.value, first.lon.value, GetCountryCode(first))))
  }

  /** The three outcomes: null exactly for an empty array, a Location exactly
      when the first element is an object with both coordinates (and then it
      carries them), and each exception exactly on its own failure. */
  lemma GetLocationOutcomes(address: string, geocode: string -> GeoReply)
    ensures var reply := geocode(FormatAddress(address));
      GetLocationFromAddress(address, geocode) == Ok(None) <==> reply == Results([])
    ensures var reply := geocode(FormatAddress(address));
      GetLocationFromAddress(address, geocode).Ok? && GetLocationFromAddress(address, geocode).value.Some? <==>
        reply.Results? && |reply.results| > 0 && reply.results[0].Object? &&
        reply.results[0].obj.lat.Some? && reply.results[0].obj.lon.Some?
    ensures var reply := geocode(FormatAddress(address));
      var r := GetLocationFromAddress(address, geocode);
      r.Ok? && r.value.Some? ==>
        r.value.value == Location(reply.results[0].obj.lat.value, reply.results[0].obj.lon.value, GetCountryCode(reply.results[0].obj))
    ensures var reply := geocode(FormatAddress(address));
      var r := GetLocationFromAddress(address, geocode);
      (r == Err(Transport) <==> reply.TransportFailed?) &&
      (r == Err(UnexpectedCode) <==> reply.Unsuccessful?) &&
      (r == Err(ThreadInterrupted) <==> reply.Interrupted?) &&
      (r == Err(BodyNotArray) <==> reply.NotAnArray?) &&
      (r == Err(FirstNotObject) <==> reply.Results? && |reply.results| > 0 && reply.results[0].NotAnObject?)
  {
  }

  /** Only the first result is read: a location is found exactly when the
      service answers with a non-empty list whose first element has both
      coordinates, and it is built from that element; later results never
      matter. */
  lemma FirstResultOnly(address: string, geocode: string -> GeoReply, geocode': string -> GeoReply)
    requires geocode(FormatAddress(address)).Results? && geocode'(FormatAddress(address)).Results?
    requires var rs := geocode(FormatAddress(address)).results;
             var rs' := geocode'(FormatAddress(address)).results;
             |rs| > 0 && |rs'| > 0 && rs[0] == rs'[0]
    ensures GetLocationFromAddress(address, geocode) == GetLocationFromAddress(address, geocode')
    ensures var first := geocode(FormatAddress(address)).results[0];
      GetLocationFromAddress(address, geocode).Ok? <==> first.Object? && first.obj.lat.Some? && first.obj.lon.Some?
  {
  }

  /** Addresses that format alike are geocoded alike. */
  lemma SameFormatSameLocation(a: string, b: string, geocode: string -> GeoReply)
    requires FormatAddress(a) == FormatAddress(b)
    ensures GetLocationFromAddress(a, geocode) == GetLocationFromAddress(b, geocode)
  {
  }
}
