/**
 * The location form (src/components/LocationInput.tsx): a text field whose
 * non-blank content is submitted with a fixed reference coordinate, and a
 * GPS button whose request ends, on every path, in exactly one selected
 * location and a cleared loading flag.
 */
module LocationEntry {
  import opened Domain

  /**
   * The characters `String.prototype.trim` removes: ECMAScript's WhiteSpace
   * (tab, vertical tab, form feed, space, no-break space, zero-width no-break
   * space and the other Unicode space separators) and LineTerminator.
   */
  predicate IsWhitespace(c: char)
  {
    c in {'\t', '\U{000B}', '\U{000C}', ' ', '\U{00A0}', '\U{FEFF}',
          '\U{1680}', '\U{2000}', '\U{2001}', '\U{2002}', '\U{2003}', '\U{2004}',
          '\U{2005}', '\U{2006}', '\U{2007}', '\U{2008}', '\U{2009}', '\U{200A}',
          '\U{202F}', '\U{205F}', '\U{3000}',
          '\n', '\r', '\U{2028}', '\U{2029}'}
  }

  /** A text made only of whitespace (the empty text included). */
  predicate IsBlank(s: string)
  {
    forall i :: 0 <= i < |s| ==> IsWhitespace(s[i])
  }

  /** Drops the leading whitespace: what is dropped is blank, and what is kept starts with text. */
  function TrimStart(s: string): (t: string)
    ensures |t| <= |s| && t == s[|s| - |t|..]
    ensures IsBlank(s[..|s| - |t|])
    ensures t != [] ==> !IsWhitespace(t[0])
  {
    if s != [] && IsWhitespace(s[0]) then TrimStart(s[1..]) else s
  }

  /** Drops the trailing whitespace: what is dropped is blank, and what is kept ends with text. */
  function TrimEnd(s: string): (t: string)
    ensures |t| <= |s| && t == s[..|t|]
    ensures IsBlank(s[|t|..])
    ensures t != [] ==> !IsWhitespace(t[|t| - 1])
    ensures s != [] && !IsWhitespace(s[0]) ==> t != []
  {
    if s != [] && IsWhitespace(s[|s| - 1]) then TrimEnd(s[..|s| - 1]) else s
  }

  /**
   * `s.trim()`: the slice of the text between a blank head and a blank tail;
   * empty exactly when the text is blank, and otherwise neither starting nor
   * ending with whitespace.
   */
  function Trim(s: string): (t: string)
    ensures exists i, j :: 0 <= i <= j <= |s| && t == s[i..j] && IsBlank(s[..i]) && IsBlank(s[j..])
    ensures t == [] <==> IsBlank(s)
    ensures t != [] ==> !IsWhitespace(t[0]) && !IsWhitespace(t[|t| - 1])
    ensures |t| <= |s|
  {
    var u := TrimStart(s);
    var i := |s| - |u|;
    var t := TrimEnd(u);
    assert t == s[i..i + |t|];
    assert s[i + |t|..] == u[|t|..];
    t
  }

  /** The reference coordinate attached to typed addresses and to the GPS fallback. */
  const ReferenceLatitude: real := 28.6139
  const ReferenceLongitude: real := 77.2090

  /** The location used when the device position is unavailable. */
  const Fallback: Location := Location(ReferenceLatitude, ReferenceLongitude, "Delhi, India (Default)")

  /** What a manual submit passes to `onLocationSelect`, if anything. */
  function ManualLocation(text: string): (sent: Option<Location>)
    ensures sent == None <==> IsBlank(text)
    ensures sent != None ==> sent.value == Location(ReferenceLatitude, ReferenceLongitude, text)
  {
    if Trim(text) != [] then Some(Location(ReferenceLatitude, ReferenceLongitude, text)) else None
  }

  /** The submit button's enablement: `!(!text.trim() || isLoading)`. */
  function SubmitEnabled(text: string, isLoading: bool): (enabled: bool)
    ensures enabled <==> !IsBlank(text) && !isLoading
  {
    !(Trim(text) == [] || isLoading)
  }

  /** The GPS button's enablement: `!(gpsLoading || isLoading)`. */
  function GpsEnabled(gpsLoading: bool, isLoading: bool): (enabled: bool)
    ensures enabled <==> !gpsLoading && !isLoading
  {
    !(gpsLoading || isLoading)
  }

  /** A click on an enabled submit button always selects a location. */
  lemma EnabledSubmitSelects(text: string, isLoading: bool)
    ensures SubmitEnabled(text, isLoading) ==>
              ManualLocation(text) == Some(Location(ReferenceLatitude, ReferenceLongitude, text))
  {
  }

  /**
   * What the device reports for one `getCurrentPosition` request. The address
   * of a success is the device's coordinates printed with four decimals; that
   * formatting is not modelled and the text is carried as it is.
   */
  datatype PositionOutcome = Position(latitude: real, longitude: real, formatted: string) | PositionError

  /** The location a position callback passes to `onLocationSelect`. */
  function LocationFor(outcome: PositionOutcome): (loc: Location)
    ensures outcome.Position? ==>
              loc.latitude == outcome.latitude && loc.longitude == outcome.longitude
    ensures outcome.PositionError? ==> loc == Fallback
  {
    match outcome
    case Position(lat, lon, formatted) => Location(lat, lon, formatted)
    case PositionError => Fallback
  }

  /** The `(manualLocation, gpsLoading)` state of the form and the calls it has made. */
  class LocationInput {
    /** The text field's content. */
    var manualLocation: string
    /** Whether the GPS button shows its spinner. */
    var gpsLoading: bool
    /** Geolocation requests whose callback has not run yet (bookkeeping, not component state). */
    ghost var pendingRequests: nat
    /** Every location passed to `onLocationSelect`, oldest first (bookkeeping, not component state). */
    ghost var selected: seq<Location>

    constructor ()
      ensures manualLocation == "" && !gpsLoading
      ensures pendingRequests == 0 && selected == []
    {
      manualLocation := "";
      gpsLoading := false;
      pendingRequests := 0;
      selected := [];
    }

    /** The field's `onChange`. */
    method ChangeText(text: string)
      modifies this`manualLocation
      ensures manualLocation == text
    {
      manualLocation := text;
    }

    /** `handleManualSubmit`: selects a location unless the text is blank. */
    method SubmitManual() returns (sent: Option<Location>)
      modifies this`selected
      ensures sent == ManualLocation(manualLocation)
      ensures selected == old(selected) + (if sent == None then [] else [sent.value])
    {
      if Trim(manualLocation) != [] {
        var mock := Location(ReferenceLatitude, ReferenceLongitude, manualLocation);
        selected := selected + [mock];
        sent := Some(mock);
      } else {
        sent := None;
      }
    }

    /**
     * The synchronous part of `handleGPSLocation`. With geolocation available
     * it starts a request and leaves the spinner on; without it, it selects
     * the fallback at once and turns the spinner off.
     */
    method RequestPosition(supported: bool)
      modifies this`gpsLoading, this`pendingRequests, this`selected
      ensures supported ==> gpsLoading && pendingRequests == old(pendingRequests) + 1 && selected == old(selected)
      ensures !supported ==>
                !gpsLoading && pendingRequests == old(pendingRequests) && selected == old(selected) + [Fallback]
    {
      gpsLoading := true;
      if supported {
        pendingRequests := pendingRequests + 1;
      } else {
        selected := selected + [Fallback];
        gpsLoading := false;
      }
    }

    /** The success or error callback of a pending request: one selection, spinner off, no retry. */
    method PositionCallback(outcome: PositionOutcome)
      requires pendingRequests > 0
      modifies this`gpsLoading, this`pendingRequests, this`selected
      ensures !gpsLoading && pendingRequests == old(pendingRequests) - 1
      ensures selected == old(selected) + [LocationFor(outcome)]
    {
      selected := selected + [LocationFor(outcome)];
      gpsLoading := false;
      pendingRequests := pendingRequests - 1;
    }

    /**
     * One click on the GPS button followed by the device's answer, if any:
     * whatever the device does, exactly one location is selected, it is the
     * device's position or the fallback, and the spinner ends off.
     */
    method UseGps(supported: bool, outcome: PositionOutcome)
      modifies this`gpsLoading, this`pendingRequests, this`selected
      ensures !gpsLoading && pendingRequests == old(pendingRequests)
      ensures |selected| == |old(selected)| + 1 && selected[..|old(selected)|] == old(selected)
      ensures selected[|selected| - 1] == if supported then LocationFor(outcome) else Fallback
    {
      RequestPosition(supported);
      if supported {
        PositionCallback(outcome);
      }
    }
  }
}
