/** The onboarding form: location, phone number and GPS consent, checked in
    that order on submit; the location comes from the browser's geolocation,
    whose failures are turned into messages. */
module Onboarding {
  import opened Wrappers
  import opened Text
  import opened Forms
  import Browser

  const LocationRequired := "Location is required. Please use GPS to get your location."
  const PhoneRequired := "Phone number is required."
  const GpsRequired := "GPS permission is required to continue."
  const NoGeolocation := "Geolocation is not supported by this browser."
  const GeoPrefix := "Unable to retrieve your location. "

  /** The outcome of the validation chain: the first check that fails, or acceptance. */
  datatype Verdict = MissingLocation | MissingPhone | MissingGps | Accepted

  /** `handleSubmit`'s checks, in their order: location, then phone number,
      then GPS consent, each a truthiness test of the property. */
  function Validate(form: FormData): (v: Verdict)
    ensures v == MissingLocation <==> !Truthy(Get(form, "location"))
    ensures v == MissingPhone <==> Truthy(Get(form, "location")) && !Truthy(Get(form, "phoneNumber"))
    ensures v == MissingGps <==>
      Truthy(Get(form, "location")) && Truthy(Get(form, "phoneNumber")) && !Truthy(Get(form, "gpsEnabled"))
  {
    if !Truthy(Get(form, "location")) then MissingLocation
    else if !Truthy(Get(form, "phoneNumber")) then MissingPhone
    else if !Truthy(Get(form, "gpsEnabled")) then MissingGps
    else Accepted
  }

  /** Acceptance needs all three: the chain passes exactly when every check does. */
  lemma AcceptedIffAllPresent(form: FormData)
    ensures Validate(form) == Accepted <==>
      Truthy(Get(form, "location")) && Truthy(Get(form, "phoneNumber")) && Truthy(Get(form, "gpsEnabled"))
  {
  }

  /** The numeric codes of a `GeolocationPositionError` in the W3C
      Geolocation API. */
  const PermissionDenied := 1
  const PositionUnavailable := 2
  const Timeout := 3

  /** The error callback's message: a fixed prefix and the reason for the code. */
  function GeoErrorMessage(code: int): (msg: string)
    ensures StartsWith(msg, GeoPrefix)
    ensures code == PermissionDenied ==> msg == GeoPrefix + "Location access denied by user."
    ensures code == PositionUnavailable ==> msg == GeoPrefix + "Location information is unavailable."
    ensures code == Timeout ==> msg == GeoPrefix + "Location request timed out."
    ensures code !in {PermissionDenied, PositionUnavailable, Timeout} ==> msg == GeoPrefix + "An unknown error occurred."
  {
    GeoPrefix + (if code == PermissionDenied then "Location access denied by user."
                 else if code == PositionUnavailable then "Location information is unavailable."
                 else if code == Timeout then "Location request timed out."
                 else "An unknown error occurred.")
  }

  /** Each code tells its own reason: distinct known codes give distinct
      messages, and none of them is the message of an unknown code. */
  lemma GeoErrorMessagesDistinct(a: int, b: int)
    requires a in {PermissionDenied, PositionUnavailable, Timeout} && a != b
    ensures GeoErrorMessage(a) != GeoErrorMessage(b)
  {
    assert |GeoErrorMessage(a)| != |GeoErrorMessage(b)|;
  }

  /** The form the page starts with. */
  const Initial: FormData := map["location" := Str(""), "phoneNumber" := Str(""), "gpsEnabled" := Flag(false)]

  /** `handlePhoneChange(value)`: the phone number, or "" when the input is cleared. */
  function PhoneChanged(form: FormData, value: Option<string>): (r: FormData)
    ensures r.Keys == form.Keys + {"phoneNumber"}
    ensures r["phoneNumber"] == Str(if value.Some? then value.value else "")
    ensures forall k | k in form && k != "phoneNumber" :: r[k] == form[k]
  {
    form["phoneNumber" := Str(if value.Some? then value.value else "")]
  }

  /** The success callback: the coordinates as `${latitude}, ${longitude}`
      and GPS consent set. */
  function Located(form: FormData, latitude: string, longitude: string): (r: FormData)
    ensures Truthy(Get(r, "location")) && Truthy(Get(r, "gpsEnabled"))
    ensures r.Keys == form.Keys + {"location", "gpsEnabled"}
    ensures r["location"] == Str(latitude + ", " + longitude)
    ensures forall k | k in form && k != "location" && k != "gpsEnabled" :: r[k] == form[k]
  {
    form["location" := Str(latitude + ", " + longitude)]["gpsEnabled" := Flag(true)]
  }

  /** A located form with a phone number entered passes validation, in
      either order of the two steps. */
  lemma LocatedWithPhoneIsAccepted(form: FormData, latitude: string, longitude: string, phone: string)
    requires phone != ""
    ensures Validate(PhoneChanged(Located(form, latitude, longitude), Some(phone))) == Accepted
    ensures Validate(Located(PhoneChanged(form, Some(phone)), latitude, longitude)) == Accepted
  {
    var a := PhoneChanged(Located(form, latitude, longitude), Some(phone));
    assert Get(a, "location") == Get(Located(form, latitude, longitude), "location");
    var b := Located(PhoneChanged(form, Some(phone)), latitude, longitude);
    assert Get(b, "phoneNumber") == Some(Str(phone));
  }

  /** The page's state; `alerts` are the texts passed to `alert`. */
  class OnboardingPage {
    var form: FormData
    var locationError: string
    var isLoading: bool
    var alerts: seq<string>

    constructor ()
      ensures form == Initial && locationError == "" && !isLoading && alerts == []
    {
      form := Initial;
      locationError := "";
      isLoading := false;
      alerts := [];
    }

    /** `handleInputChange(e)` */
    method HandleInputChange(e: InputEvent)
      modifies this
      ensures form == ApplyInput(old(form), e)
      ensures locationError == old(locationError) && isLoading == old(isLoading) && alerts == old(alerts)
    {
      form := ApplyInput(form, e);
    }

    /** `handlePhoneChange(value)` */
    method HandlePhoneChange(value: Option<string>)
      modifies this
      ensures form == PhoneChanged(old(form), value)
      ensures locationError == old(locationError) && isLoading == old(isLoading) && alerts == old(alerts)
    {
      form := PhoneChanged(form, value);
    }

    /** `getCurrentLocation()` up to the request: without geolocation support
        only the error is set; otherwise loading starts and the error clears. */
    method GetCurrentLocation(supported: bool)
      modifies this
      ensures !supported ==> locationError == NoGeolocation && isLoading == old(isLoading)
      ensures supported ==> locationError == "" && isLoading
      ensures form == old(form) && alerts == old(alerts)
    {
      if !supported {
        locationError := NoGeolocation;
        return;
      }
      isLoading := true;
      locationError := "";
    }

    /** The success callback of the position request. */
    method PositionFound(latitude: string, longitude: string)
      modifies this
      ensures form == Located(old(form), latitude, longitude) && !isLoading
      ensures locationError == old(locationError) && alerts == old(alerts)
    {
      form := Located(form, latitude, longitude);
      isLoading := false;
    }

    /** The error callback of the position request. */
    method PositionFailed(code: int)
      modifies this
      ensures locationError == GeoErrorMessage(code) && !isLoading
      ensures form == old(form) && alerts == old(alerts)
    {
      locationError := GeoErrorMessage(code);
      isLoading := false;
    }

    /** `handleSubmit`: the first failing check reports itself and stops;
        only a form that passes all three goes to the dashboard. */
    method HandleSubmit(w: Browser.Window)
      modifies this, w
      ensures form == old(form) && isLoading == old(isLoading)
      ensures w.localStorage == old(w.localStorage) && w.pushes == old(w.pushes)
      ensures var v := Validate(old(form));
        && (v == MissingLocation ==> locationError == LocationRequired && alerts == old(alerts))
        && (v == MissingPhone ==> locationError == old(locationError) && alerts == old(alerts) + [PhoneRequired])
        && (v == MissingGps ==> locationError == old(locationError) && alerts == old(alerts) + [GpsRequired])
        && (v == Accepted ==> locationError == old(locationError) && alerts == old(alerts))
        && (w.hrefs == if v == Accepted then old(w.hrefs) + ["/dashboard"] else old(w.hrefs))
    {
      if !Truthy(Get(form, "location")) {
        locationError := LocationRequired;
        return;
      }
      if !Truthy(Get(form, "phoneNumber")) {
        alerts := alerts + [PhoneRequired];
        return;
      }
      if !Truthy(Get(form, "gpsEnabled")) {
        alerts := alerts + [GpsRequired];
        return;
      }
      w.hrefs := w.hrefs + ["/dashboard"];
    }
  }
}
