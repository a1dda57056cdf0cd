/**
 * The manual-entry form: two place names resolved to coordinates by an
 * external geocoder, an hours and a minutes field with input filters, the
 * straight-line distance estimate and the Save action.
 */
module ManualEntry {
  import opened Options
  import opened Text
  import opened Geo
  import opened Tracking

  /** A place the geocoder resolved: its display name and coordinates. */
  datatype GeocodedLocation = GeocodedLocation(name: string, latitude: real, longitude: real)

  function PointOf(l: GeocodedLocation): GeoPoint {
    GeoPoint(l.latitude, l.longitude)
  }

  /** The hours field takes text of at most two characters, all digits. */
  predicate HoursAccepted(t: string) {
    |t| <= 2 && AllDigits(t)
  }

  /** The minutes field takes at most two digits whose value (0 if empty) is at most 59. */
  predicate MinutesAccepted(t: string) {
    |t| <= 2 && AllDigits(t) && ToIntOrNull(t).GetOr(0) <= 59
  }

  /** The largest duration the two filtered fields can express: 99 h 59 min. */
  const MaxDurationSeconds: int := 99 * 3600 + 59 * 60

  /**
   * The entered duration in seconds: hours and minutes as read by
   * `toIntOrNull`, a field that does not read as a number counting as 0.
   * Always a whole number of minutes.
   */
  function DurationSeconds(hoursText: string, minutesText: string): (d: int)
    ensures d % 60 == 0
    ensures ToIntOrNull(hoursText).None? && ToIntOrNull(minutesText).None? ==> d == 0
    ensures AllDigits(hoursText) && |hoursText| <= 2 && AllDigits(minutesText) && |minutesText| <= 2 ==>
              d == DigitsValue(hoursText) * 3600 + DigitsValue(minutesText) * 60
  {
    TwoDigitsBound(hoursText);
    TwoDigitsBound(minutesText);
    var hours, minutes := ToIntOrNull(hoursText).GetOr(0), ToIntOrNull(minutesText).GetOr(0);
    WholeMinutes(hours * 60 + minutes);
    hours * 3600 + minutes * 60
  }

  lemma WholeMinutes(k: int)
    ensures (k * 60) % 60 == 0
  {
  }

  /** Under the field filters the duration is a whole number of minutes between 0 and 99 h 59 min. */
  lemma DurationUnderFilters(hoursText: string, minutesText: string)
    requires HoursAccepted(hoursText) && MinutesAccepted(minutesText)
    ensures 0 <= DurationSeconds(hoursText, minutesText) <= MaxDurationSeconds
    ensures DurationSeconds(hoursText, minutesText) % 60 == 0
  {
    TwoDigitsBound(hoursText);
    TwoDigitsBound(minutesText);
  }

  /** Conversely, every whole number of minutes up to 99 h 59 min can be entered. */
  lemma DurationReachable(d: int)
    requires 0 <= d <= MaxDurationSeconds && d % 60 == 0
    ensures exists h, m :: HoursAccepted(h) && MinutesAccepted(m) && DurationSeconds(h, m) == d
  {
    var hrs, mins := d / 3600, (d % 3600) / 60;
    var h, m := NatDigits(hrs), NatDigits(mins);
    NatDigitsRoundTrip(hrs);
    NatDigitsRoundTrip(mins);
    assert NatDigits(hrs / 10) == [DigitChar(hrs / 10)];
    assert NatDigits(mins / 10) == [DigitChar(mins / 10)];
    assert HoursAccepted(h) && MinutesAccepted(m);
    assert DurationSeconds(h, m) == d;
  }

  /**
   * The straight-line distance estimate exists exactly when both endpoints
   * are resolved, and is then the distance between them.
   */
  function EstimatedDistance(dist: Metric, start: Option<GeocodedLocation>,
                             end: Option<GeocodedLocation>): (r: Option<real>)
    ensures r.Some? <==> start.Some? && end.Some?
    ensures r.Some? ==> r.value == dist(PointOf(start.value), PointOf(end.value)) && r.value >= 0.0
  {
    if start.Some? && end.Some? then Some(dist(PointOf(start.value), PointOf(end.value))) else None
  }

  class ManualEntryForm {
    /** The geodesic used for the estimate. */
    const dist: Metric

    var startText: string
    var endText: string
    var startLocation: Option<GeocodedLocation>
    var endLocation: Option<GeocodedLocation>
    var hoursText: string
    var minutesText: string
    var isSaving: bool

    /** The duration fields only ever hold text their filters accept. */
    ghost predicate Valid()
      reads this
    {
      HoursAccepted(hoursText) && MinutesAccepted(minutesText)
    }

    constructor (dist: Metric)
      ensures Valid() && this.dist == dist
      ensures startText == "" && endText == "" && startLocation.None? && endLocation.None?
      ensures hoursText == "" && minutesText == "" && !isSaving
    {
      this.dist := dist;
      startText, endText := "", "";
      startLocation, endLocation := None, None;
      hoursText, minutesText := "", "";
      isSaving := false;
    }

    /** The duration the form would save: a whole number of minutes, at most 99 h 59 min. */
    function Duration(): (d: int)
      reads this
      requires Valid()
      ensures 0 <= d <= MaxDurationSeconds && d % 60 == 0
    {
      DurationUnderFilters(hoursText, minutesText);
      DurationSeconds(hoursText, minutesText)
    }

    /** The form's estimate: present exactly when both endpoints are resolved, never negative. */
    function Distance(): (r: Option<real>)
      reads this
      ensures r.Some? <==> startLocation.Some? && endLocation.Some?
      ensures r.Some? ==> r.value >= 0.0
    {
      EstimatedDistance(dist, startLocation, endLocation)
    }

    /** Save is enabled when both endpoints are resolved and no save is running; a distance then exists. */
    function SaveEnabled(): (enabled: bool)
      reads this
      ensures enabled <==> startLocation.Some? && endLocation.Some? && !isSaving
      ensures enabled ==> Distance().Some?
    {
      startLocation.Some? && endLocation.Some? && !isSaving
    }

    /** Typing in the start field forgets the start's resolution; the end is untouched. */
    method EditStartText(t: string)
      modifies this`startText, this`startLocation
      ensures startText == t && startLocation.None?
    {
      startText := t;
      startLocation := None;
    }

    /** Typing in the end field forgets the end's resolution; the start is untouched. */
    method EditEndText(t: string)
      modifies this`endText, this`endLocation
      ensures endText == t && endLocation.None?
    {
      endText := t;
      endLocation := None;
    }

    /** New hours text replaces the old only if the hours filter accepts it. */
    method EditHours(t: string)
      requires Valid()
      modifies this`hoursText
      ensures Valid()
      ensures hoursText == if HoursAccepted(t) then t else old(hoursText)
    {
      if |t| <= 2 && AllDigits(t) {
        hoursText := t;
      }
    }

    /** New minutes text replaces the old only if the minutes filter accepts it. */
    method EditMinutes(t: string)
      requires Valid()
      modifies this`minutesText
      ensures Valid()
      ensures minutesText == if MinutesAccepted(t) then t else old(minutesText)
    {
      if |t| <= 2 && AllDigits(t) {
        var mins := ToIntOrNull(t).GetOr(0);
        if mins <= 59 {
          minutesText := t;
        }
      }
    }

    /**
     * A search on the start field with the geocoder's answer `lookup`: only
     * non-blank text is looked up, and a found place becomes the resolved
     * start and replaces the text with its name.
     */
    method SearchStart(lookup: Option<GeocodedLocation>)
      modifies this`startText, this`startLocation
      ensures if !IsBlank(old(startText)) && lookup.Some?
              then startLocation == lookup && startText == lookup.value.name
              else startLocation == old(startLocation) && startText == old(startText)
    {
      if !IsBlank(startText) && lookup.Some? {
        startLocation := lookup;
        startText := lookup.value.name;
      }
    }

    /** The same search on the end field. */
    method SearchEnd(lookup: Option<GeocodedLocation>)
      modifies this`endText, this`endLocation
      ensures if !IsBlank(old(endText)) && lookup.Some?
              then endLocation == lookup && endText == lookup.value.name
              else endLocation == old(endLocation) && endText == old(endText)
    {
      if !IsBlank(endText) && lookup.Some? {
        endLocation := lookup;
        endText := lookup.value.name;
      }
    }

    /**
     * The Save action: with both endpoints resolved (and so a distance), the
     * session is asked to save a manual trek from the resolved names and
     * coordinates, the estimate and the entered duration; otherwise nothing
     * happens.
     */
    method Save(vm: TrekSession, now: int)
      modifies this`isSaving, vm`saved
      ensures old(startLocation).Some? && old(endLocation).Some? ==>
        var s, e := startLocation.value, endLocation.value;
        && !isSaving
        && vm.saved == old(vm.saved) +
             (if vm.uid != ""
              then [ManualTrek(vm.uid, now, s.name, s.latitude, s.longitude, e.name, e.latitude, e.longitude,
                               dist(PointOf(s), PointOf(e)),
                               DurationSeconds(hoursText, minutesText))]
              else [])
      ensures !(old(startLocation).Some? && old(endLocation).Some?) ==>
        isSaving == old(isSaving) && vm.saved == old(vm.saved)
    {
      var distance := Distance();
      if startLocation.Some? && endLocation.Some? && distance.Some? {
        isSaving := true;
        var s, e := startLocation.value, endLocation.value;
        vm.SaveManualTrek(s.name, s.latitude, s.longitude, e.name, e.latitude, e.longitude,
                          distance.value, DurationSeconds(hoursText, minutesText), now);
        isSaving := false;
      }
    }
  }
}
