# TrekTimer recording core in Dafny

A model of the logic at the heart of the TrekTimer Android app:

- the **trek recording session** (`TrekViewModel`): start and stop, the
  once-a-second elapsed-time counter, route points in arrival order, the
  distance summed over consecutive legs, the last reported speed, and the
  trek records (GPS or manual) handed to the repository (`tracking.dfy`,
  with the record shape in `trek.dfy` and route length in `geo.dfy`);
- the **manual-entry form** (`ManualEntryScreen`): the hours and minutes
  filters, the duration formula, the distance estimate that exists only
  when both endpoints are resolved, the reset of an endpoint when its text
  is edited, and the Save action (`manual_entry.dfy`);
- the **elapsed-time formatter** `formatElapsedTime` (`elapsed_format.dfy`);
- the **sign-in form validator** (`AuthScreen`): the ordered checks with
  their messages, the submit action and the mode toggle (`auth.dfy`).

`text.dfy` holds Kotlin's `isBlank`, `isDigit` and `toIntOrNull` and the
decimal rendering used by `%d`; `options.dfy` holds Kotlin's nullable values.

Collaborators are parameters. The platform geodesic
(`Location.distanceBetween`, metres converted to kilometres) is a `Metric`:
any non-negative distance function, fixed when a session or form is built.
The email pattern is a predicate given to the sign-in form. Clock readings
are `now` arguments. Geocoder answers are `Option<GeocodedLocation>`
arguments. Records handed to the repository are appended to the session's
ghost log `saved`.

The session keeps one invariant (`TrekSession.Valid`): the timer runs
exactly while tracking, and `distance` is always the length of the recorded
route (`Geo.PathLength`, summed from the first point). Every operation
preserves it. So the distance is never negative and, after any resets and
any mix of fixes and ticks, always equals the sum of the legs.

The model follows the code as written:

- The session has two states, tracking or not, and a stopped session can
  be restarted; restarting resets it.
- `addPoint` is not gated on tracking, so a fix arriving after a stop is
  still appended. The record already saved is a value and does not change.
- Stopping returns nothing. The record is saved as a side effect, and only
  when there are two or more points and a signed-in user.
- `clearTrek` leaves the start stamp as it was.
- A manual save with an unresolved endpoint is not an error: the Save
  action does nothing. A save with no signed-in user also does nothing.

## Model

| member | source | states |
|---|---|---|
| `Geo.PathLengthSnoc` | app/src/main/java/com/example/trektimer/ui/tracking/TrekViewModel.kt:107-110 | adding a point to a non-empty route adds exactly the leg from the last point to it; adding to an empty route leaves the length 0 |
| `Geo.PathLength` | app/src/main/java/com/example/trektimer/ui/tracking/TrekViewModel.kt:107-110 | the leg sum the session's distance accumulates: never negative, and 0 for fewer than two points |
| `Geo.PathLengthPrefix` | app/src/main/java/com/example/trektimer/ui/tracking/TrekViewModel.kt:104-114 | extending a route never shortens it (distance is non-decreasing) |
| `Tracking.AvgSpeed` | app/src/main/java/com/example/trektimer/ui/tracking/TrekViewModel.kt:131-135 | for a positive duration, speed times duration is the distance in metres; otherwise the speed is 0; never negative for a non-negative distance |
| `Tracking.GpsTrek` | app/src/main/java/com/example/trektimer/ui/tracking/TrekViewModel.kt:147-155 | a recorded trek's duration is the tick counter, its route the points in order, its average speed consistent with distance and duration, and it has no manual-entry fields |
| `Tracking.ManualTrek` | app/src/main/java/com/example/trektimer/ui/tracking/TrekViewModel.kt:174-204 | a manual trek starts now and ends duration*1000 ms later, its route is exactly start then end, it is flagged manual, keeps names and coordinates, and its speed is consistent |
| `Tracking.TrekSession.constructor` | app/src/main/java/com/example/trektimer/ui/tracking/TrekViewModel.kt:31-57 | a new session is not tracking, has no points, zero statistics, no user and nothing saved |
| `Tracking.TrekSession.SetUser` | app/src/main/java/com/example/trektimer/ui/tracking/TrekViewModel.kt:53-57 | sets the user the records are attributed to |
| `Tracking.TrekSession.StartTracking` | app/src/main/java/com/example/trektimer/ui/tracking/TrekViewModel.kt:71-89 | no change at all while tracking; otherwise empties the route, zeroes distance, speed and counter, stamps the start, starts tracking and the timer |
| `Tracking.TrekSession.Tick` | app/src/main/java/com/example/trektimer/ui/tracking/TrekViewModel.kt:84-87 | a tick adds exactly one second while the timer runs and changes nothing else |
| `Tracking.TrekSession.RunTimer` | app/src/main/java/com/example/trektimer/ui/tracking/TrekViewModel.kt:83-88 | running the timer loop for n seconds adds n to the counter while tracking and nothing otherwise |
| `Tracking.TrekSession.AddPoint` | app/src/main/java/com/example/trektimer/ui/tracking/TrekViewModel.kt:104-114 | appends exactly the new position, keeps earlier points, adds the last leg to the distance (none for the first point), never decreases it, overwrites the speed; no tracking guard |
| `Tracking.TrekSession.StopTracking` | app/src/main/java/com/example/trektimer/ui/tracking/TrekViewModel.kt:91-102 | no change when not tracking (so a second stop is a no-op); otherwise stops tracking and the timer, keeps route and statistics, and logs one GPS record exactly when there are at least two points and a user |
| `Tracking.TrekSession.SaveTrek` | app/src/main/java/com/example/trektimer/ui/tracking/TrekViewModel.kt:126-160 | only after the timer is cancelled; logs the GPS record unless no user is signed in |
| `Tracking.TrekSession.SaveManualTrek` | app/src/main/java/com/example/trektimer/ui/tracking/TrekViewModel.kt:162-209 | logs exactly one manual record built from the arguments, or nothing when no user is signed in |
| `Tracking.TrekSession.ClearTrek` | app/src/main/java/com/example/trektimer/ui/tracking/TrekViewModel.kt:211-219 | empties the route, zeroes distance, speed and counter, stops tracking and the timer |
| `Text.ToIntOrNull` | app/src/main/java/com/example/trektimer/ui/tracking/ManualEntryScreen.kt:62-63 | a digit string reads as its value when it fits an Int; empty text or text not starting with a sign or digit reads as null; results are 32-bit |
| `ManualEntry.DurationSeconds` | app/src/main/java/com/example/trektimer/ui/tracking/ManualEntryScreen.kt:61-65 | the duration is a whole number of minutes, 0 when neither field reads as a number, and for texts of at most two digits the decimal values of hours*3600 + minutes*60 |
| `ManualEntry.DurationUnderFilters` | app/src/main/java/com/example/trektimer/ui/tracking/ManualEntryScreen.kt:311-331 | text accepted by both filters gives a multiple of 60 between 0 and 99 h 59 min |
| `ManualEntry.DurationReachable` | app/src/main/java/com/example/trektimer/ui/tracking/ManualEntryScreen.kt:311-331 | every multiple of 60 up to 99 h 59 min can be entered through the filters |
| `ManualEntry.EstimatedDistance` | app/src/main/java/com/example/trektimer/ui/tracking/ManualEntryScreen.kt:67-80 | an estimate exists if and only if both endpoints are resolved, and is then the non-negative distance between them |
| `ManualEntry.ManualEntryForm.constructor` | app/src/main/java/com/example/trektimer/ui/tracking/ManualEntryScreen.kt:47-59 | the form starts empty, unresolved and not saving, within the filters |
| `ManualEntry.ManualEntryForm.Duration` | app/src/main/java/com/example/trektimer/ui/tracking/ManualEntryScreen.kt:61-65 | the form's duration is always a multiple of 60 between 0 and 99 h 59 min |
| `ManualEntry.ManualEntryForm.Distance` | app/src/main/java/com/example/trektimer/ui/tracking/ManualEntryScreen.kt:68-80 | the form's estimate is present exactly when both endpoints are resolved, and is never negative |
| `ManualEntry.ManualEntryForm.SaveEnabled` | app/src/main/java/com/example/trektimer/ui/tracking/ManualEntryScreen.kt:419 | Save is enabled exactly when both endpoints are resolved and nothing is saving, and then a distance exists |
| `ManualEntry.ManualEntryForm.EditStartText` | app/src/main/java/com/example/trektimer/ui/tracking/ManualEntryScreen.kt:141-144 | editing the start text clears the start's resolution and leaves the end alone |
| `ManualEntry.ManualEntryForm.EditEndText` | app/src/main/java/com/example/trektimer/ui/tracking/ManualEntryScreen.kt:222-225 | editing the end text clears the end's resolution and leaves the start alone |
| `ManualEntry.ManualEntryForm.EditHours` | app/src/main/java/com/example/trektimer/ui/tracking/ManualEntryScreen.kt:313 | new hours text is taken only if at most two digits; otherwise the old text stays |
| `ManualEntry.ManualEntryForm.EditMinutes` | app/src/main/java/com/example/trektimer/ui/tracking/ManualEntryScreen.kt:327-331 | new minutes text is taken only if at most two digits with value at most 59; otherwise the old text stays |
| `ManualEntry.ManualEntryForm.SearchStart` | app/src/main/java/com/example/trektimer/ui/tracking/ManualEntryScreen.kt:157-193 | a found place resolves the start and replaces its text with the place name; blank text or no result changes nothing |
| `ManualEntry.ManualEntryForm.SearchEnd` | app/src/main/java/com/example/trektimer/ui/tracking/ManualEntryScreen.kt:238-274 | the same for the end field |
| `ManualEntry.ManualEntryForm.Save` | app/src/main/java/com/example/trektimer/ui/tracking/ManualEntryScreen.kt:397-417 | with both endpoints resolved, asks the session to save one manual trek from the resolved places, the estimate and the entered duration; otherwise nothing happens |
| `ElapsedFormat.Decompose` | app/src/main/java/com/example/trektimer/ui/tracking/TrackingScreen.kt:230-233 | hours, minutes and seconds add back up to the input, minutes and seconds are within 59, and for a non-negative input all are non-negative |
| `ElapsedFormat.RenderFields` | app/src/main/java/com/example/trektimer/ui/tracking/TrackingScreen.kt:234-238 | the ':'-separated fields of the output are the hours (only when positive), then the zero-padded minutes and seconds |
| `ElapsedFormat.FormatShape` | app/src/main/java/com/example/trektimer/ui/tracking/TrackingScreen.kt:234-238 | under an hour the output is MM:SS: 5 characters, two fields of two digits each; from an hour on it is H:MM:SS with the hours unpadded and two digits each for minutes and seconds |
| `ElapsedFormat.RenderRoundTrip` | app/src/main/java/com/example/trektimer/ui/tracking/TrackingScreen.kt:234-238 | reading a rendered clock's fields back gives hours*3600 + minutes*60 + seconds |
| `ElapsedFormat.FormatElapsedTime` | app/src/main/java/com/example/trektimer/ui/tracking/TrackingScreen.kt:230-239 | for a non-negative input, reading the output's fields back recovers the number of seconds |
| `Text.IsBlank` | app/src/main/java/com/example/trektimer/ui/auth/AuthScreen.kt:36 | a string is blank exactly when it is empty or a whitespace character followed by a blank rest |
| `Text.Utf16Length` | app/src/main/java/com/example/trektimer/ui/auth/AuthScreen.kt:44 | a string's Kotlin length counts characters above U+FFFF twice: between its character count and twice that, and equal to it when every character is below U+10000 |
| `Text.Utf16OneChar` | app/src/main/java/com/example/trektimer/ui/auth/AuthScreen.kt:44 | a single character has Kotlin length 1, or 2 when it lies above U+FFFF (a surrogate pair) |
| `Text.Utf16Additive` | app/src/main/java/com/example/trektimer/ui/auth/AuthScreen.kt:44 | the Kotlin length of a concatenation is the sum of the lengths; with `Utf16OneChar` this gives the length of every string as one unit per character plus one per character above U+FFFF |
| `Auth.Message` | app/src/main/java/com/example/trektimer/ui/auth/AuthScreen.kt:37-49 | each failure's message is a non-empty sentence ending in '.' |
| `Auth.SurrogatePairsCountTwice` | app/src/main/java/com/example/trektimer/ui/auth/AuthScreen.kt:44-52 | a four-character password with two characters above U+FFFF passes the six-unit length check |
| `Auth.FirstFailure` | app/src/main/java/com/example/trektimer/ui/auth/AuthScreen.kt:35-53 | blank fields fail first, then email format, then a length under 6 UTF-16 code units, then (signing up only) a mismatched confirmation; no failure exactly when all four checks pass |
| `Auth.MessagesDistinct` | app/src/main/java/com/example/trektimer/ui/auth/AuthScreen.kt:36-50 | each failure has its own message |
| `Auth.SignInIgnoresConfirmation` | app/src/main/java/com/example/trektimer/ui/auth/AuthScreen.kt:48-51 | when signing in the confirmation field never affects the outcome |
| `Auth.AuthForm.constructor` | app/src/main/java/com/example/trektimer/ui/auth/AuthScreen.kt:28-32 | the form starts in sign-in mode with empty fields and no message |
| `Auth.AuthForm.Validate` | app/src/main/java/com/example/trektimer/ui/auth/AuthScreen.kt:35-53 | true exactly when no check fails, leaving the message as it was; otherwise false with the first failure's message |
| `Auth.AuthForm.Submit` | app/src/main/java/com/example/trektimer/ui/auth/AuthScreen.kt:176-186 | clears the message, then registers (signing up) or logs in (signing in) only when validation passes; the message is the first failure's or none |
| `Auth.AuthForm.ToggleMode` | app/src/main/java/com/example/trektimer/ui/auth/AuthScreen.kt:205-208 | flips sign-up mode and clears the message |

## Left out

- The platform geodesic is an abstract non-negative `Metric`. Its WGS84 computation and its single-precision rounding are not modelled. Distances and speeds are `real`, so there is no floating-point rounding anywhere.
- `Patterns.EMAIL_ADDRESS` is the predicate the sign-in form is built with. Its regular expression is platform code and is not modelled.
- The timer coroutine (`viewModelScope.launch`, `delay`, `isActive`) is not modelled as concurrency. A tick is a method call, and the timer loop runs with nothing interleaved. The repository save is a synchronous append to a ghost log, not an asynchronous database write.
- The route's JSON text (`routeJson`) is kept as the sequence of points it encodes; the JSON encoding is not modelled.
- Geocoding (the `Geocoder` call, its 500 ms callback wait, the "Could not find location" snackbar and the `isGeocodingStart`/`isGeocodingEnd` spinner flags) is left out. A search is modelled by its answer, given as an argument.
- `ManualEntry.ManualEntryForm.Save`: the model is synchronous, so `isSaving` is false again when Save returns; the time the button is disabled while saving is not captured, nor the snackbar and navigation after saving.
- Kotlin strings are UTF-16; the model's strings are sequences of code points. The password length check counts UTF-16 units explicitly (`Text.Utf16Length`). The filters and `isBlank` look at each UTF-16 unit, and a surrogate is neither a digit nor whitespace; in the model a character above U+FFFF is neither either, so their outcomes agree.
- `Text.IsDigit`: only the ASCII digits are modelled. Kotlin's `isDigit` and `toIntOrNull` also accept other Unicode decimal digits, consistently with each other.
- `ElapsedFormat.FormatElapsedTime`: the round trip is proved for non-negative seconds only, which are all the screen ever passes. Negative inputs are formatted with Kotlin's truncating division, but their output is not characterised.
- `String.format` is modelled with ASCII digits; locales whose zero digit is not '0' are not modelled.
- Kotlin's 64-bit `Long` is modelled as an unbounded integer. No value reached here (tick counts, durations of at most 99 h 59 min, epoch milliseconds) comes near the limit.
- The email, password and confirmation `onValueChange` handlers are plain assignments and are not modelled. The outcome of `register` and `login` belongs to the account service, which is not part of this model.
- `onCleared` (cancelling the timer when the view model is destroyed) and the reactive `treks` list are not modelled.
- The repositories, the Room database, the location service and tracker, navigation, map drawing and theming are not part of this model.
