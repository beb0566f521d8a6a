# cargoowatch in Dafny

cargoowatch is a shipment-tracking web application. Admins create shipments
between a sender and a recipient. The server then moves each shipment along
its road route on its own, following a simulated truck schedule:
- a four-hour handling delay;
- eleven driving hours a day at 55 mph;
- a floor of one mile per minute.

Admins can pause and resume that movement. They can also set a status, which
rewrites the event history. The public site shows tracking pages in ten
languages, a review widget and a support chat.

This project models the core of that system in Dafny and proves properties
of the model:

- **Progression engine** (`progression.dfy`). `calculateAutomaticProgression`
  and `getPointOnRoute` as pure functions over real-valued hours and
  coordinates. Three collaborators are parameters of the model (`Env`):
  - the route the routing service would answer;
  - the great-circle distance;
  - the nearest-city lookup.

  The engine's caching of a fetched route onto the record is modelled
  separately (`WithCachedRoute`), and proved transparent.
- **Shipment handlers** (`status_update.dfy`, `pause_resume.dfy`,
  `in_transit.dfy`). The status-update and pause/resume handler bodies, and
  the `setInTransit` maintenance script. Each is a method on a
  `ShipmentStore` that holds the shipment list. Each method is specified by
  a function that computes the new record. The lemmas relate those functions
  to the engine.
- **Locations** (`locations.dfy`):
  - `toStateCode`;
  - `parseLocationInput`;
  - the case-insensitive, first-match search of the built-in table of
    Cameroonian cities in `getCityCoordinates`.
- **Database mapping** (`supabase.dfy`). The four record transforms between
  the server's camel-case records and the database rows. Lemmas cover the
  round trips and the defaults.
- **Translator** (`i18n.dfy`). The browser `I18n` class:
  - its key lookup with English fallback;
  - `{{name}}` substitution;
  - text direction;
  - language switching;
  - browser-language detection;
  - language names.
- **Reviews** (`reviews.dfy`, `review_api.dfy`):
  - the widget's star bar, relative time and avatar choice;
  - the review submission handler.
- **Chat** (`chat_api.dfy`). The support-chat handlers on the chat list:
  start, message, mark read, assign and close.
- **Access rules** (`page_auth.dfy`). The page-access rule and the admin API
  guards.

`js.dfy` gives the JavaScript meanings the source relies on:
- truthiness and `||` defaults;
- `Math.round`;
- `trim`, case mapping, `split`, `join`, `slice`;
- decimal printing.

`wrappers.dfy` holds `Option` and `Result`. Time is an integer number of
milliseconds. Hours are real numbers.

## Model

| member | source | states |
|---|---|---|
| Progression.Clamp01 | server.js:830 | progress is clamped into [0, 1]; values inside are kept, values below 0 give 0 and values above 1 give 1 |
| Progression.SegmentIndex | server.js:833-834 | the segment index `floor(p * (n - 1))` is a valid vertex index, and is below the last vertex while p < 1 |
| Progression.FirstActiveEvent | server.js:889 | the event found is the first in the history with a non-empty, non-pending status: every earlier event is pending or has no status; no result means every event is pending or has no status |
| Progression.WithCachedRoute | server.js:871-879 | an eligible record with no cached route, given a fetched route, now holds that route's polyline and distance and nothing else changes; in every other case the record is unchanged |
| Progression.PointOnRoute | server.js:824-827 | there is a point exactly when the route is non-empty |
| Progression.StartTime | server.js:882-893 | the start is startedAt when present, else createdAt, else the timestamp of the first event with a non-pending status, else none |
| Progression.EffectiveHours | server.js:900-912 | effective hours are never negative and never above `max(0, elapsed - pausedDuration)`, and equal it unless a pause with a start time is running |
| Progression.DrivingHours | server.js:942-945 | inside the first 24 hours the driven hours are `min(11, window)` |
| Progression.DrivingProgress | server.js:958-963 | the driving-phase progress lies in [0, 1] |
| Progression.ArrivedUpdate | server.js:965-972 | the arrival update has progress 1, the recipient's coordinates, and the recipient's city, else 'Destination' |
| Progression.ComputeProgress | server.js:852-995 | an ineligible record (auto progress off or missing, delivered, or an endpoint latitude falsy) gets no update; any update has a start time at or before now; the position and city of an update before arrival are stated by `ProgressionLemmas.MovingPosition` |
| Progression.Eligible | server.js:853-859 | an eligible record has auto progress present and enabled and both endpoint latitudes present and non-zero; a delivered record is never eligible |
| Progression.PausedHours | server.js:906-911 | paused time is the stored pausedDuration in hours, plus, while a pause with a start time runs and now is past it, the time since that start; it is never below the stored duration |
| Progression.HandlingProgress | server.js:913-915 | the handling creep is `e / 4 * 0.05` up to four hours and 0.05 from then on; it lies in [0, 0.05] for e >= 0 and is positive once e > 0 |
| Progression.TotalMiles | server.js:948 | the total distance is the route distance when it is non-zero (a freshly fetched route's when none is cached, else the stored one), otherwise the straight-line distance |
| Progression.PositionAt | server.js:916-931 | with a non-empty route the position is the route point at that share; otherwise it is the straight-line interpolation between the sender's and the recipient's coordinates (missing ones read as 0), which is the sender's point at share 0 |
| Progression.MovingUpdate | server.js:973-995 | the update carries the given progress, the position's latitude and longitude, and the nearest-city lookup's answer for exactly that point |
| Progression.NearestCity | server.js:741-742 | without a latitude or a longitude the label is 'In Transit' |
| ProgressionLemmas.PointOnRouteWithinRange | server.js:824-850 | on a non-empty route the point exists and stays inside any latitude/longitude box that holds every vertex |
| ProgressionLemmas.TwoPointRouteIsStraightLine | server.js:833-847 | on a two-point route the point is the straight-line interpolation `a + (b - a) * clamp(p)` |
| ProgressionLemmas.PointOnRouteEnds | server.js:830-840 | progress at or above 1 gives the last vertex, progress at or below 0 gives the first |
| ProgressionLemmas.PointOnRouteClamps | server.js:830 | out-of-range progress answers as its clamped value |
| ProgressionLemmas.DrivingHoursBounds | server.js:942-945 | driven hours `fullDays * 11 + min(11, remainder)` lie between 0 and the driving window |
| ProgressionLemmas.DrivingHoursMonotone | server.js:942-945 | driven hours never decrease as the window grows, across 24-hour boundaries too |
| ProgressionLemmas.MinimumSpeedDominates | server.js:958-963 | on a positive distance the progress equals `min(1, window * 60 / miles)`: the one-mile-per-minute floor always wins over the 55 mph duty cycle |
| ProgressionLemmas.NegativeDistanceProgress | server.js:958-963 | a negative total distance gives progress 0 |
| ProgressionLemmas.DrivingProgressBounds | server.js:958-963 | driving-phase progress lies in [0, 1] and is at least the minimum-speed estimate |
| ProgressionLemmas.DrivingProgressMonotone | server.js:958-963 | driving-phase progress never decreases as the window grows |
| ProgressionLemmas.EffectiveHoursMonotone | server.js:906-912 | effective elapsed hours never decrease as the clock advances, paused or not |
| ProgressionLemmas.PausedEffectiveHours | server.js:906-912 | while paused, with now at or after pausedAt, effective hours are `max(0, pausedAt - start - pausedDuration)`, which does not depend on now |
| ProgressionLemmas.NoUpdateIff | server.js:852-956 | the engine returns nothing exactly when one of these holds: auto progress is missing or off; the status is delivered; an endpoint latitude is falsy; no start time exists; the clock is before the start; or the total distance is 0, past the handling delay |
| ProgressionLemmas.HandlingPhaseProgress | server.js:913-939 | within the handling delay the engine answers with progress `min(0.05, e / 4 * 0.05)`, which lies in [0, 0.05] and is positive once e > 0 |
| ProgressionLemmas.DrivingPhaseProgress | server.js:942-972 | past the delay, on a non-zero distance, the engine answers with progress in [0, 1]; once the driving progress reaches 1 the answer is the recipient's coordinates and city (else 'Destination') with progress exactly 1 |
| ProgressionLemmas.ProgressInUnitInterval | server.js:852-995 | every progress the engine reports lies in [0, 1] |
| ProgressionLemmas.FullProgressIsDestination | server.js:965-972 | a reported progress of 1 is always the arrival update at the recipient's coordinates |
| ProgressionLemmas.PauseFreezesProgress | server.js:906-912 | while paused and past the pause start, the engine gives the same answer at every time |
| ProgressionLemmas.ProgressMonotoneInDrivingPhase | server.js:942-963 | once past the handling delay, a later call still answers, with progress at least as large |
| ProgressionLemmas.ArrivalIsFinal | server.js:963-972 | once the destination is reached, every later call returns the same arrival update |
| ProgressionLemmas.CachedRouteIsTransparent | server.js:867-879 | caching the fetched route on the record does not change what the engine computes |
| ProgressionLemmas.MovingPosition | server.js:916-995 | every update with progress below 1 has both coordinates; they are the route point at that progress when a non-empty route is known, else the straight-line interpolation of the endpoints; its city is the nearest-city lookup of that point |
| ProgressionLemmas.StraightLineBetweenEndpoints | server.js:926-929 | without a route, a share in [0, 1] gives a point whose latitude and longitude each lie between the two endpoints' |
| ProgressionLemmas.OneHourIntoHandling | server.js:913-939 | one hour into the handling delay the progress is 0.0125 and, with no route, the Douala to Yaounde shipment sits 1.25% along the straight line (4.04856125, 9.7895775): near the origin but not at it, labelled with the lookup's city |
| ProgressionLemmas.SixHundredMilesArriveAfterFourteenHours | server.js:942-972 | a 600-mile trip reports the arrival update 14 hours after the start |
| ProgressionLemmas.HandlingBoundaryDrop | server.js:913-963 | progress is 0.05 at exactly 4 hours and drops below 0.001 one millisecond later, so the engine is not monotone across the handling boundary |
| ShipmentModel.Closed | server.js:1531-1534 | a closed event is completed and not current, and nothing else changes |
| ShipmentModel.IndexOf | server.js:1526 | `findIndex` gives the first record with the tracking id, and no result means none has it |
| StatusUpdate.StatusEvent | server.js:1543-1553 | the appended event has: the status, id and time; completed exactly for 'delivered' and current otherwise; the mapped title, else the status; the description when truthy; and the location when truthy, else the current city |
| StatusUpdate.ClosedEvents | server.js:1531-1534 | every prior event is closed, one for one |
| StatusUpdate.EndpointLocation | server.js:1577-1596 | the city is the endpoint's city, else the typed location, else ''; truthy endpoint coordinates are copied |
| StatusUpdate.TypedLocation | server.js:1598-1604 | a typed location becomes the current city |
| StatusUpdate.AutoAdvanced | server.js:1606-1615 | the engine branch starts the clock when it is unset and runs the engine on that record: an answer becomes the current location with lastUpdate = now, no answer leaves location and lastUpdate alone; a route the engine fetched is cached exactly as `WithCachedRoute` does; history, status and every pause field are kept |
| StatusUpdate.ClockStarted | server.js:1607-1609 | the record handed to the engine has its clock start unchanged when set and now otherwise; every other field is kept |
| StatusUpdate.Journaled | server.js:1531-1575 | the history is closed and one event is appended; a clock record exists afterwards; the location is not touched |
| StatusUpdate.Relocated | server.js:1577-1615 | the location step changes neither the history nor the status |
| StatusUpdate.StatusUpdated | server.js:1531-1621 | the record takes the status and updatedAt = now; its history is the old one closed plus the new event; deliveredAt becomes now only on delivery; identity, parties, package and cost are untouched, and a clock record exists |
| StatusUpdate.UpdateStatus | server.js:1519-1632 | an unknown id is a 404 and leaves the list alone; a record without a history is a 500; otherwise only that record is replaced, by the computed update |
| StatusUpdateLemmas.HistoryRewritten | server.js:1531-1553 | the new history is the old one closed, entry by entry, plus one event, which is completed exactly when the status is delivered |
| StatusUpdateLemmas.StampsAndIdentity | server.js:1617-1621 | the record takes the status and updatedAt = now, and keeps its identity, parties, package, cost, estimate and receipt; deliveredAt becomes now only on delivery |
| StatusUpdateLemmas.ClockStartsOnActivation | server.js:1567-1575 | pending to an active status, with no start time, gives an enabled, unpaused clock started now |
| StatusUpdateLemmas.ClockClearedOnPending | server.js:1597 | a pending status clears the start time |
| StatusUpdateLemmas.ClockKept | server.js:1567-1615 | any other status keeps an existing start time |
| StatusUpdateLemmas.ClockStartsOnlyWhenActive | server.js:1567-1609 | a start time appears only for an active status, and it is now |
| StatusUpdateLemmas.DeliveredAtRecipient | server.js:1577-1621 | on delivery the location is the recipient's city (else the typed location) with its truthy coordinates, and deliveredAt is now |
| StatusUpdateLemmas.PendingAtSender | server.js:1587-1596 | back to pending, the location is the sender's city with its truthy coordinates |
| StatusUpdateLemmas.TypedLocationWins | server.js:1598-1604 | a non-blank typed location for an active status becomes the current city, and neither lastUpdate nor the cached route changes |
| StatusUpdateLemmas.EngineMovesOnlyWithLastUpdate | server.js:1606-1614 | without a typed location, the location changes only together with lastUpdate = now |
| StatusUpdateLemmas.EngineMovesShipment | server.js:1606-1615 | without a typed location, an active shipment with an enabled, unpaused clock takes the engine's position with lastUpdate = now, or stays put when the engine has no answer; the cached route is the engine's and pausedDuration is kept |
| StatusUpdateLemmas.ReopenedDeliveryStaysPut | server.js:1606-1617 | reopening a delivered shipment without a typed location leaves its location where it was, because the engine sees the old status |
| PauseResume.PauseEvent | server.js:1662-1671 | the pause event is a current, uncompleted 'exception' stamped now at the current city, described by the reason, else 'Shipment paused for maintenance' |
| PauseResume.ResumeEvent | server.js:1686-1695 | the resume event is a current, uncompleted 'in_transit' stamped now at the current city, described as 'Shipment resumed after: ' plus the pause reason, else 'maintenance' |
| PauseResume.PausedAt | server.js:1659-1661 | a pause sets paused, pausedAt = now and the reason (default 'Maintenance'), and keeps the rest of the clock |
| PauseResume.ResumedAt | server.js:1676-1685 | a resume adds `now - pausedAt` to pausedDuration, clears paused, pausedAt and the reason, and keeps the rest |
| PauseResume.Toggled | server.js:1645-1699 | never a 404; a 500 exactly when a state change is asked of a record without a history; an update stamps updatedAt = now, leaves the paused flag as asked, keeps the old history as a prefix with at most one event added, and changes no field other than the clock record, the events and updatedAt |
| PauseResume.TogglePause | server.js:1634-1710 | an unknown id is a 404; otherwise the answer is the toggled record, and only that record changes in the list |
| PauseResumeLemmas.RepeatedToggleIsNoop | server.js:1657-1699 | pausing a paused shipment, or resuming a running one, only installs the default clock record when it is missing and stamps updatedAt |
| PauseResumeLemmas.PauseEffect | server.js:1657-1673 | a pause of a running shipment stops the clock at now with the reason and appends exactly one current, uncompleted 'exception' event; nothing but the clock record, the events and updatedAt changes; a record without a history is a 500 |
| PauseResumeLemmas.ResumeEffect | server.js:1675-1697 | a resume folds the running pause into pausedDuration and appends exactly one event, 'Shipment resumed after: ' plus the reason (default 'maintenance'); nothing but the clock record, the events and updatedAt changes |
| PauseResumeLemmas.PauseThenResume | server.js:1657-1697 | pausing at t1 and resuming at t2 adds exactly t2 - t1 to pausedDuration and appends two events |
| PauseResumeLemmas.EngineSeesOnlyTheClock | server.js:906-912 | two records that agree on parties, status and route, and have the same effective hours at two times, get the same engine answer |
| PauseResumeLemmas.PausedShipmentHolds | server.js:906-912 | after a pause at t1, the engine answers at any later time as it did at t1 |
| PauseResumeLemmas.PauseSetsClockBack | server.js:1676-1681 | after a pause from t1 to t2, the engine answers at now as the unpaused record would at now - (t2 - t1) |
| InTransit.ForcedEventCity | set-shipment-in-transit.js:63 | the event's location is never empty, and it is the current city when there is one |
| InTransit.ForcedClock | set-shipment-in-transit.js:43-50 | the clock is enabled and unpaused with no pause fields, and lastUpdate is now; an existing start time and pausedDuration are kept, otherwise they become now and 0 |
| InTransit.NeedsLocation | set-shipment-in-transit.js:70-71 | a record whose current location has non-zero coordinates never needs one; one that does has both endpoint latitudes present and non-zero |
| InTransit.OriginLocation | set-shipment-in-transit.js:72-76 | the filled-in location has the sender's coordinates and the sender's city, or 'Origin' when that is empty, so its city is never empty |
| InTransit.ForcedEvent | set-shipment-in-transit.js:58-67 | the pushed event is a current, uncompleted 'in_transit' stamped now, at the current city, else the sender's city, else 'In Transit' |
| InTransit.ForcedInTransit | set-shipment-in-transit.js:39-78 | the record becomes 'in_transit' with updatedAt = now and the forced clock; its history is the old one (or []) closed plus the forced event; the location is replaced only when it lacks coordinates; nothing else changes |
| InTransit.SetInTransit | set-shipment-in-transit.js:30-91 | the id is trimmed and upper-cased; an unknown id is an error that changes nothing; otherwise only that record is replaced, by the forced one |
| InTransitLemmas.ForcedInTransitEffect | set-shipment-in-transit.js:39-67 | the status is 'in_transit' and updatedAt is now; the history is closed and one current, uncompleted 'in_transit' event is appended |
| InTransitLemmas.LocationOnlyFilledIn | set-shipment-in-transit.js:70-78 | a location with truthy coordinates is kept; a replaced one carries the sender's coordinates, and the recipient has a latitude |
| InTransitLemmas.RerunKeepsClock | set-shipment-in-transit.js:48-50 | running the script twice neither restarts the clock nor loses paused time |
| InTransitLemmas.FreshTransitStartsAtOrigin | set-shipment-in-transit.js:43-78 | a fresh forced shipment with located endpoints is at progress 0 for the engine, at the first route vertex or at the sender |
| Locations.StateNameToCode | server.js:44-104 | every code in the state-name table is two upper-case letters |
| Locations.ToStateCode | server.js:387-396 | a result is always a two-letter upper-case code; a falsy or blank input gives none |
| Locations.ZipAt | server.js:447 | a match is a 5-digit or ZIP+4 code that occurs at the given position |
| Locations.FirstZipIndex | server.js:447 | the leftmost position from i where a postal code starts; no result exactly when no position from i matches |
| Locations.ParseLocation | server.js:398-454 | nothing and blank text give empty fields; an object's fields are copied with `||` defaults, the zip from zipCode, then postalCode, then zip; a non-blank text is trimmed and gets its city from the first comma part, its state from the second without a trailing postal code, its country from the third, else 'CM', and its zip from that code, else the first one in the text |
| Locations.ParseText | server.js:412-453 | the city is the first comma part, else ''; the country the third, else 'CM'; the state is the second part without a trailing postal code; the zip is that code, else the first one found in the text; all fields are comma-free and the zip empty or well formed |
| Locations.FromParts | server.js:419-451 | the city is the first comma part, else ''; the country the third, else 'CM'; the state the second without a trailing postal code; the zip that code, else the first one in the text |
| Locations.SplitStateZip | server.js:436-444 | a split-off last word is a postal code; with none the state is kept |
| Locations.SearchZip | server.js:446-451 | '' exactly when no position matches; otherwise the code at the leftmost matching position |
| Locations.TableMatch | server.js:706-710 | the coordinates of the first table entry whose name matches case-insensitively; no result exactly when no entry matches |
| Locations.CityCoordinates | server.js:457-727 | no input and empty text give nothing; otherwise the answer follows the search order `FirstHit` on the trimmed input text (for an address object: its non-empty city, state and country joined by ', ') and the parsed city; any result is a table entry's coordinates |
| Locations.FirstHit | server.js:703-725 | any result is a table entry's coordinates and is the match of one of the three candidates (first comma part, trimmed input, trimmed city); a first comma part that matches always wins |
| Locations.MatchCandidates | server.js:701-725 | the answer is the first comma part's match, else the trimmed input's match when the input is non-empty, else the trimmed city's match when the city is non-empty; it is none exactly when none of these matches |
| Locations.SearchTwoValues | server.js:714-725 | over the list the source builds (the trimmed input, then the city, each only when non-empty) the input's match wins, else the city's, and the answer is none when neither matches |
| Locations.FindCity | server.js:719-724 | the loop's answer is the first case-insensitive match of the table |
| Locations.TableMatchFirst | server.js:706-710 | when entry i is the first match, the search returns its coordinates |
| Locations.GetCityCoordinates | server.js:457-727 | the method with its loops returns what CityCoordinates specifies |
| Locations.MatchCandidatesLoop | server.js:701-725 | the two loops return what MatchCandidates specifies |
| LocationLemmas.StateCodeIsFixedPoint | server.js:391-393 | a state code maps to itself |
| LocationLemmas.TwoTrimmedLetters | server.js:391-393 | two letters map to their upper case |
| LocationLemmas.TwoLettersUpperCased | server.js:387-393 | two letters with blanks around them map to the upper case of the trimmed pair |
| LocationLemmas.MatchIgnoresCase | server.js:707 | the table search answers the same for a value and its lower case |
| LocationLemmas.CommaFreeTextUsesTrimmedInput | server.js:701-725 | a comma-free text is looked up by its trimmed form |
| LocationLemmas.AddressLookedUpByCity | server.js:457-725 | an address object with only a city is looked up by that city, and gives none when it is not in the table |
| LocationLemmas.FirstCommaPartWins | server.js:703-711 | with a comma, a match on the first part is the answer |
| LocationLemmas.SpelledOutNameLookedUp | server.js:394-395 | any other non-blank input is looked up in the state-name table by its trimmed, lower-cased form |
| LocationLemmas.NewYorkSpelledOut | server.js:387-395 | '  New York ' maps to 'NY' |
| LocationLemmas.TextCityAndCountry | server.js:412-434 | a non-blank text takes its city from the first comma part and its country from the third, else 'CM' |
| LocationLemmas.TextStateAndZip | server.js:419-451 | a non-blank text takes its state from the second comma part and splits off a trailing postal code, keeping the words; without one the zip is the first code found in the text |
| LocationLemmas.SplitStateZipKeepsWords | server.js:436-443 | the remaining state words followed by the split-off code are the state's words |
| Supabase.OrElse | supabase-db.js:116 | for an object or array default, only an absent value falls back to the default |
| Supabase.FlagOrFalse | supabase-db.js:136 | a missing flag reads false: the result is true exactly for true |
| Supabase.ShipmentToRow | supabase-db.js:103-167 | id, tracking id and status are copied; events default to []; the clock defaults to the default record; addresses and location are always present; both currencies are truthy |
| Supabase.ShipmentFromRow | supabase-db.js:169-234 | id, tracking id and status are copied; events default to []; the clock defaults to the default record; no cached route survives |
| Supabase.UserToRow | supabase-db.js:300-312 | the credentials are copied; the camel-case name wins over the legacy one; the role defaults to 'user' |
| Supabase.UserFromRow | supabase-db.js:314-326 | a column-for-column copy; no legacy fields |
| SupabaseLemmas.LoadedShipmentIsCanonical | supabase-db.js:169-234 | every loaded record is in canonical shape |
| SupabaseLemmas.CanonicalRoundTrip | supabase-db.js:103-234 | a canonical record survives a save and a load unchanged |
| SupabaseLemmas.SavedRowIsStable | supabase-db.js:103-234 | saving what was loaded from a saved row writes the same row |
| SupabaseLemmas.RoundTripKeepsWhatHandlersRead | supabase-db.js:103-234 | any record, saved and loaded, keeps: id, tracking id and status; the three timestamps; party names, e-mails and phones; endpoint coordinates and cities; the current city; and the estimate. Events and the clock are defaulted, and the cached route is dropped |
| SupabaseLemmas.CurrencyDefaults | supabase-db.js:130-146 | a missing package or cost currency is saved as 'USD', and an explicit one is kept |
| SupabaseLemmas.LoadedCurrencyDefaults | supabase-db.js:198-215 | a row without a currency loads as 'USD' |
| SupabaseLemmas.MissingClockBecomesDefault | supabase-db.js:153-229 | a row without a clock loads, and saves back, with the default record: enabled, unpaused, pausedDuration 0 |
| SupabaseLemmas.UserRoundTrip | supabase-db.js:300-326 | a user with a role and no legacy or empty fields survives the round trip |
| SupabaseLemmas.LegacyUserMigrates | supabase-db.js:306-308 | a legacy first name is carried over and a missing role becomes 'user' |
| I18n.Lookup | public/i18n.js:908 | a string exists exactly when the language and the key are present |
| I18n.Resolve | public/i18n.js:906-919 | the current language's string if truthy, else English's if truthy, else none |
| I18n.WordRun | public/i18n.js:923 | the run of `\w` characters ends at the first non-word character |
| I18n.PlaceholderAt | public/i18n.js:923 | a match is `{{`, a non-empty word run and `}}` |
| I18n.Substitute | public/i18n.js:922-928 | without parameters the translation is returned unchanged |
| I18n.Direction | public/i18n.js:901-904 | 'rtl' exactly for ar, he, fa and ur, else 'ltr' |
| I18n.LanguageName | public/i18n.js:1005-1018 | an unknown code names itself; a supported one has a different, non-empty name |
| I18n.PrimaryCode | public/i18n.js:872 | the primary code has no hyphen, and a hyphen-free tag is just lower-cased |
| I18n.BrowserTag | public/i18n.js:869 | the browser tag is never empty: navigator.language when truthy, else navigator.userLanguage when truthy, else 'en' |
| I18n.FirstSupported | public/i18n.js:887-895 | the first preferred language whose primary code is supported; none exactly when none is supported |
| I18n.DetectedLanguage | public/i18n.js:867-899 | the detected language is always in the supported list |
| I18n.DetectBrowserLanguage | public/i18n.js:867-899 | the search loop returns the detected language |
| I18n.FirstSupportedIsFirst | public/i18n.js:889-894 | when entry i is the first supported one, the search returns its primary code |
| I18n.Translator.constructor | public/i18n.js:860-865 | the language is the saved preference, else 'en', and the direction follows it |
| I18n.Translator.T | public/i18n.js:906-929 | an unresolvable key returns the key itself; without parameters the resolved string is returned unchanged |
| I18n.Translator.SetLanguage | public/i18n.js:931-938 | the language becomes the argument when the dictionary has it, else 'en', and the direction follows it |
| I18n.Translator.CurrentLanguage | public/i18n.js:994-996 | the current language |
| I18nLemmas.WordRunEndsAt | public/i18n.js:923 | a word run is determined by its first non-word character |
| I18nLemmas.SpanVerbatim | public/i18n.js:923-925 | text where no placeholder starts is copied |
| I18nLemmas.FalsyParamsKeepText | public/i18n.js:922-926 | without a truthy value for any name, every placeholder stays verbatim |
| I18nLemmas.SubstituteWithoutValues | public/i18n.js:922-928 | so the translation is returned unchanged |
| I18nLemmas.NoPlaceholderBefore | public/i18n.js:923 | no placeholder starts before the first `{{` |
| I18nLemmas.NoPlaceholderAfter | public/i18n.js:923 | no placeholder starts in a tail without `{{` |
| I18nLemmas.PlaceholderMatches | public/i18n.js:923 | `{{word}}` matches with the whole word as its name |
| I18nLemmas.PrefixCopied | public/i18n.js:923-925 | the text before the first placeholder is copied |
| I18nLemmas.PlaceholderReplaced | public/i18n.js:923-925 | a placeholder becomes its truthy parameter value, else stays verbatim, and the tail follows |
| I18nLemmas.OnePlaceholder | public/i18n.js:922-926 | a text with one placeholder is its prefix, the replacement and its suffix |
| I18nLemmas.SupportedCodesHaveNoHyphen | public/i18n.js:875 | the supported codes are two characters without a hyphen |
| I18nLemmas.WholeTagCheckIsSubsumed | public/i18n.js:882-885 | a whole tag that is supported is its own primary code, so the second check never decides |
| I18nLemmas.BrowserTagWins | public/i18n.js:869-880 | a supported browser tag wins over the preference list |
| I18nLemmas.PreferencesSearchedInOrder | public/i18n.js:887-895 | otherwise the first supported preference is chosen |
| I18nLemmas.EnglishByDefault | public/i18n.js:897-898 | with nothing supported, English is chosen |
| I18nLemmas.OnlyArabicIsRightToLeft | public/i18n.js:901-904 | of the supported languages only Arabic is right to left |
| Reviews.StarCount | public/reviews.js:22 | the count lies in 0..5; a non-number gives 0; a rating in [0, 5] gives its rounding |
| Reviews.Stars | public/reviews.js:21-24 | five characters: full stars below the count, empty ones from it on |
| Reviews.Bucket | public/reviews.js:31-36 | the unit is one of the five thresholds, at most the seconds, and the seconds are below the next threshold |
| Reviews.TimeAgo | public/reviews.js:26-37 | no date gives ''; under a minute, future dates included, gives 'À l'instant'; otherwise 'Il y a ', the whole (at least 1) count of the unit, then the unit's label |
| Reviews.JsRem | public/reviews.js:40 | JavaScript's `%`: Dafny's remainder for non-negative dividends, otherwise non-positive and above -n |
| Reviews.AvatarForIndex | public/reviews.js:39-41 | for i >= 0 the avatar is `AVATARS[i mod 9]`, and any result is one of the avatars |
| ReviewsLemmas.WholeRatingStars | public/reviews.js:21-24 | a whole rating k in 0..5 shows k full then 5 - k empty stars |
| ReviewsLemmas.RatingsClamped | public/reviews.js:22 | ratings from 4.5 show 5 stars, ratings below 0.5 none |
| ReviewsLemmas.StarsMonotone | public/reviews.js:22 | a higher rating never shows fewer stars |
| ReviewsLemmas.TimeAgoShowsWholeUnits | public/reviews.js:32-36 | the number printed is at least 1 and is the floor of seconds over the unit |
| ReviewsLemmas.TimeAgoBelowNextUnit | public/reviews.js:31-35 | below a year the number stays under 60 minutes, 24 hours, 30 days or 13 months |
| ReviewsLemmas.AvatarsCycle | public/reviews.js:39-41 | cards cycle through the nine avatars |
| ReviewsLemmas.NegativeIndices | public/reviews.js:39-41 | a negative index that is not a multiple of 9 reads no avatar |
| ReviewApi.StoredAuthor | server.js:1120 | the stored author is the non-empty prefix of the trimmed name of length min(trimmed length, 100) |
| ReviewApi.StoredRating | server.js:1121 | the stored rating is a whole 1..5 within half a star of the submitted one |
| ReviewApi.StoredComment | server.js:1122 | the stored comment is the prefix of the trimmed comment of length min(trimmed length, 1000), and '' for a non-string |
| ReviewApi.ValidatedReview | server.js:1109-1124 | accepted exactly when the author is a non-blank string and the rating a number in [1, 5]; otherwise the matching 400 message, author first; the stored author and comment are the trimmed texts cut to 100 and 1000 characters, the rating is within half a star, and the id and time are the given ones |
| ReviewApi.ReviewStore.AddReview | server.js:1117-1126 | a valid review is appended and an invalid request leaves the list alone |
| ReviewApi.StoredRatingShowsItsStars | server.js:1121 | a stored review shows exactly its rating in full stars in the widget |
| ChatApi.LiveChatOf | server.js:3334-3336 | the first open or active chat of the e-mail; none exactly when there is none |
| ChatApi.ChatIndex | server.js:3385 | the first chat with the id; none exactly when there is none |
| ChatApi.NewChat | server.js:3340-3351 | a new chat is open, empty and unassigned, stamped now, with the subject defaulted to 'General Inquiry' and a falsy tracking id as null |
| ChatApi.Started | server.js:3327-3339 | rejected exactly without a name or e-mail; an existing answer is the first live chat of that e-mail; a new chat is made only when there is none |
| ChatApi.NewMessage | server.js:3390-3398 | an unread message stamped now; the sender type defaults to 'client'; the sender name defaults to 'Admin' for admins, else to the client's name |
| ChatApi.WithMessage | server.js:3399-3401 | the message is appended, updatedAt is now, and 'open' becomes 'active'; nothing else changes |
| ChatApi.SeenByAdmin | server.js:3483-3486 | only the read flag changes, and it becomes true for client messages |
| ChatApi.UnreadCount | server.js:3494 | the count is 0 exactly when no client message is unread |
| ChatApi.AllSeen | server.js:3482-3487 | every message is seen, one for one |
| ChatApi.ChatStore.StartChat | server.js:3327-3355 | the answer is Started's, and the list grows by exactly the new chat when one is created |
| ChatApi.ChatStore.PostMessage | server.js:3377-3407 | no text is a 400; an unknown chat is a 404; it succeeds exactly when the text is truthy and the chat exists, and then the message is added to that chat only |
| ChatApi.ChatStore.MarkRead | server.js:3471-3494 | it succeeds exactly when the chat exists, else 404; then every client message is read and the unread count answered is 0; updatedAt changes only when something was unread |
| ChatApi.ChatStore.Assign | server.js:3430-3444 | it succeeds exactly when the chat exists, else 404; then the chat is assigned to the admin id, else the session user, and becomes active; nothing else changes |
| ChatApi.ChatStore.Close | server.js:3451-3463 | it succeeds exactly when the chat exists, else 404; then the chat becomes closed and is stamped now; nothing else changes |
| ChatApi.AllSeenLeavesNoneUnread | server.js:3480-3494 | after marking read, nothing is unread and only read flags changed |
| ChatApiLemmas.StartKeepsOneLiveChat | server.js:3333-3352 | starting a chat keeps at most one live chat per e-mail |
| ChatApiLemmas.StartAgainFindsIt | server.js:3333-3339 | a second start by the same client returns the chat the first created |
| ChatApiLemmas.PostKeepsOneLiveChat | server.js:3399-3401 | posting a message keeps at most one live chat per e-mail |
| ChatApiLemmas.CloseKeepsOneLiveChat | server.js:3459 | closing keeps at most one live chat per e-mail |
| ChatApiLemmas.AssignCanReopenASecondChat | server.js:3439-3440 | assigning a closed chat can leave a client with two live chats |
| ChatApiLemmas.MarkReadIdempotent | server.js:3481-3494 | marking read twice is marking read once, and leaves nothing unread |
| PageAuth.PageName | server.js:3536 | a trailing '.html' is removed and otherwise the name is kept |
| PageAuth.PageAccess | server.js:3534-3554 | public pages and pages not mentioning 'admin' are served; other admin pages exactly with an admin session |
| PageAuth.AdminApiAccess | server.js:363-375 | passes exactly with an admin session; 401 exactly without a session user id, otherwise 403 |
| PageAuthLemmas.LoginPageAlwaysServed | server.js:3531-3548 | the login page the redirect targets is always served, so there is no redirect loop |
| PageAuthLemmas.SuffixDoesNotMatter | server.js:3536 | a page is reached the same way with or without '.html' |
| PageAuthLemmas.RedirectOnlyForAdminPages | server.js:3534-3554 | a redirect happens exactly for a non-public admin page without an admin session, and that visitor is refused by the API too |
| PageAuthLemmas.DashboardMatchesApi | server.js:3544-3547 | the dashboard page is served exactly when the admin API passes |
| PageAuthLemmas.SignedInNonAdminForbidden | server.js:370-375 | a signed-in non-admin gets 403, never 401 |

## Observations

- **A zero distance gives no update.** When the total distance is 0 the
  engine returns nothing rather than completing the trip (server.js:949-956).
  `ProgressionLemmas.NoUpdateIff` states this.
- **The clock can start on any active status.** Besides the pending-to-active
  step (server.js:1567-1575), the status handler also sets `startedAt` in the
  engine branch for any active status whose clock is unset
  (server.js:1607-1609). See `StatusUpdate.AutoAdvanced`.
- **The engine sees the old status.** The status handler runs the engine
  before it writes the new status (server.js:1610, 1617). Reopening a
  delivered shipment therefore does not move it
  (`StatusUpdateLemmas.ReopenedDeliveryStaysPut`).

- **The minimum-speed floor always decides.** One mile per minute is 60 mph,
  faster than the 55 mph truck. So on any positive distance the
  driving-duty-cycle estimate never decides the progress
  (`ProgressionLemmas.MinimumSpeedDominates`).
- **Progress drops at the end of the handling delay.** At exactly 4 hours it
  reports 5%. Just after, it reports the driving estimate, which starts near
  0 (`ProgressionLemmas.HandlingBoundaryDrop`). Monotonicity is proved only
  inside the driving phase.
- **One check in `detectBrowserLanguage` is dead.** The whole-tag check
  (public/i18n.js:882-885) can never decide, because the primary-code check
  before it already accepts every such tag
  (`I18nLemmas.WholeTagCheckIsSubsumed`).
- **Assign can make a second live chat.** Assigning a closed chat reopens it
  as 'active'. A client who has since started a new chat then has two live
  chats, and `/api/chat/start` returns the older one
  (`ChatApiLemmas.AssignCanReopenASecondChat`).
- **Paused time can shrink.** If the clock reads earlier than `pausedAt`, a
  resume adds a negative amount to `pausedDuration`. `PauseResume.ResumedAt`
  states the sum as the code computes it.

## Left out

- Framework plumbing. HTTP routing, sessions as storage, logins,
  uploads, socket events, swagger, receipt rendering and the page files
  themselves are not modelled. The session is a parameter of the access
  rules.
- Persistence. Reading and writing the JSON files and the database are not
  modelled. Every handler works on an in-memory list: a `ShipmentStore`,
  `ChatStore` or `ReviewStore`. The Supabase queries are not modelled, only
  the record transforms.
- The routing service, the great-circle distance and the nearest-city
  lookup. They are parameters of the engine (`Progression.Env`). The caches
  in front of them are not modelled. `Progression.NearestCity` states only
  the 'In Transit' answer for a missing coordinate. A fetched route is
  assumed to have a finite distance; NaN distances are not modelled.
- The postal-code branch of `getCityCoordinates` (server.js:471-515). The
  code switches it off with `isUS = false`, so it is not modelled.
  `Locations.CityCoordinates` also does not model the cache.
- `Locations.SearchValues` states of itself only that an answer is a table
  entry's coordinates. Its search order is stated for the one list the code
  builds, the input and the city (`Locations.SearchTwoValues`), and not for
  lists of any length.
- `Js.ToLower` maps the ASCII capitals and the Latin-1 capitals U+00C0 to
  U+00DE except U+00D7; other letters are kept. `Js.ToUpper` maps the ASCII
  letters only. `Js.Trim` removes the ASCII white space, U+00A0 and U+FEFF;
  the other Unicode spaces are kept. So `Locations.ToStateCode` and the
  case-insensitive searches agree with JavaScript only on those characters.
- String lengths and `slice` count code points in the model, while
  JavaScript counts UTF-16 units. `ReviewApi.StoredAuthor` and
  `ReviewApi.StoredComment` (server.js:1120, 1122) and the two-letter test of
  `Locations.ToStateCode` (server.js:391) therefore differ from the code on
  text outside the Basic Multilingual Plane.
- `Js.Round` and the engine use exact reals. Floating-point rounding is not
  modelled.
- Invalid dates are not modelled. Timestamps are integers of milliseconds,
  and an absent timestamp is `None`.
- Coordinates: `None` stands for a null coordinate, which JavaScript's
  arithmetic reads as 0, and the model does the same. An undefined longitude,
  which makes the code's interpolation NaN (server.js:862-864, 925-930), is
  not modelled.
- `StatusUpdate.StatusRequest`: the status is a string, so a request with no
  status field (server.js:1522), which the code would store as `undefined`,
  is not modelled.
- `I18n.SubstituteFrom` carries no contract of its own; what it computes is
  stated by the lemmas on it (`I18nLemmas.SpanVerbatim`,
  `I18nLemmas.PlaceholderReplaced`, `I18nLemmas.FalsyParamsKeepText`).
- Dictionary lookups that JavaScript resolves through the object prototype
  are not modelled. This covers names such as 'constructor' in `statusMap`,
  `US_STATE_NAME_TO_CODE`, the language-name table and `translations`.
- Event ids, review ids and chat ids (uuids) and the current time are
  parameters.
- `StatusUpdate.StatusInfo` covers only the six mapped statuses. The title
  falls back to the status.
- `I18n.Translator.T` states the fallback and the no-parameter case. Its
  substitution is stated by the lemmas on `I18n.Substitute`.
- Parameter values are strings in the model. Non-string values, which
  JavaScript would convert, are not covered.
- The English dictionary is assumed present, as `t` assumes.
- `updatePage`, `localStorage`, `document`, `navigator` and
  `getAvailableLanguages` are not modelled. The navigator values and the
  saved preference are parameters of the model.
- The read-only chat endpoints (`GET /api/chat/:chatId` and
  `GET /api/chat`) are not modelled, because they compute nothing beyond a
  lookup, a filter and a sort.
- A message's `image` is always `null` in the code, so the model does not
  store it.
- The periodic progression sweep, tracking-id generation, the
  estimated-delivery date and the shipment-creation scripts are not
  modelled. They are timer-driven, random, date-library or HTTP code.
- `InTransit.SetInTransit`: the script's thrown "not found" error is
  modelled as the `NotFound` result.
