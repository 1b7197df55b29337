# Five O'clock: where is it 5 PM right now

This project models the core of a voice-assistant background task. Asked
"where is it five o'clock?", the task answers with a list of world cities where
it is currently 5 PM, or with one of three fixed messages. The model covers
three things:

- **Offset arithmetic** (module `Cities`). The task finds the UTC offset whose
  local clock reads 17:xx from four clock readings: the local hour, the UTC
  hour, whether the local and UTC day-of-month agree, and whether local time is
  daylight-saving time. These readings are a `Clock` value here.
  `GetDesiredTimezone` is the computation step by step, as the service does it.
  It is proved equal to the reference `DesiredTimezone`, in which the local
  hour does not appear.
- **City table** (module `Cities`). `Lookup` maps each of the 26 offsets −11..14
  to its ordered list of (name, country) records, and every other offset to the
  empty list. `GetCities` is the service's switch that appends one city at a
  time, and it is proved to produce `Lookup(DesiredTimezone(clock))`.
- **Response policy and dispatch** (module `VoiceCommands`). The policy is a
  three-way branch on the local hour. In the daytime range, the task builds one
  tile per city (title = name, first line = country) or gives a fallback message
  when the list is empty. `CityTiles` is the service's loop that fills in one
  tile per city, and `FindCityWhereICanDrink` is proved equal to the reference
  `Answer`. `Dispatch` classifies a
  (trigger, command) pair. `FiveOclockService.Run` is the task object: it keeps
  its deferral and connection flags and records every call it makes to the host
  as a `HostCall`.

The model keeps two quirks of the arithmetic as the source has them, and proves
what follows from each:

- **The wrap takes back 25 hours where a day has 24.** On the same day without
  daylight-saving time, the wrap applies at UTC hours 0..2, and the chosen
  zone's clock then reads 16:xx, not 17:xx (`ChosenZoneLocalHour`). On the same
  day under daylight-saving time it applies at UTC hours 0..1.
- **A different day-of-month always adds 24 hours to the UTC hour.** This is
  right when local time is behind UTC. When local time is ahead of UTC, the
  offset drops below −11, the table has no cities, and a daytime request gets
  the fallback message (`DayChangeLeavesTable`, `DayChangeFallback`).

The daylight-saving adjustment subtracts one hour whenever local time is
daylight-saving time, whatever the target zone observes. The Tunis entry keeps
its empty country, as in the source.

The offset is not confined to −11..14. For clock hours 0..23 it lies in
−31..14 (`WrapBehaviour`), and no offset above +14 occurs. Offsets below −11
happen whenever the day-of-month differs and the UTC hour is 5 or later.

`City` has a setter for each field, so the model has them too.

## Model

| member | source | states |
|---|---|---|
| Cities.City.SetName | VoiceCommandService/CitiesService.cs:223-227 | the name setter replaces the name and leaves the country unchanged |
| Cities.City.SetCountry | VoiceCommandService/CitiesService.cs:228-232 | the country setter replaces the country and leaves the name unchanged |
| Cities.GetDesiredTimezone | VoiceCommandService/CitiesService.cs:186-208 | the service's step-by-step computation gives `Wrap(17 − adjusted UTC hour − DST)`: the local hour cancels between the UTC delta and the delta to five, and the result never exceeds +14 |
| Cities.DayChangeShift | VoiceCommandService/CitiesService.cs:196-198 | when the day-of-month differs, the pre-wrap offset is exactly 24 lower than on the same day |
| Cities.DstLowersByOne | VoiceCommandService/CitiesService.cs:201-202 | under daylight-saving time, the pre-wrap offset is exactly 1 lower than without it |
| Cities.WrapBehaviour | VoiceCommandService/CitiesService.cs:205-206 | pre-wrap values up to 14 are kept and larger ones lose exactly 25; so the offset is at most +14, pre-wrap 15..17 become −10..−8, and every offset lies in −31..14 |
| Cities.SameDayStandardTime | VoiceCommandService/CitiesService.cs:193-207 | on the same day without DST the offset is 17 − UTC hour, less 25 when that exceeds 14, and changing the local hour changes nothing |
| Cities.ChosenZoneLocalHour | VoiceCommandService/CitiesService.cs:204-206 | on the same day without DST the chosen zone reads 17 o'clock from UTC hour 3 on, and 16 o'clock after the 25-hour wrap (UTC hours 0..2) |
| Cities.DayChangeLeavesTable | VoiceCommandService/CitiesService.cs:196-206 | when the day differs and UTC hour + DST ≥ 5, the offset is below −11 and the table has no cities for it |
| Cities.LookupDefined | VoiceCommandService/CitiesService.cs:39-182 | the table has cities for an offset exactly when the offset is in −11..14; every other offset gives the empty list, never an error |
| Cities.LookupSamples | VoiceCommandService/CitiesService.cs:41-105 | entries keep insertion order: offset 5 is New Delhi, Colombo, Islamabad; offset 14 is Line Islands alone; the Tunis entry has an empty country |
| Cities.GetCities | VoiceCommandService/CitiesService.cs:32-183 | the switch that appends city after city returns exactly the table's list for the offset where it is 5 PM |
| VoiceCommands.AnswerPolicy | VoiceCommandService/VoiceCommandService.cs:157-195 | hours < 3 or ≥ 17 give the "past 5 o'clock" message and 3..6 the "hit the sack" message, both with no tiles; in 7..16 each city becomes one tile in order (title = name, line 1 = country), or the fallback message with no tiles is given when there are no cities; displayed and spoken text agree |
| VoiceCommands.AnswerIgnoresCitiesAtNight | VoiceCommandService/VoiceCommandService.cs:157-164 | outside 7..16 the answer is the same whatever the city list, since no lookup is made |
| VoiceCommands.CityTiles | VoiceCommandService/VoiceCommandService.cs:176-187 | the loop gives exactly one tile per city, in list order, with the city name as the title, the country as the first line and the packaged icon |
| VoiceCommands.FindCityWhereICanDrink | VoiceCommandService/VoiceCommandService.cs:127-199 | the progress message shows and speaks the same text; the response is the reference answer for the local hour and the cities at the desired offset |
| VoiceCommands.NoonAtUtc | VoiceCommandService/VoiceCommandService.cs:165-188 | at local noon with UTC noon on the same day and no DST, the offset is 5 and the tiles are New Delhi/India, Colombo/Sri Lanka, Islamabad/Pakistan |
| VoiceCommands.DayChangeFallback | VoiceCommandService/VoiceCommandService.cs:189-192 | a daytime request on a different UTC day from UTC hour 5 on ends in the fallback message with no tiles |
| VoiceCommands.Dispatch | VoiceCommandService/VoiceCommandService.cs:83-111 | a trigger is ignored unless it is named exactly "FOCVoiceCommandService"; for that trigger the command "FiveOclockWhere" runs the search and every other command launches the app |
| VoiceCommands.FiveOclockService.LaunchAppInForeground | VoiceCommandService/VoiceCommandService.cs:205-215 | one app-launch request is sent with only the spoken text "Launching Five O'clock" and an empty launch argument |
| VoiceCommands.FiveOclockService.Run | VoiceCommandService/VoiceCommandService.cs:69-118 | the deferral is always taken; the connection is opened only for the task's own trigger; an ignored trigger sends nothing, the search sends the progress message and then the answer, and any other command sends the launch request |

## Left out

- Clock reads (`DateTime.Now`, `DateTime.UtcNow`, `.Day`, `IsDaylightSavingTime()`) are parameters. The local hour read by the response policy and the one read by the offset computation are separate parameters, because the source reads the clock twice. The offset does not depend on the second one.
- Host calls (`GetVoiceCommandAsync`, `ReportProgressAsync`, `ReportSuccessAsync`, `RequestAppLaunchAsync`, `FromAppServiceTriggerDetails`) are not modelled. The command name is a parameter, a trigger without app-service details is `None`, and each outgoing call is a `HostCall` entry appended to `sent`. Awaiting and asynchrony are not modelled.
- Deferral completion and the `Canceled` and `VoiceCommandCompleted` handlers are left out, because they are host-driven lifecycle events. `deferralHeld` records only that the deferral was taken.
- Host calls and the icon fetch are assumed never to fail. In the source, an exception from an awaited one (`FromAppServiceTriggerDetails`, `GetVoiceCommandAsync`, `ReportProgressAsync`, `ReportSuccessAsync`, the icon fetch) is caught and logged by `Run`, and it ends the command early: for example, only the progress message is sent and no answer. `Run` instead always sends both the progress message and the answer for the search command. `LaunchAppInForeground` is an `async void` method that `Run` does not await, so a failure of `RequestAppLaunchAsync` escapes `Run`'s handler; the model does not capture that either. Debug logging is left out.
- The tile icon file fetch is left out, because it is file-system I/O. The icon is its constant path. The tile type enum is presentation only and is left out.
- `LaunchAppInForeground` does not set the display text in the source. The platform's default for it is not part of this model, so the model uses the empty string.
- City records are values, not shared mutable objects. No code in the core writes to a record after constructing it, so nothing observable differs. In-place update and aliasing of records are not modelled; a setter returns the updated record.
- The voice command's unused "destination" property is not modelled.
