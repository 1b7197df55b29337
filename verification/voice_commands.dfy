/** The voice-command background task: it recognises its trigger and command,
    applies the time-of-day policy, and answers with a message and one tile per
    city. The host connection is modelled by the list of calls the task makes
    to it; the clock readings are parameters. */
module VoiceCommands {
  import opened Cities

  datatype Option<T> = None | Some(value: T)

  const ServiceName := "FOCVoiceCommandService"
  const FindCommand := "FiveOclockWhere"

  const ProgressText := "Looking for drinking destinations around the globe..."
  const PastFiveText := "It's past 5 o'clock already, time to raise your glass. Cheers!"
  const BedtimeText := "It's getting late and you probably had enough. Time to hit the sack..."
  const CitiesText := "Here are cities where people are happily drinking now:"
  const FallbackText := "Something went wrong. Oh well, just have that drink anyways, I won't tell."
  const LaunchText := "Launching Five O'clock"

  /** Every tile shows the same packaged icon, identified by its path. */
  const TileImage := "FiveOclock.VoiceCommands\\Images\\Beverage-Alcohol.png"

  /** What the assistant shows and what it says. */
  datatype UserMessage = UserMessage(displayMessage: string, spokenMessage: string)

  /** A content tile: a title, one line of text and an icon. */
  datatype Tile = Tile(title: string, textLine1: string, image: string)

  datatype Response = Response(message: UserMessage, tiles: seq<Tile>)

  /** A call the task makes on its connection to the assistant. */
  datatype HostCall =
    | ReportProgress(progress: UserMessage)
    | ReportSuccess(response: Response)
    | RequestAppLaunch(launchMessage: UserMessage, launchArgument: string)

  /** What the task does with a trigger. */
  datatype Action = Ignore | FindCities | LaunchApp

  // ---------------------------------------------------------------------
  // Response policy

  /** A message whose displayed and spoken text are the same. */
  function Say(text: string): (m: UserMessage) {
    UserMessage(text, text)
  }

  /** The tile for one city: its name as the title, its country below. */
  function TileFor(city: City): (t: Tile) {
    Tile(city.name, city.country, TileImage)
  }

  /** The answer for a local hour, given the cities where it is 5 PM. */
  function Answer(hour: Hour, cities: seq<City>): (r: Response) {
    if hour < 3 || hour >= 17 then
      Response(Say(PastFiveText), [])
    else if hour < 7 then
      Response(Say(BedtimeText), [])
    else if |cities| > 0 then
      Response(Say(CitiesText), seq(|cities|, i requires 0 <= i < |cities| => TileFor(cities[i])))
    else
      Response(Say(FallbackText), [])
  }

  /** The three hour ranges cover the day without overlap, each with its own
      message; only in the daytime range do the cities matter, and there each
      city becomes one tile, in order, or the fallback is given when there are
      none. Displayed and spoken text always agree. */
  lemma AnswerPolicy(hour: Hour, cities: seq<City>)
    ensures Answer(hour, cities).message.displayMessage == Answer(hour, cities).message.spokenMessage
    ensures hour < 3 || hour >= 17 ==> Answer(hour, cities) == Response(Say(PastFiveText), [])
    ensures 3 <= hour < 7 ==> Answer(hour, cities) == Response(Say(BedtimeText), [])
    ensures 7 <= hour < 17 && cities == [] ==> Answer(hour, cities) == Response(Say(FallbackText), [])
    ensures 7 <= hour < 17 && cities != [] ==>
      Answer(hour, cities).message == Say(CitiesText) &&
      |Answer(hour, cities).tiles| == |cities| &&
      forall i :: 0 <= i < |cities| ==>
        Answer(hour, cities).tiles[i].title == cities[i].name &&
        Answer(hour, cities).tiles[i].textLine1 == cities[i].country &&
        Answer(hour, cities).tiles[i].image == TileImage
  {
  }

  /** Outside the daytime range the answer does not depend on the cities. */
  lemma AnswerIgnoresCitiesAtNight(hour: Hour, cities: seq<City>, others: seq<City>)
    requires hour < 7 || hour >= 17
    ensures Answer(hour, cities) == Answer(hour, others)
  {
  }

  /** Fills in one tile per city, in list order. */
  method CityTiles(cities: seq<City>) returns (tiles: seq<Tile>)
    ensures |tiles| == |cities|
    ensures forall k :: 0 <= k < |cities| ==> tiles[k] == TileFor(cities[k])
  {
    tiles := [];
    for i := 0 to |cities|
      invariant |tiles| == i
      invariant forall k :: 0 <= k < i ==> tiles[k] == TileFor(cities[k])
    {
      var city := cities[i];
      var locationTile := Tile(city.name, city.country, TileImage);
      tiles := tiles + [locationTile];
    }
  }

  /** The task's search: a progress message first, then the answer. Only in
      the daytime range are the cities looked up, and there the tiles are
      built one city at a time. */
  method FindCityWhereICanDrink(hour: Hour, clock: Clock)
      returns (progress: UserMessage, response: Response)
    ensures progress == Say(ProgressText)
    ensures response == Answer(hour, Lookup(DesiredTimezone(clock)))
  {
    progress := Say(ProgressText);
    var tiles: seq<Tile> := [];
    var message := "";
    if hour < 3 || hour >= 17 {
      message := PastFiveText;
    } else if hour >= 3 && hour < 7 {
      message := BedtimeText;
    } else {
      var cityList := GetCities(clock);
      if |cityList| > 0 {
        message := CitiesText;
        tiles := CityTiles(cityList);
      } else {
        message := FallbackText;
      }
    }
    response := Response(UserMessage(message, message), tiles);
  }

  /** Noon with the UTC clock also at noon on the same day, no daylight-saving
      time: offset 5, so the three cities of that offset, in table order. */
  lemma NoonAtUtc()
    ensures DesiredTimezone(Clock(12, 12, true, false)) == 5
    ensures Answer(12, Lookup(DesiredTimezone(Clock(12, 12, true, false)))).tiles ==
      [Tile("New Delhi", "India", TileImage), Tile("Colombo", "Sri Lanka", TileImage),
       Tile("Islamabad", "Pakistan", TileImage)]
  {
    LookupSamples();
  }

  /** A different day-of-month at UTC hour 5 or later leaves the table, so a
      daytime search ends in the fallback message. */
  lemma DayChangeFallback(hour: Hour, clock: Clock)
    requires 7 <= hour < 17 && !clock.sameDay && clock.utcHour >= 5
    ensures Answer(hour, Lookup(DesiredTimezone(clock))) == Response(Say(FallbackText), [])
  {
    DayChangeLeavesTable(clock);
  }

  // ---------------------------------------------------------------------
  // Dispatch

  /** Only the task's own trigger is handled; its search command runs the
      search and every other command launches the app. */
  function Dispatch(triggerName: Option<string>, commandName: string): (a: Action)
    ensures a == Ignore <==> triggerName != Some(ServiceName)
    ensures a == FindCities <==> triggerName == Some(ServiceName) && commandName == FindCommand
    ensures a == LaunchApp <==> triggerName == Some(ServiceName) && commandName != FindCommand
  {
    match triggerName
    case Some(name) =>
      if name == ServiceName then
        if commandName == FindCommand then FindCities else LaunchApp
      else Ignore
    case None => Ignore
  }

  /** The background task. It holds its deferral and, once its trigger is
      recognised, its connection; `sent` lists the requests and responses
      sent on that connection so far. */
  class FiveOclockService {
    var deferralHeld: bool
    var connected: bool
    var sent: seq<HostCall>

    constructor ()
      ensures !deferralHeld && !connected && sent == []
    {
      deferralHeld := false;
      connected := false;
      sent := [];
    }

    /** Answers the command asking to launch the app: only the spoken text is
        set, and the launch argument is empty. */
    method LaunchAppInForeground()
      modifies this
      ensures sent == old(sent) + [RequestAppLaunch(UserMessage("", LaunchText), "")]
      ensures deferralHeld == old(deferralHeld) && connected == old(connected)
    {
      var userMessage := UserMessage("", LaunchText);
      sent := sent + [RequestAppLaunch(userMessage, "")];
    }

    /** Handles one trigger: takes the deferral, and for its own trigger opens
        the connection and runs the command. `triggerName` is None when the
        trigger carries no app-service details. */
    method Run(triggerName: Option<string>, commandName: string, hour: Hour, clock: Clock)
      modifies this
      ensures deferralHeld
      ensures connected == (old(connected) || triggerName == Some(ServiceName))
      ensures Dispatch(triggerName, commandName) == Ignore ==> sent == old(sent)
      ensures Dispatch(triggerName, commandName) == FindCities ==>
        sent == old(sent) + [ReportProgress(Say(ProgressText)),
                             ReportSuccess(Answer(hour, Lookup(DesiredTimezone(clock))))]
      ensures Dispatch(triggerName, commandName) == LaunchApp ==>
        sent == old(sent) + [RequestAppLaunch(UserMessage("", LaunchText), "")]
    {
      deferralHeld := true;
      if triggerName.Some? && triggerName.value == ServiceName {
        connected := true;
        if commandName == FindCommand {
          var progress, response := FindCityWhereICanDrink(hour, clock);
          sent := sent + [ReportProgress(progress), ReportSuccess(response)];
        } else {
          LaunchAppInForeground();
        }
      }
    }
  }
}
