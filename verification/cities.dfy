/** The "where is it 5 PM right now" service: the UTC offset whose local clock
    currently reads 17:xx, and the fixed table of sample cities per offset.
    The clock readings the service takes from the system are parameters here. */
module Cities {

  /** An hour of the day as a clock reports it. */
  type Hour = h: int | 0 <= h < 24

  /** What the service reads from the system clock: the local hour, the UTC
      hour, whether the local and the UTC day-of-month agree, and whether the
      local time is daylight-saving time. */
  datatype Clock = Clock(localHour: Hour, utcHour: Hour, sameDay: bool, isDst: bool)

  /** A city record: a name and a country. The constructor stores both as
      given, reading a field is its getter, and each setter gives the record
      with that one field replaced. */
  datatype City = City(name: string, country: string) {

    function SetName(value: string): (c: City)
      ensures c.name == value && c.country == country
    {
      this.(name := value)
    }

    function SetCountry(value: string): (c: City)
      ensures c.country == value && c.name == name
    {
      this.(country := value)
    }
  }

  // ---------------------------------------------------------------------
  // Offset arithmetic

  /** The UTC hour as the service uses it: raised by a full day whenever the
      local and the UTC day-of-month differ, whichever side is ahead. */
  function AdjustedUtcHour(c: Clock): (h: int) {
    if c.sameDay then c.utcHour else c.utcHour + 24
  }

  function DstShift(c: Clock): (shift: int) {
    if c.isDst then 1 else 0
  }

  /** The offset before the date-line wrap: the one that, added to the adjusted
      UTC hour and the daylight-saving shift, gives 17 o'clock. */
  function PreWrapOffset(c: Clock): (o: int) {
    17 - AdjustedUtcHour(c) - DstShift(c)
  }

  /** Offsets past UTC+14 are taken back by 25 hours. */
  function Wrap(o: int): (wrapped: int) {
    if o > 14 then o - 25 else o
  }

  /** The offset the service looks up. */
  function DesiredTimezone(c: Clock): (offset: int) {
    Wrap(PreWrapOffset(c))
  }

  /** The computation as the service performs it, one local at a time, with
      the local hour entering both deltas. Its result is the reference
      offset above, in which the local hour does not appear. */
  method GetDesiredTimezone(c: Clock) returns (desiredTimeZone: int)
    ensures desiredTimeZone == DesiredTimezone(c)
    ensures desiredTimeZone <= 14
  {
    var currentHour: int := c.localHour;
    var currentUtcHour: int := c.utcHour;
    if !c.sameDay {
      currentUtcHour := currentUtcHour + 24;
    }
    var utcDelta := currentHour - currentUtcHour;
    if c.isDst {
      utcDelta := utcDelta - 1;
    }
    var deltaToFive := 17 - currentHour;
    desiredTimeZone := utcDelta + deltaToFive;
    if desiredTimeZone > 14 {
      desiredTimeZone := desiredTimeZone - 25;
    }
  }

  /** A different day-of-month lowers the pre-wrap offset by exactly 24. */
  lemma DayChangeShift(c: Clock)
    requires !c.sameDay
    ensures PreWrapOffset(c) == PreWrapOffset(c.(sameDay := true)) - 24
  {
  }

  /** Daylight-saving time lowers the pre-wrap offset by exactly 1. */
  lemma DstLowersByOne(c: Clock)
    requires c.isDst
    ensures PreWrapOffset(c) == PreWrapOffset(c.(isDst := false)) - 1
  {
  }

  /** The wrap: unchanged up to +14, exactly 25 less above; so the offset never
      exceeds +14, and pre-wrap values 15..17 become -10..-8. */
  lemma WrapBehaviour(c: Clock)
    ensures PreWrapOffset(c) <= 14 ==> DesiredTimezone(c) == PreWrapOffset(c)
    ensures PreWrapOffset(c) > 14 ==> DesiredTimezone(c) == PreWrapOffset(c) - 25
    ensures 15 <= PreWrapOffset(c) <= 17 ==> -10 <= DesiredTimezone(c) <= -8
    ensures -31 <= DesiredTimezone(c) <= 14
  {
  }

  /** On the same day and without daylight-saving time the offset is 17 minus
      the UTC hour, wrapped; the local hour plays no part. */
  lemma SameDayStandardTime(c: Clock)
    requires c.sameDay && !c.isDst
    ensures 17 - c.utcHour <= 14 ==> DesiredTimezone(c) == 17 - c.utcHour
    ensures 17 - c.utcHour > 14 ==> DesiredTimezone(c) == 17 - c.utcHour - 25
    ensures forall h: Hour :: DesiredTimezone(c.(localHour := h)) == DesiredTimezone(c)
  {
  }

  /** The local clock of the chosen zone, on the same day without daylight-saving
      time: 17 o'clock when no wrap happens, but 16 o'clock after the wrap,
      since the wrap takes back 25 hours where a day has 24. */
  lemma ChosenZoneLocalHour(c: Clock)
    requires c.sameDay && !c.isDst
    ensures c.utcHour >= 3 ==> (c.utcHour + DesiredTimezone(c)) % 24 == 17
    ensures c.utcHour < 3 ==> (c.utcHour + DesiredTimezone(c)) % 24 == 16
  {
  }

  /** When the day-of-month differs, the adjustment always adds 24 hours, so
      from UTC hour 5 on (4 under daylight-saving time) the offset falls below
      the table's lowest entry. */
  lemma DayChangeLeavesTable(c: Clock)
    requires !c.sameDay && c.utcHour + DstShift(c) >= 5
    ensures DesiredTimezone(c) < -11
    ensures Lookup(DesiredTimezone(c)) == []
  {
    LookupDefined(DesiredTimezone(c));
  }

  // ---------------------------------------------------------------------
  // City table

  /** The sample cities at each offset, in the order the service lists them;
      an offset without an entry has none. Each entry is written the way the
      service builds it: an empty list, then one city appended at a time. */
  function Lookup(offset: int): (cities: seq<City>) {
    match offset
    case 14 =>
      []
      + [City("Line Islands", "Kiribati")]
    case 13 =>
      []
      + [City("Phoenix Islands", "Kiribati")]
      + [City("Nuku'alofa", "Tonga")]
      + [City("Fakaofo", "Tokelau")]
    case 12 =>
      []
      + [City("Suva", "Fiji")]
      + [City("Kamchatka Krai", "Russia")]
      + [City("Gilbert Islands", "Kiribati")]
    case 11 =>
      []
      + [City("Nouméa", "New Caledonia")]
      + [City("Primorsky Krai", "Russia")]
      + [City("Honiara", "Solomon Islands")]
    case 10 =>
      []
      + [City("Brisbane", "Australia")]
      + [City("Hagåtña", "Guam")]
      + [City("Port Moresby", "Papua New Guinea")]
    case 9 =>
      []
      + [City("Tokyo", "Japan")]
      + [City("Seoul", "South Korea")]
      + [City("Jakarta", "Indonesia")]
    case 8 =>
      []
      + [City("Hong Kong", "China")]
      + [City("Kuala Lumpur", "Malaysia")]
      + [City("Manila", "Philippines")]
    case 7 =>
      []
      + [City("Bangkok", "Thailand")]
      + [City("Hanoi", "Vietnam")]
      + [City("Phnom Penh", "Cambodia")]
    case 6 =>
      []
      + [City("Dhaka", "Bangladesh")]
      + [City("Astana", "Kazakhstan")]
      + [City("Thimphu", "Bhutan")]
    case 5 =>
      []
      + [City("New Delhi", "India")]
      + [City("Colombo", "Sri Lanka")]
      + [City("Islamabad", "Pakistan")]
    case 4 =>
      []
      + [City("Dubai", "United Arab Emirates")]
      + [City("Tbilisi", "Georgia")]
      + [City("Yerevan", "Armenia")]
    case 3 =>
      []
      + [City("Moscow", "Russia")]
      + [City("Minsk", "Belarus")]
      + [City("Kampala", "Uganda")]
    case 2 =>
      []
      + [City("Athens", "Greece")]
      + [City("Cairo", "Egypt")]
      + [City("Tunis, Tunisia", "")]
      + [City("Helsinki", "Finland")]
    case 1 =>
      []
      + [City("Paris", "France")]
      + [City("Brussels", "Belgium")]
      + [City("Berlin", "Germany")]
      + [City("Rome", "Italy")]
      + [City("Prague", "Czech Republic")]
      + [City("Madrid", "Spain")]
      + [City("Amsterdam", "Netherlands")]
    case 0 =>
      []
      + [City("London", "United Kingdom")]
      + [City("Dublin", "Ireland")]
      + [City("Reykjavík", "Iceland")]
    case -1 =>
      []
      + [City("Praia", "Cape Verde")]
      + [City("Ponta Delgada", "Azores")]
    case -2 =>
      []
      + [City("Fernando de Noronha", "Brazil")]
      + [City("King Edward Point", "South Georgia and the South Sandwich Islands")]
    case -3 =>
      []
      + [City("Rio de Janeiro", "Brazil")]
      + [City("Montevideo", "Uruguay")]
      + [City("Buenos Aires", "Argentina")]
    case -4 =>
      []
      + [City("Halifax", "Canada")]
      + [City("San Juan", "Puerto Rico")]
      + [City("Bridgetown", "Barbados")]
    case -5 =>
      []
      + [City("New York City", "United States")]
      + [City("Montreal", "Canada")]
      + [City("Kingston", "Jamaica")]
      + [City("Nassau", "Bahamas")]
      + [City("Bogotá", "Columbia")]
      + [City("Lima", "Peru")]
    case -6 =>
      []
      + [City("Chicago", "United States")]
      + [City("Winnipeg", "Canada")]
      + [City("Mexico City", "Mexico")]
      + [City("San Salvador", "El Salvador")]
      + [City("Guatemala City", "Guatemala")]
      + [City("Tegucigalpa", "Honduras")]
    case -7 =>
      []
      + [City("Calgary", "Canada")]
      + [City("Denver", "United States")]
      + [City("Chihuahua", "Mexico")]
    case -8 =>
      []
      + [City("Vancouver", "Canada")]
      + [City("Seattle", "United States")]
      + [City("San Francisco", "United States")]
      + [City("Tijuana", "Mexico")]
    case -9 =>
      []
      + [City("Anchorage", "United States")]
      + [City("Gambier Islands", "French Polynesia")]
    case -10 =>
      []
      + [City("Honolulu", "United States")]
      + [City("Pape'ete", "French Polynesia")]
    case -11 =>
      []
      + [City("Pago Pago", "American Samoa")]
      + [City("Alofi", "Niue")]
    case _ => []
  }

  /** The table has cities at exactly the offsets -11 through 14. */
  lemma LookupDefined(offset: int)
    ensures Lookup(offset) != [] <==> -11 <= offset <= 14
  {
    if offset < -11 || 14 < offset {
      assert Lookup(offset) == [];
    } else {
      assert |Lookup(offset)| >= 1;
    }
  }

  /** Entries keep the order in which the service adds them, and the Tunis
      entry keeps its empty country. */
  lemma LookupSamples()
    ensures Lookup(5) == [City("New Delhi", "India"), City("Colombo", "Sri Lanka"),
                          City("Islamabad", "Pakistan")]
    ensures Lookup(14) == [City("Line Islands", "Kiribati")]
    ensures Lookup(2)[2] == City("Tunis, Tunisia", "")
  {
  }

  /** The list of city records for the offset where it is 5 PM: one new record
      per table entry, in table order. */
  method GetCities(c: Clock) returns (resultCities: seq<City>)
    ensures resultCities == Lookup(DesiredTimezone(c))
  {
    var desiredTimeZone := GetDesiredTimezone(c);
    resultCities := [];
    match desiredTimeZone {
      case 14 =>
        resultCities := resultCities + [City("Line Islands", "Kiribati")];

      case 13 =>
        resultCities := resultCities + [City("Phoenix Islands", "Kiribati")];
        resultCities := resultCities + [City("Nuku'alofa", "Tonga")];
        resultCities := resultCities + [City("Fakaofo", "Tokelau")];

      case 12 =>
        resultCities := resultCities + [City("Suva", "Fiji")];
        resultCities := resultCities + [City("Kamchatka Krai", "Russia")];
        resultCities := resultCities + [City("Gilbert Islands", "Kiribati")];

      case 11 =>
        resultCities := resultCities + [City("Nouméa", "New Caledonia")];
        resultCities := resultCities + [City("Primorsky Krai", "Russia")];
        resultCities := resultCities + [City("Honiara", "Solomon Islands")];

      case 10 =>
        resultCities := resultCities + [City("Brisbane", "Australia")];
        resultCities := resultCities + [City("Hagåtña", "Guam")];
        resultCities := resultCities + [City("Port Moresby", "Papua New Guinea")];

      case 9 =>
        resultCities := resultCities + [City("Tokyo", "Japan")];
        resultCities := resultCities + [City("Seoul", "South Korea")];
        resultCities := resultCities + [City("Jakarta", "Indonesia")];

      case 8 =>
        resultCities := resultCities + [City("Hong Kong", "China")];
        resultCities := resultCities + [City("Kuala Lumpur", "Malaysia")];
        resultCities := resultCities + [City("Manila", "Philippines")];

      case 7 =>
        resultCities := resultCities + [City("Bangkok", "Thailand")];
        resultCities := resultCities + [City("Hanoi", "Vietnam")];
        resultCities := resultCities + [City("Phnom Penh", "Cambodia")];

      case 6 =>
        resultCities := resultCities + [City("Dhaka", "Bangladesh")];
        resultCities := resultCities + [City("Astana", "Kazakhstan")];
        resultCities := resultCities + [City("Thimphu", "Bhutan")];

      case 5 =>
        resultCities := resultCities + [City("New Delhi", "India")];
        resultCities := resultCities + [City("Colombo", "Sri Lanka")];
        resultCities := resultCities + [City("Islamabad", "Pakistan")];

      case 4 =>
        resultCities := resultCities + [City("Dubai", "United Arab Emirates")];
        resultCities := resultCities + [City("Tbilisi", "Georgia")];
        resultCities := resultCities + [City("Yerevan", "Armenia")];

      case 3 =>
        resultCities := resultCities + [City("Moscow", "Russia")];
        resultCities := resultCities + [City("Minsk", "Belarus")];
        resultCities := resultCities + [City("Kampala", "Uganda")];

      case 2 =>
        resultCities := resultCities + [City("Athens", "Greece")];
        resultCities := resultCities + [City("Cairo", "Egypt")];
        resultCities := resultCities + [City("Tunis, Tunisia", "")];
        resultCities := resultCities + [City("Helsinki", "Finland")];

      case 1 =>
        resultCities := resultCities + [City("Paris", "France")];
        resultCities := resultCities + [City("Brussels", "Belgium")];
        resultCities := resultCities + [City("Berlin", "Germany")];
        resultCities := resultCities + [City("Rome", "Italy")];
        resultCities := resultCities + [City("Prague", "Czech Republic")];
        resultCities := resultCities + [City("Madrid", "Spain")];
        resultCities := resultCities + [City("Amsterdam", "Netherlands")];

      case 0 =>
        resultCities := resultCities + [City("London", "United Kingdom")];
        resultCities := resultCities + [City("Dublin", "Ireland")];
        resultCities := resultCities + [City("Reykjavík", "Iceland")];

      case -1 =>
        resultCities := resultCities + [City("Praia", "Cape Verde")];
        resultCities := resultCities + [City("Ponta Delgada", "Azores")];

      case -2 =>
        resultCities := resultCities + [City("Fernando de Noronha", "Brazil")];
        resultCities := resultCities + [City("King Edward Point", "South Georgia and the South Sandwich Islands")];

      case -3 =>
        resultCities := resultCities + [City("Rio de Janeiro", "Brazil")];
        resultCities := resultCities + [City("Montevideo", "Uruguay")];
        resultCities := resultCities + [City("Buenos Aires", "Argentina")];

      case -4 =>
        resultCities := resultCities + [City("Halifax", "Canada")];
        resultCities := resultCities + [City("San Juan", "Puerto Rico")];
        resultCities := resultCities + [City("Bridgetown", "Barbados")];

      case -5 =>
        resultCities := resultCities + [City("New York City", "United States")];
        resultCities := resultCities + [City("Montreal", "Canada")];
        resultCities := resultCities + [City("Kingston", "Jamaica")];
        resultCities := resultCities + [City("Nassau", "Bahamas")];
        resultCities := resultCities + [City("Bogotá", "Columbia")];
        resultCities := resultCities + [City("Lima", "Peru")];

      case -6 =>
        resultCities := resultCities + [City("Chicago", "United States")];
        resultCities := resultCities + [City("Winnipeg", "Canada")];
        resultCities := resultCities + [City("Mexico City", "Mexico")];
        resultCities := resultCities + [City("San Salvador", "El Salvador")];
        resultCities := resultCities + [City("Guatemala City", "Guatemala")];
        resultCities := resultCities + [City("Tegucigalpa", "Honduras")];

      case -7 =>
        resultCities := resultCities + [City("Calgary", "Canada")];
        resultCities := resultCities + [City("Denver", "United States")];
        resultCities := resultCities + [City("Chihuahua", "Mexico")];

      case -8 =>
        resultCities := resultCities + [City("Vancouver", "Canada")];
        resultCities := resultCities + [City("Seattle", "United States")];
        resultCities := resultCities + [City("San Francisco", "United States")];
        resultCities := resultCities + [City("Tijuana", "Mexico")];

      case -9 =>
        resultCities := resultCities + [City("Anchorage", "United States")];
        resultCities := resultCities + [City("Gambier Islands", "French Polynesia")];

      case -10 =>
        resultCities := resultCities + [City("Honolulu", "United States")];
        resultCities := resultCities + [City("Pape'ete", "French Polynesia")];

      case -11 =>
        resultCities := resultCities + [City("Pago Pago", "American Samoa")];
        resultCities := resultCities + [City("Alofi", "Niue")];
      case _ =>
    }
  }
}
