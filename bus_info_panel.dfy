/**
 * The pure helpers of `BusInfoPanel.tsx`: the "last updated" text, the
 * colour classes for occupancy and bus status, and the three occupancy
 * counts of the summary footer. The clock is the parameter `now` and the
 * locale date string of the fallback is the parameter `localeDate`.
 */
module BusInfoPanel {
  import opened Common
  import opened BusModel
  import BusTrackingMap

  const Grey := "text-gray-600 bg-gray-100"

  /** `getOccupancyColor`: the three status names have their colours, anything else is grey. */
  function OccupancyColor(status: string): (c: string)
    ensures c == Grey <==> status !in {"Available", "Nearly Full", "Overcrowded"}
    ensures status == "Available" <==> c == "text-green-600 bg-green-100"
    ensures status == "Nearly Full" <==> c == "text-yellow-600 bg-yellow-100"
    ensures status == "Overcrowded" <==> c == "text-red-600 bg-red-100"
  {
    if status == "Available" then "text-green-600 bg-green-100"
    else if status == "Nearly Full" then "text-yellow-600 bg-yellow-100"
    else if status == "Overcrowded" then "text-red-600 bg-red-100"
    else Grey
  }

  /** `getStatusColor`: Inactive shares the grey of unknown values. */
  function StatusColor(status: string): (c: string)
    ensures c == Grey <==> status !in {"Active", "Maintenance", "Out of Service"}
    ensures status == "Active" <==> c == "text-green-600 bg-green-100"
    ensures status == "Maintenance" <==> c == "text-yellow-600 bg-yellow-100"
    ensures status == "Out of Service" <==> c == "text-red-600 bg-red-100"
  {
    if status == "Active" then "text-green-600 bg-green-100"
    else if status == "Inactive" then Grey
    else if status == "Maintenance" then "text-yellow-600 bg-yellow-100"
    else if status == "Out of Service" then "text-red-600 bg-red-100"
    else Grey
  }

  /**
   * `formatLastUpdated`: `Unknown` without a date; under a minute (and any
   * future time) `Just now`; then whole minutes up to 59, whole hours up to
   * 23, and the locale date beyond.
   */
  function FormatLastUpdated(date: Option<int>, now: int, localeDate: string): (text: string)
    ensures date.None? ==> text == "Unknown"
    ensures date.Some? && now - date.value < 60000 ==> text == "Just now"
    ensures date.Some? && 60000 <= now - date.value < 3600000 ==>
              text == DecimalString((now - date.value) / 60000) + "m ago" && 1 <= (now - date.value) / 60000 <= 59
    ensures date.Some? && 3600000 <= now - date.value < 86400000 ==>
              text == DecimalString((now - date.value) / 3600000) + "h ago" && 1 <= (now - date.value) / 3600000 <= 23
    ensures date.Some? && now - date.value >= 86400000 ==> text == localeDate
  {
    if date.None? then "Unknown"
    else
      var minutes := (now - date.value) / 60000;
      if minutes < 1 then "Just now"
      else if minutes < 60 then DecimalString(minutes) + "m ago"
      else
        var hours := minutes / 60;
        if hours < 24 then DecimalString(hours) + "h ago"
        else localeDate
  }

  /** The number in an "m ago" text reads back as the elapsed whole minutes. */
  lemma MinutesLabelReadsBack(date: int, now: int, localeDate: string)
    requires 60000 <= now - date < 3600000
    ensures var text := FormatLastUpdated(Some(date), now, localeDate);
            && |text| > 5 && text[|text| - 5..] == "m ago"
            && (forall i :: 0 <= i < |text| - 5 ==> IsDigit(text[i]))
            && DecimalValue(text[..|text| - 5]) == (now - date) / 60000
  {
    var m := (now - date) / 60000;
    var text := FormatLastUpdated(Some(date), now, localeDate);
    assert text == DecimalString(m) + "m ago";
    assert text[..|text| - 5] == DecimalString(m);
    DecimalRoundTrip(m);
  }

  /** Exactly one minute gives `1m ago`; 59 999 ms is still `Just now`. */
  lemma MinuteBoundary(now: int, localeDate: string)
    ensures FormatLastUpdated(Some(now - 60000), now, localeDate) == "1m ago"
    ensures FormatLastUpdated(Some(now - 59999), now, localeDate) == "Just now"
    ensures FormatLastUpdated(Some(now - 3600000), now, localeDate) == "1h ago"
  {
    assert DecimalString(1) == "1";
  }

  predicate HasStatus(s: OccupancyStatus, b: BusTrackingMap.ClientBus)
  {
    b.occupancy.status == s
  }

  /** `buses.filter(b => b.occupancy.status === s).length`. */
  function StatusCount(buses: seq<BusTrackingMap.ClientBus>, s: OccupancyStatus): (n: nat)
    ensures n <= |buses|
  {
    Count(buses, b => HasStatus(s, b))
  }

  /**
   * The three counts never overlap, so they add up to at most the number of
   * buses; since every bus carries one of the three statuses, exactly.
   */
  lemma {:induction false} SummaryCountsPartition(buses: seq<BusTrackingMap.ClientBus>)
    ensures StatusCount(buses, Available) + StatusCount(buses, NearlyFull) + StatusCount(buses, Overcrowded) == |buses|
  {
    if buses != [] {
      SummaryCountsPartition(buses[1..]);
    }
  }
}
