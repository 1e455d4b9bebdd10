/** The weekly availability grid: seven days by fifteen hourly times, a map from
    slot keys `day-time` to booleans toggled by clicks, and the list of selected
    slots read back by splitting each key at '-'. */
module Availability {
  import opened Common
  import opened Strings

  const Days: seq<string> := ["Mon", "Tue", "Wed", "Thu", "Fri", "Sat", "Sun"]

  const Times: seq<string> := [
    "06:00 AM", "07:00 AM", "08:00 AM", "09:00 AM", "10:00 AM", "11:00 AM", "12:00 PM",
    "01:00 PM", "02:00 PM", "03:00 PM", "04:00 PM", "05:00 PM", "06:00 PM", "07:00 PM", "08:00 PM"
  ]

  predicate DistinctKeys(keys: seq<string>)
  {
    forall a, b :: 0 <= a < b < |keys| ==> keys[a] != keys[b]
  }

  /** The key of a cell: `${day}-${time}`. For a day and a time without '-',
      `slot.split("-")` gives back exactly that day and that time. */
  function SlotKey(day: string, time: string): (k: string)
    ensures '-' !in day && '-' !in time ==> Split(k, '-') == [day, time]
  {
    var k := day + "-" + time;
    if '-' !in day && '-' !in time then
      SplitPrefix(day, time, '-');
      SplitPrefix(time, "", '-');
      k
    else k
  }

  /** `availability[key]` read for its truthiness: an absent key is off. */
  predicate IsOn(m: map<string, bool>, key: string)
  {
    key in m && m[key]
  }

  /** `{ ...prev, [key]: !prev[key] }`. */
  function Toggled(m: map<string, bool>, key: string): (r: map<string, bool>)
    ensures r.Keys == m.Keys + {key}
    ensures IsOn(r, key) <==> !IsOn(m, key)
    ensures forall k :: k in m && k != key ==> r[k] == m[k]
  {
    m[key := !IsOn(m, key)]
  }

  /** Clicking the same cell twice restores whether every slot is on. */
  lemma ToggleTwice(m: map<string, bool>, key: string, k: string)
    ensures IsOn(Toggled(Toggled(m, key), key), k) <==> IsOn(m, k)
  {
  }

  /** The cells in rendering order (one row per time, one column per day): 105
      cells, a cell for every day and time shown, and no key twice, so each click
      toggles one cell only. */
  function Grid(): (g: seq<string>)
    ensures |g| == 105
    ensures forall i, j :: 0 <= i < |Days| && 0 <= j < |Times| ==> SlotKey(Days[i], Times[j]) in g
    ensures DistinctKeys(g)
  {
    var g := seq(|Times| * |Days|, n requires 0 <= n < |Times| * |Days| => SlotKey(Days[n % 7], Times[n / 7]));
    CellsCoverWeek(g);
    CellKeysDistinct(g);
    g
  }

  lemma NoDashInLabels()
    ensures forall i :: 0 <= i < |Days| ==> '-' !in Days[i]
    ensures forall j :: 0 <= j < |Times| ==> '-' !in Times[j]
  {
  }

  /** The cell in row `j` and column `i` is entry `7 * j + i`. */
  lemma CellsCoverWeek(g: seq<string>)
    requires |g| == |Times| * |Days|
    requires forall n :: 0 <= n < |g| ==> g[n] == SlotKey(Days[n % 7], Times[n / 7])
    ensures forall i, j :: 0 <= i < |Days| && 0 <= j < |Times| ==> SlotKey(Days[i], Times[j]) in g
  {
    forall i, j | 0 <= i < |Days| && 0 <= j < |Times|
      ensures SlotKey(Days[i], Times[j]) in g
    {
      assert (7 * j + i) % 7 == i && (7 * j + i) / 7 == j;
      assert g[7 * j + i] == SlotKey(Days[i], Times[j]);
    }
  }

  /** Two cells differ in their day or their time, and the split of the key gives
      both back, so their keys differ. */
  lemma CellKeysDistinct(g: seq<string>)
    requires |g| == |Times| * |Days|
    requires forall n :: 0 <= n < |g| ==> g[n] == SlotKey(Days[n % 7], Times[n / 7])
    ensures DistinctKeys(g)
  {
    NoDashInLabels();
    LabelsDistinct();
    forall a, b | 0 <= a < b < |g|
      ensures g[a] != g[b]
    {
      assert Split(g[a], '-') == [Days[a % 7], Times[a / 7]];
      assert Split(g[b], '-') == [Days[b % 7], Times[b / 7]];
      assert a == 7 * (a / 7) + a % 7 && b == 7 * (b / 7) + b % 7;
      assert a % 7 != b % 7 || a / 7 != b / 7;
      assert Days[a % 7] != Days[b % 7] || Times[a / 7] != Times[b / 7];
    }
  }

  lemma LabelsDistinct()
    ensures forall i, j :: 0 <= i < j < |Days| ==> Days[i] != Days[j]
    ensures forall i, j :: 0 <= i < j < |Times| ==> Times[i] != Times[j]
  {
  }

  /** Every stored key belongs to a grid cell. */
  ghost predicate FromGrid(m: map<string, bool>)
  {
    forall k :: k in m ==> k in Grid()
  }

  /** What a selected-slot item shows: `const [day, time] = slot.split("-")`,
      with `time` undefined when the key has no '-'. */
  function SlotLabel(slot: string): (r: (string, Option<string>))
    ensures r.0 == Split(slot, '-')[0]
  {
    var parts := Split(slot, '-');
    (parts[0], if |parts| > 1 then Some(parts[1]) else None)
  }

  /** Every grid cell's selected-slot item shows that cell's own day and time. */
  lemma GridLabels(i: nat, j: nat)
    requires i < |Days| && j < |Times|
    ensures SlotLabel(SlotKey(Days[i], Times[j])) == (Days[i], Some(Times[j]))
  {
    NoDashInLabels();
  }

  /** The page's state. `keys` is the insertion order in which `Object.keys`
      lists the properties of `availability`. */
  class AvailabilityPage {
    var availability: map<string, bool>
    var keys: seq<string>

    ghost predicate Valid()
      reads this
    {
      DistinctKeys(keys) && (forall k :: k in availability <==> k in keys)
    }

    constructor ()
      ensures Valid() && FromGrid(availability)
      ensures availability == map[] && keys == []
    {
      availability := map[];
      keys := [];
    }

    /** `Object.keys(availability).filter((key) => availability[key])`. */
    function SelectedSlots(): (r: seq<string>)
      reads this
      requires Valid()
      ensures forall k :: k in r <==> IsOn(availability, k)
      ensures DistinctKeys(r)
    {
      SelectedOf(keys, availability)
    }

    /** `toggleSlot(day, time)`: flips one slot; a key seen for the first time goes
        to the end of the key order. */
    method ToggleSlot(day: string, time: string)
      requires Valid()
      modifies this
      ensures Valid()
      ensures availability == Toggled(old(availability), SlotKey(day, time))
      ensures keys == old(keys) + (if SlotKey(day, time) in old(availability) then [] else [SlotKey(day, time)])
      ensures FromGrid(old(availability)) && day in Days && time in Times ==> FromGrid(availability)
    {
      var key := SlotKey(day, time);
      if key !in availability {
        keys := keys + [key];
      }
      availability := Toggled(availability, key);
    }
  }

  function SelectedOf(keys: seq<string>, m: map<string, bool>): (r: seq<string>)
    requires DistinctKeys(keys)
    ensures forall k :: k in r <==> k in keys && IsOn(m, k)
    ensures DistinctKeys(r)
    ensures r == Filter(keys, k => IsOn(m, k))
  {
    if keys == [] then []
    else (if IsOn(m, keys[0]) then [keys[0]] else []) + SelectedOf(keys[1..], m)
  }

  /** Two clicks on one cell leave the slot where it was: off after two clicks
      from the empty schedule, so "No slots selected" is shown again. */
  method ClickTwiceScenario() returns (selected: seq<string>)
    ensures selected == []
  {
    var page := new AvailabilityPage();
    page.ToggleSlot("Mon", "06:00 AM");
    page.ToggleSlot("Mon", "06:00 AM");
    selected := page.SelectedSlots();
  }
}
