/**
 * The route map of a fight: which zone tab is selected and how the keyboard and door
 * icons change it, which pulls are connected by a line, and where a line is drawn
 * between a pull and the door through which the group entered or left the zone.
 */
module MapView {
  import opened Wrappers
  import Seqs

  /** A zone (one map image) of the dungeon; only its id matters here. */
  datatype Zone = Zone(id: int)

  /** A pull: its number in the fight (from 1) and the zone it happened in. */
  datatype Pull = Pull(id: int, zone: int)

  /** A door icon on a zone's map, leading to zone `to`; its coordinates are not modelled. */
  datatype Door = Door(to: int)

  datatype Key = ArrowRight | ArrowLeft | OtherKey

  /**
   * The tab updater of `onKeyDown`: one tab right or left, wrapping at both ends;
   * any other key leaves the tab alone.
   */
  function NextTab(current: int, key: Key, zoneCount: nat): (next: int)
    ensures key == OtherKey ==> next == current
    ensures key != OtherKey && 0 <= current < zoneCount ==> 0 <= next < zoneCount
    ensures key == ArrowRight && 0 <= current < zoneCount ==> next == (current + 1) % zoneCount
    ensures key == ArrowLeft && 0 <= current < zoneCount ==> next == (current - 1) % zoneCount
  {
    match key
    case OtherKey => current
    case _ =>
      var nextIndex := current + (if key == ArrowRight then 1 else -1);
      WrapAround(nextIndex, zoneCount);
      if nextIndex < 0 then zoneCount - 1
      else if zoneCount - 1 >= nextIndex then nextIndex
      else 0
  }

  /** One step past either end of `0 .. zoneCount - 1`, reduced modulo `zoneCount`, wraps to the other end. */
  lemma WrapAround(n: int, zoneCount: nat)
    ensures zoneCount > 0 && n == -1 ==> n % zoneCount == zoneCount - 1
    ensures 0 <= n < zoneCount ==> n % zoneCount == n
    ensures zoneCount > 0 && n == zoneCount ==> n % zoneCount == 0
  {
  }

  /** From the last tab, ArrowRight wraps to the first; from the first, ArrowLeft wraps to the last. */
  lemma NextTabWraps(zoneCount: nat)
    requires zoneCount > 0
    ensures NextTab(zoneCount - 1, ArrowRight, zoneCount) == 0
    ensures NextTab(0, ArrowLeft, zoneCount) == zoneCount - 1
  {
  }

  /** ArrowLeft undoes ArrowRight and vice versa. */
  lemma NextTabInverse(current: int, zoneCount: nat)
    requires 0 <= current < zoneCount
    ensures NextTab(NextTab(current, ArrowRight, zoneCount), ArrowLeft, zoneCount) == current
    ensures NextTab(NextTab(current, ArrowLeft, zoneCount), ArrowRight, zoneCount) == current
  {
  }

  /** `zone => zone.id === zoneID`. */
  function HasZoneID(zoneID: int): Zone -> bool {
    (z: Zone) => z.id == zoneID
  }

  /**
   * The tab shown first: the first zone holding the selected pull, or -1 when no zone
   * does. `None` when the selected pull does not exist, where reading its zone throws a
   * `TypeError` (an empty `pulls` included).
   */
  function InitialTab(zones: seq<Zone>, pulls: seq<Pull>, selectedPull: int): (r: Option<int>)
    ensures r.None? <==> !(1 <= selectedPull <= |pulls|)
    ensures r.Some? ==> -1 <= r.value < |zones|
    ensures r.Some? ==>
      (r.value == -1 <==> forall j :: 0 <= j < |zones| ==> zones[j].id != pulls[selectedPull - 1].zone)
    ensures r.Some? && 0 <= r.value ==>
      zones[r.value].id == pulls[selectedPull - 1].zone
      && forall j :: 0 <= j < r.value ==> zones[j].id != zones[r.value].id
  {
    if 1 <= selectedPull <= |pulls| then Some(Seqs.FindIndex(zones, HasZoneID(pulls[selectedPull - 1].zone)))
    else None
  }

  /** The selected tab after clicking a door to `zoneID`: that zone's tab, if it exists. */
  function OnDoorClick(zones: seq<Zone>, current: int, zoneID: int): (tab: int)
    ensures (exists j :: 0 <= j < |zones| && zones[j].id == zoneID) ==> 0 <= tab < |zones| && zones[tab].id == zoneID
    ensures (forall j :: 0 <= j < |zones| ==> zones[j].id != zoneID) ==> tab == current
  {
    var next := Seqs.FindIndex(zones, HasZoneID(zoneID));
    if next > -1 then next else current
  }

  /** `pull => pull.zone === zoneID`. */
  function InZone(zoneID: int): Pull -> bool {
    (p: Pull) => p.zone == zoneID
  }

  /** The pulls drawn on one zone's map, in fight order. */
  function ZonePulls(pulls: seq<Pull>, zoneID: int): (r: seq<Pull>)
    ensures forall p :: p in r <==> p in pulls && p.zone == zoneID
    ensures Seqs.IsSubsequence(r, pulls)
  {
    Seqs.FilterIsSubsequence(pulls, InZone(zoneID));
    Seqs.Filter(pulls, InZone(zoneID))
  }

  /**
   * `nextPull` of `zonePulls[index]`: the next pull on this map, and only when it is the
   * very next pull of the fight.
   */
  function NextPull(zonePulls: seq<Pull>, index: nat): (r: Option<Pull>)
    requires index < |zonePulls|
    ensures r.Some? <==> index + 1 < |zonePulls| && zonePulls[index + 1].id == zonePulls[index].id + 1
    ensures r.Some? ==> r.value == zonePulls[index + 1]
  {
    if index + 1 < |zonePulls| && zonePulls[index + 1].id == zonePulls[index].id + 1 then Some(zonePulls[index + 1])
    else None
  }

  /**
   * The pull a connection line is drawn to from `zonePulls[index]`: none while the
   * `renderPullConnectionLines` option is off, otherwise the next pull.
   */
  function PullConnectionTarget(zonePulls: seq<Pull>, index: nat, renderPullConnectionLines: bool): (r: Option<Pull>)
    requires index < |zonePulls|
    ensures !renderPullConnectionLines ==> r.None?
    ensures renderPullConnectionLines ==>
      (r.Some? <==> index + 1 < |zonePulls| && zonePulls[index + 1].id == zonePulls[index].id + 1)
    ensures r.Some? ==> r.value == zonePulls[index + 1]
  {
    if renderPullConnectionLines then NextPull(zonePulls, index) else None
  }

  /** A connector between a door and a pull; `key` is the index of the later pull. */
  datatype Segment = Entering(key: int, door: Door, pull: Pull) | Leaving(key: int, pull: Pull, door: Door)

  /** `door => door.to === zoneID`. */
  function LeadsTo(zoneID: int): Door -> bool {
    (d: Door) => d.to == zoneID
  }

  /** The door of zone `from` leading to zone `to`, if the door table has one. */
  function DoorBetween(doors: map<int, seq<Door>>, from: int, to: int): (r: Option<Door>)
    ensures r.Some? <==> from in doors && exists d :: d in doors[from] && d.to == to
    ensures r.Some? ==> r.value in doors[from] && r.value.to == to
    ensures r.Some? ==>
      exists i :: 0 <= i < |doors[from]| && doors[from][i] == r.value && forall j :: 0 <= j < i ==> doors[from][j].to != to
  {
    if from in doors then Seqs.Find(doors[from], LeadsTo(to)) else None
  }

  /**
   * The connector produced at pull `i` of the fight: entering this zone from another
   * one, from the door that leads back; or leaving it, to the door that leads on.
   */
  function SegmentAt(pulls: seq<Pull>, zoneID: int, doors: map<int, seq<Door>>, i: nat): (r: Option<Segment>)
    requires i < |pulls|
    ensures i == 0 ==> r.None?
    ensures r.Some? ==> r.value.key == i && WellPlaced(pulls, zoneID, doors, r.value)
    ensures r.Some? ==> (r.value.Entering? <==> pulls[i].zone == zoneID)
  {
    if i == 0 then None
    else
      var lastPull, pull := pulls[i - 1], pulls[i];
      var lastPullWasInOtherZone := lastPull.zone != zoneID;
      var thisPullIsInThisZone := pull.zone == zoneID;
      if lastPullWasInOtherZone && thisPullIsInThisZone then
        match DoorBetween(doors, pull.zone, lastPull.zone)
        case None => None
        case Some(door) => Some(Entering(i, door, pull))
      else if !lastPullWasInOtherZone && !thisPullIsInThisZone then
        match DoorBetween(doors, lastPull.zone, pull.zone)
        case None => None
        case Some(door) => Some(Leaving(i, lastPull, door))
      else None
  }

  /**
   * What a connector at `s.key` must be: pull `key - 1` and pull `key` lie in different
   * zones, exactly one of them this one, joined through a door of this zone leading
   * to the other.
   */
  predicate WellPlaced(pulls: seq<Pull>, zoneID: int, doors: map<int, seq<Door>>, s: Segment) {
    && 1 <= s.key < |pulls|
    && zoneID in doors && s.door in doors[zoneID]
    && match s
       case Entering(k, door, pull) =>
         pull == pulls[k] && pull.zone == zoneID && pulls[k - 1].zone != zoneID && door.to == pulls[k - 1].zone
       case Leaving(k, pull, door) =>
         pull == pulls[k - 1] && pull.zone == zoneID && pulls[k].zone != zoneID && door.to == pulls[k].zone
  }

  /** The connectors among the first `n` pulls: the `reduce` of `MapChangePolyline`. */
  function SegmentsUpTo(pulls: seq<Pull>, zoneID: int, doors: map<int, seq<Door>>, n: nat): (r: seq<Segment>)
    requires n <= |pulls|
    ensures forall j :: 0 <= j < |r| ==> WellPlaced(pulls, zoneID, doors, r[j]) && r[j].key < n
    ensures forall j, k :: 0 <= j < k < |r| ==> r[j].key < r[k].key
  {
    if n == 0 then []
    else
      var acc := SegmentsUpTo(pulls, zoneID, doors, n - 1);
      match SegmentAt(pulls, zoneID, doors, n - 1)
      case None => acc
      case Some(s) => acc + [s]
  }

  /**
   * All connectors of this zone's map: none while the `renderMapChangeLines` option is
   * off; otherwise well placed, one per zone change at most, in fight order.
   */
  function MapChangeSegments(pulls: seq<Pull>, zoneID: int, doors: map<int, seq<Door>>, renderMapChangeLines: bool): (r: seq<Segment>)
    ensures !renderMapChangeLines ==> r == []
    ensures forall j :: 0 <= j < |r| ==> WellPlaced(pulls, zoneID, doors, r[j])
    ensures forall j, k :: 0 <= j < k < |r| ==> r[j].key < r[k].key
  {
    if renderMapChangeLines then SegmentsUpTo(pulls, zoneID, doors, |pulls|) else []
  }

  /**
   * While map-change lines are shown, every zone change that involves this zone and has a
   * door for it gets its connector: nothing is dropped beyond the missing-door cases.
   */
  lemma {:induction false} SegmentsComplete(pulls: seq<Pull>, zoneID: int, doors: map<int, seq<Door>>, renderMapChangeLines: bool, i: nat)
    requires 1 <= i < |pulls|
    requires (pulls[i - 1].zone == zoneID) != (pulls[i].zone == zoneID)
    requires zoneID in doors
    requires exists d :: d in doors[zoneID] && d.to == (if pulls[i].zone == zoneID then pulls[i - 1].zone else pulls[i].zone)
    ensures (exists s :: s in MapChangeSegments(pulls, zoneID, doors, renderMapChangeLines) && s.key == i)
      <==> renderMapChangeLines
  {
    if renderMapChangeLines {
      var s := SegmentAt(pulls, zoneID, doors, i).value;
      SegmentsKeep(pulls, zoneID, doors, i + 1, |pulls|);
      assert s in SegmentsUpTo(pulls, zoneID, doors, i + 1);
    }
  }

  /** Later prefixes only append to earlier ones. */
  lemma {:induction false} SegmentsKeep(pulls: seq<Pull>, zoneID: int, doors: map<int, seq<Door>>, m: nat, n: nat)
    requires m <= n <= |pulls|
    ensures forall s :: s in SegmentsUpTo(pulls, zoneID, doors, m) ==> s in SegmentsUpTo(pulls, zoneID, doors, n)
    decreases n - m
  {
    if m < n {
      SegmentsKeep(pulls, zoneID, doors, m, n - 1);
      var acc := SegmentsUpTo(pulls, zoneID, doors, n - 1);
      var next := SegmentsUpTo(pulls, zoneID, doors, n);
      match SegmentAt(pulls, zoneID, doors, n - 1)
      case None =>
        assert next == acc;
      case Some(seg) =>
        assert next == acc + [seg];
        assert forall s :: s in acc ==> s in next;
    }
  }

  /** Without any zone change involving this zone, no connector is drawn. */
  lemma {:induction false} NoZoneChangeNoSegments(pulls: seq<Pull>, zoneID: int, doors: map<int, seq<Door>>, n: nat)
    requires n <= |pulls|
    requires forall i :: 1 <= i < |pulls| ==> (pulls[i - 1].zone == zoneID) == (pulls[i].zone == zoneID)
    ensures SegmentsUpTo(pulls, zoneID, doors, n) == []
  {
    if n > 0 {
      NoZoneChangeNoSegments(pulls, zoneID, doors, n - 1);
      assert SegmentAt(pulls, zoneID, doors, n - 1) == None;
    }
  }
}
