/**
 * The static table of the Shadowlands season-one dungeons: chest timers, bosses, zones,
 * units to ignore and the enemy forces each unit is worth.
 */
module DungeonData {
  import Decimal

  /** The 1-, 2- and 3-chest time limits of a dungeon, in milliseconds. */
  datatype Timer = Timer(oneChest: int, twoChest: int, threeChest: int)

  /**
   * `createDungeonTimer(minutes)`: the full time, and 80% and 60% of it. The factors are
   * exact here; the source multiplies floating-point numbers.
   */
  function CreateDungeonTimer(minutes: int): (t: Timer)
    ensures t.oneChest == minutes * 60 * 1000
    ensures 5 * t.twoChest == 4 * t.oneChest && 5 * t.threeChest == 3 * t.oneChest
  {
    Timer(minutes * 60000, minutes * 48000, minutes * 36000)
  }

  /** More chests need strictly less time. */
  lemma TimerDecreasing(minutes: int)
    requires minutes > 0
    ensures var t := CreateDungeonTimer(minutes); t.oneChest > t.twoChest > t.threeChest > 0
  {
  }

  // Boss unit ids.
  const KIN_TARA := 162059
  const VENZULES := 163077
  const VENTUNAX := 162058
  const ORYPHRION := 162060
  const DEVOS := 162061
  const BLIGHTBONE := 162691
  const AMARTH := 163157
  const SURGEON_STITCHFLESH := 162689
  const NALTHOR_THE_RIMEBINDER := 162693
  const HAKKAR_THE_SOULFLAYER := 164558
  const MILLHOUSE_MANASTORM := 164556
  const MILLIFICIENT_MANASTORM := 164555
  const DEALER_XY_EXA := 164450
  const MUEH_ZALA := 166608
  const HALKIAS := 165408
  const ECHELON := 164185
  const HIGH_ADJUDICATOR_ALEEZ := 165410
  const LORD_CHAMBERLAIN := 164218
  const PACERAN_THE_VIRULENT := 164463
  const DESSIA_THE_DECAPITATOR := 164451
  const SATHEL_THE_ACCURSED := 164461
  const GORECHOP := 162317
  const XAV_THE_UNFALLEN := 162329
  const KUL_THAROK := 162309
  const MORDRETHA_THE_ENDLESS_EMPRESS := 165946
  const KRYXIS_THE_VORACIOUS := 162100
  const EXECUTOR_TARVOLD := 162103
  const GRAND_PROCTOR_BERYLLIA := 162102
  const GENERAL_KAAL := 162099
  const INGRA_MALOCH := 164567
  const DROMAN_OULFARRAN := 164804
  const MISTCALLER := 164501
  const TRED_OVA := 164517
  const GLOBGROG := 164255
  const DOCTOR_ICKUS := 164967
  const DOMINA_VENOMBLADE := 164266
  const MARGRAVE_STRADAMA := 164267

  // Dungeon ids.
  const SANGUINE_DEPTHS_ID := 2284
  const SPIRES_OF_ASCENSION_ID := 2285
  const THE_NECROTIC_WAKE_ID := 2286
  const HALLS_OF_ATONEMENT_ID := 2287
  const PLAGUEFALL_ID := 2289
  const MISTS_OF_TIRNA_SCITHE_ID := 2290
  const DE_OTHER_SIDE_ID := 2291
  const THEATER_OF_PAIN_ID := 2293

  /** The dungeon ids in ascending order, the order `Object.entries` lists integer keys in. */
  const DUNGEON_IDS: seq<nat> := [
    SANGUINE_DEPTHS_ID, SPIRES_OF_ASCENSION_ID, THE_NECROTIC_WAKE_ID, HALLS_OF_ATONEMENT_ID,
    PLAGUEFALL_ID, MISTS_OF_TIRNA_SCITHE_ID, DE_OTHER_SIDE_ID, THEATER_OF_PAIN_ID]

  /** The expansion a dungeon belongs to; only Shadowlands occurs in this table. */
  datatype Expansion = Shadowlands | OtherExpansion(id: int)

  datatype ZoneInfo = ZoneInfo(id: int, name: string, order: int)

  datatype DungeonMeta = DungeonMeta(
    name: string,
    timer: Timer,
    slug: string,
    bossIDs: seq<int>,
    expansionID: Expansion,
    zones: seq<ZoneInfo>,
    ignorableNPCIDs: set<int>,
    unitCountMap: map<int, int>,
    count: int)

  const SANGUINE_DEPTHS := DungeonMeta(
    "Sanguine Depths", CreateDungeonTimer(41), "SD",
    [KRYXIS_THE_VORACIOUS, EXECUTOR_TARVOLD, GRAND_PROCTOR_BERYLLIA, GENERAL_KAAL],
    Shadowlands,
    [ZoneInfo(1675, "Depths of Despair", 1), ZoneInfo(1676, "Amphitheater of Sorrow", 2)],
    {}, map[], 364)

  const SPIRES_OF_ASCENSION := DungeonMeta(
    "Spires of Ascension", CreateDungeonTimer(39), "SoA",
    [KIN_TARA, VENZULES, VENTUNAX, ORYPHRION, DEVOS],
    Shadowlands,
    [ZoneInfo(1692, "Honor's Ascent", 1), ZoneInfo(1693, "Garden of Repose", 2),
     ZoneInfo(1694, "Font of Fealty", 3), ZoneInfo(1695, "Seat of the Archon", 4)],
    {}, map[], 285)

  const THE_NECROTIC_WAKE := DungeonMeta(
    "The Necrotic Wake", CreateDungeonTimer(36), "NW",
    [BLIGHTBONE, AMARTH, SURGEON_STITCHFLESH, NALTHOR_THE_RIMEBINDER],
    Shadowlands,
    [ZoneInfo(1666, "The Necrotic Wake", 1), ZoneInfo(1667, "Stitchwerks", 2), ZoneInfo(1668, "Zolramus", 3)],
    {}, map[], 283)

  const HALLS_OF_ATONEMENT := DungeonMeta(
    "Halls of Atonement", CreateDungeonTimer(31), "HoA",
    [HALKIAS, ECHELON, HIGH_ADJUDICATOR_ALEEZ, LORD_CHAMBERLAIN],
    Shadowlands,
    [ZoneInfo(1663, "Halls of Atonement", 1), ZoneInfo(1664, "The Nave of Pain", 2),
     ZoneInfo(1665, "The Sanctuary of Souls", 3)],
    {},
    map[
      165515 := 4, 164562 := 4, 164563 := 4, 165414 := 4, 174175 := 4, 165415 := 2, 165529 := 4,
      164557 := 10, 167612 := 6, 167610 := 1, 167611 := 4, 167607 := 7, 167876 := 20],
    273)

  const PLAGUEFALL := DungeonMeta(
    "Plaguefall", CreateDungeonTimer(38), "PF",
    [GLOBGROG, DOCTOR_ICKUS, DOMINA_VENOMBLADE, MARGRAVE_STRADAMA],
    Shadowlands,
    [ZoneInfo(1674, "Plaguefall", 1), ZoneInfo(1697, "The Festering Sanctum", 2)],
    {}, map[], 600)

  const MISTS_OF_TIRNA_SCITHE := DungeonMeta(
    "Mists of Tirna Scithe", CreateDungeonTimer(30), "MoTS",
    [INGRA_MALOCH, DROMAN_OULFARRAN, MISTCALLER, TRED_OVA],
    Shadowlands,
    [ZoneInfo(1669, "Mists of Tirna Scithe", 1)],
    {},
    map[
      165111 := 2, 164929 := 7, 164920 := 4, 164926 := 6, 164921 := 4, 163058 := 4, 166301 := 4,
      166304 := 4, 166276 := 4, 166299 := 4, 166275 := 4, 167111 := 5, 167113 := 4, 172312 := 4,
      167117 := 1, 167116 := 4, 173720 := 16, 173655 := 16],
    260)

  /** Primeval Grasp, Shattered Visage and Son of Hakkar: units De Other Side does not track. */
  const DE_OTHER_SIDE_HIDDEN_UNITS: set<int> := {171685, 168326, 165905}

  const DE_OTHER_SIDE := DungeonMeta(
    "De Other Side", CreateDungeonTimer(43), "DOS",
    [HAKKAR_THE_SOULFLAYER, MILLHOUSE_MANASTORM, MILLIFICIENT_MANASTORM, DEALER_XY_EXA, MUEH_ZALA],
    Shadowlands,
    [ZoneInfo(1677, "Ardenweald", 4), ZoneInfo(1678, "Mechagon", 3),
     ZoneInfo(1679, "Zul'Gurub", 2), ZoneInfo(1680, "De Other Side", 1)],
    DE_OTHER_SIDE_HIDDEN_UNITS
      + {HAKKAR_THE_SOULFLAYER, MILLHOUSE_MANASTORM, MILLIFICIENT_MANASTORM, DEALER_XY_EXA, MUEH_ZALA},
    map[
      167966 := 0, 168949 := 4, 168992 := 4, 169905 := 6, 168986 := 3, 168942 := 6, 168934 := 8,
      167962 := 8, 167963 := 5, 167964 := 8, 167965 := 5, 167967 := 6, 170147 := 0, 170572 := 6,
      170490 := 5, 170486 := 2, 170480 := 5, 164862 := 3, 164857 := 2, 171342 := 2, 164873 := 4,
      164861 := 2, 171341 := 1, 171181 := 4, 171343 := 5, 192240 := 12],
    384)

  const THEATER_OF_PAIN := DungeonMeta(
    "Theater of Pain", CreateDungeonTimer(37), "TOP",
    [PACERAN_THE_VIRULENT, DESSIA_THE_DECAPITATOR, SATHEL_THE_ACCURSED, GORECHOP, XAV_THE_UNFALLEN,
     KUL_THAROK, MORDRETHA_THE_ENDLESS_EMPRESS],
    Shadowlands,
    [ZoneInfo(1683, "Theater of Pain", 1), ZoneInfo(1684, "Chamber of Conquest", 2),
     ZoneInfo(1685, "Altars of Agony", 3), ZoneInfo(1686, "Upper Barrow of Carnage", 4),
     ZoneInfo(1687, "Lower Barrow of Carnage", 5)],
    {}, map[], 271)

  /** The data of each dungeon id. */
  function MetaOf(id: int): DungeonMeta
    requires id in DUNGEON_IDS
  {
    if id == SANGUINE_DEPTHS_ID then SANGUINE_DEPTHS
    else if id == SPIRES_OF_ASCENSION_ID then SPIRES_OF_ASCENSION
    else if id == THE_NECROTIC_WAKE_ID then THE_NECROTIC_WAKE
    else if id == HALLS_OF_ATONEMENT_ID then HALLS_OF_ATONEMENT
    else if id == PLAGUEFALL_ID then PLAGUEFALL
    else if id == MISTS_OF_TIRNA_SCITHE_ID then MISTS_OF_TIRNA_SCITHE
    else if id == DE_OTHER_SIDE_ID then DE_OTHER_SIDE
    else THEATER_OF_PAIN
  }

  /** `dungeonMap`: each dungeon's data under its id. */
  const DUNGEON_MAP: map<int, DungeonMeta> := map id | id in DUNGEON_IDS :: MetaOf(id)

  /** An element of a `dungeons` list: the parsed key next to the spread data of the map. */
  datatype Keyed<V> = Keyed(id: int, meta: V)

  type Dungeon = Keyed<DungeonMeta>

  /** The map is keyed by exactly the eight dungeon ids. */
  lemma DungeonMapKeys()
    ensures forall id :: id in DUNGEON_MAP <==> id in DUNGEON_IDS
  {
  }

  /** Eight dungeons in all. */
  lemma DungeonCount()
    ensures |DUNGEON_MAP| == 8
  {
    DungeonMapKeys();
    KeyedByDungeonIDs(DUNGEON_MAP);
  }

  /** Any map keyed by exactly the dungeon ids holds eight entries. */
  lemma KeyedByDungeonIDs<V>(m: map<int, V>)
    requires forall id :: id in m <==> id in DUNGEON_IDS
    ensures |m| == 8
  {
    forall id: int
      ensures id in m.Keys <==> id in DUNGEON_KEYS
    {
      DungeonKeysListed(id);
    }
    assert m.Keys == DUNGEON_KEYS;
    DungeonKeysCount();
  }

  const DUNGEON_KEYS: set<int> := {2284, 2285, 2286, 2287, 2289, 2290, 2291, 2293}

  lemma DungeonKeysListed(id: int)
    ensures id in DUNGEON_IDS <==> id in DUNGEON_KEYS
  {
  }

  lemma DungeonKeysCount()
    ensures |DUNGEON_KEYS| == 8
  {
  }

  /** `DUNGEON_IDS` lists the keys in ascending order, without repetition. */
  lemma DungeonIDsAscending()
    ensures forall i, j :: 0 <= i < j < |DUNGEON_IDS| ==> DUNGEON_IDS[i] < DUNGEON_IDS[j]
  {
    assert DUNGEON_IDS == [2284, 2285, 2286, 2287, 2289, 2290, 2291, 2293];
    AdjacentAscending(DUNGEON_IDS);
  }

  /** A list whose neighbours ascend is strictly ascending throughout. */
  lemma {:induction false} AdjacentAscending(s: seq<nat>)
    requires forall i :: 0 <= i < |s| - 1 ==> s[i] < s[i + 1]
    ensures forall i, j :: 0 <= i < j < |s| ==> s[i] < s[j]
    decreases |s|
  {
    if |s| > 1 {
      var init := s[..|s| - 1];
      AdjacentAscending(init);
      forall i, j | 0 <= i < j < |s|
        ensures s[i] < s[j]
      {
        if j < |s| - 1 {
          assert s[i] == init[i] && s[j] == init[j];
        } else if i < j - 1 {
          assert s[i] == init[i] && s[j - 1] == init[j - 1];
        }
      }
    }
  }

  /**
   * The entries for `keys`, each key written as text and read back with `Number.parseInt`;
   * shared by the dungeon table and the seed table.
   */
  function DungeonsOf<V>(m: map<int, V>, keys: seq<nat>): (r: seq<Keyed<V>>)
    requires forall k :: k in keys ==> k in m
    ensures |r| == |keys|
    ensures forall i :: 0 <= i < |r| ==> r[i].id == keys[i] && r[i].meta == m[keys[i]]
  {
    if keys == [] then []
    else
      var text := Decimal.DecimalString(keys[0]);
      Decimal.ParseDecimalString(keys[0]);
      [Keyed(Decimal.ParseDecimal(text), m[keys[0]])] + DungeonsOf(m, keys[1..])
  }

  /**
   * `dungeons`: `Object.entries(dungeonMap).map(([id, dataset]) => ({ id: Number.parseInt(id), ...dataset }))`,
   * the entries coming in ascending key order.
   */
  function Dungeons(): (r: seq<Dungeon>)
    ensures |r| == |DUNGEON_IDS|
    ensures forall i :: 0 <= i < |r| ==> r[i].id == DUNGEON_IDS[i] && r[i].meta == DUNGEON_MAP[DUNGEON_IDS[i]]
  {
    DungeonMapKeys();
    DungeonsOf(DUNGEON_MAP, DUNGEON_IDS)
  }

  /** Every dungeon of the map occurs in `dungeons` exactly once, under its own id, with its own data. */
  lemma DungeonsCoverMap()
    ensures forall id :: id in DUNGEON_MAP ==>
      exists i :: 0 <= i < |Dungeons()| && Dungeons()[i].id == id && Dungeons()[i].meta == DUNGEON_MAP[id]
  {
    DungeonMapKeys();
    var r := Dungeons();
    forall id | id in DUNGEON_MAP
      ensures exists i :: 0 <= i < |r| && r[i].id == id && r[i].meta == DUNGEON_MAP[id]
    {
      var i :| 0 <= i < |DUNGEON_IDS| && DUNGEON_IDS[i] == id;
      assert r[i].id == id;
    }
  }

  /** `dungeons` lists the dungeons in ascending id order, each id once. */
  lemma DungeonsInIdOrder()
    ensures forall i, j :: 0 <= i < j < |Dungeons()| ==> Dungeons()[i].id < Dungeons()[j].id
  {
    DungeonIDsAscending();
  }

  /** De Other Side ignores its own bosses, and three more units besides. */
  lemma DeOtherSideIgnoresBosses()
    ensures forall b :: b in DE_OTHER_SIDE.bossIDs ==> b in DE_OTHER_SIDE.ignorableNPCIDs
    ensures DE_OTHER_SIDE.ignorableNPCIDs - (set b | b in DE_OTHER_SIDE.bossIDs) == DE_OTHER_SIDE_HIDDEN_UNITS
  {
  }

  predicate UnitCountsNonNegative(d: DungeonMeta) {
    forall unit :: unit in d.unitCountMap ==> d.unitCountMap[unit] >= 0
  }

  /** The zones' `order` values, in listed order. */
  function Orders(zones: seq<ZoneInfo>): (r: seq<int>)
    ensures |r| == |zones| && forall i :: 0 <= i < |zones| ==> r[i] == zones[i].order
  {
    if zones == [] then [] else [zones[0].order] + Orders(zones[1..])
  }

  /** 1, 2, ..., n. */
  function OneTo(n: nat): (r: seq<int>)
    ensures |r| == n && forall i :: 0 <= i < n ==> r[i] == i + 1
  {
    if n == 0 then [] else OneTo(n - 1) + [n]
  }

  /** The zones' `order` values are 1..n, each exactly once: a numbering of the zones. */
  predicate ZonesNumbered(d: DungeonMeta) {
    multiset(Orders(d.zones)) == multiset(OneTo(|d.zones|))
  }

  /** What holds of every dungeon of the table. */
  predicate WellFormed(d: DungeonMeta) {
    UnitCountsNonNegative(d) && ZonesNumbered(d) && d.expansionID == Shadowlands
  }

  lemma SanguineDepthsWellFormed() ensures WellFormed(SANGUINE_DEPTHS) {}
  lemma SpiresOfAscensionWellFormed() ensures WellFormed(SPIRES_OF_ASCENSION) {}
  lemma NecroticWakeWellFormed() ensures WellFormed(THE_NECROTIC_WAKE) {}
  lemma HallsOfAtonementWellFormed() ensures WellFormed(HALLS_OF_ATONEMENT) {}
  lemma PlaguefallWellFormed() ensures WellFormed(PLAGUEFALL) {}
  lemma MistsOfTirnaScitheWellFormed() ensures WellFormed(MISTS_OF_TIRNA_SCITHE) {}
  lemma DeOtherSideWellFormed() ensures WellFormed(DE_OTHER_SIDE) {
    DeOtherSideUnitCounts();
    DeOtherSideZones();
  }
  lemma DeOtherSideUnitCounts() ensures UnitCountsNonNegative(DE_OTHER_SIDE) {}
  lemma DeOtherSideZones() ensures ZonesNumbered(DE_OTHER_SIDE) {}
  lemma TheaterOfPainWellFormed() ensures WellFormed(THEATER_OF_PAIN) {}

  /**
   * Every dungeon of the table belongs to Shadowlands, counts no unit negatively and
   * numbers its zones 1..n.
   */
  lemma TableWellFormed()
    ensures forall id :: id in DUNGEON_MAP ==> WellFormed(DUNGEON_MAP[id])
  {
    forall id | id in DUNGEON_IDS
      ensures WellFormed(MetaOf(id))
    {
      if id == SANGUINE_DEPTHS_ID {
        SanguineDepthsWellFormed();
      } else if id == SPIRES_OF_ASCENSION_ID {
        SpiresOfAscensionWellFormed();
      } else if id == THE_NECROTIC_WAKE_ID {
        NecroticWakeWellFormed();
      } else if id == HALLS_OF_ATONEMENT_ID {
        HallsOfAtonementWellFormed();
      } else if id == PLAGUEFALL_ID {
        PlaguefallWellFormed();
      } else if id == MISTS_OF_TIRNA_SCITHE_ID {
        MistsOfTirnaScitheWellFormed();
      } else if id == DE_OTHER_SIDE_ID {
        DeOtherSideWellFormed();
      } else {
        TheaterOfPainWellFormed();
      }
    }
  }
}
