/**
 * The dungeon table used to seed the database: name, chest timers, slug, bosses and
 * expansion of each Shadowlands dungeon.
 */
module PrismaDungeons {
  import DungeonData

  /** A seeded dungeon's data, without its id. */
  datatype SeedMeta = SeedMeta(
    name: string,
    timer: DungeonData.Timer,
    slug: string,
    bossIds: seq<int>,
    expansionId: DungeonData.Expansion)

  const DUNGEON_IDS: seq<nat> := [2284, 2285, 2286, 2287, 2289, 2290, 2291, 2293]

  /** The data of each dungeon id. */
  function SeedMetaOf(id: int): SeedMeta
    requires id in DUNGEON_IDS
  {
    if id == 2284 then
      SeedMeta("Sanguine Depths", DungeonData.CreateDungeonTimer(41), "SD",
        [DungeonData.KRYXIS_THE_VORACIOUS, DungeonData.EXECUTOR_TARVOLD,
         DungeonData.GRAND_PROCTOR_BERYLLIA, DungeonData.GENERAL_KAAL],
        DungeonData.Shadowlands)
    else if id == 2285 then
      SeedMeta("Spires of Ascension", DungeonData.CreateDungeonTimer(39), "SoA",
        [DungeonData.KIN_TARA, DungeonData.VENZULES, DungeonData.VENTUNAX,
         DungeonData.ORYPHRION, DungeonData.DEVOS],
        DungeonData.Shadowlands)
    else if id == 2286 then
      SeedMeta("The Necrotic Wake", DungeonData.CreateDungeonTimer(36), "NW",
        [DungeonData.BLIGHTBONE, DungeonData.AMARTH, DungeonData.SURGEON_STITCHFLESH,
         DungeonData.NALTHOR_THE_RIMEBINDER],
        DungeonData.Shadowlands)
    else if id == 2287 then
      SeedMeta("Halls of Atonement", DungeonData.CreateDungeonTimer(31), "HoA",
        [DungeonData.HALKIAS, DungeonData.ECHELON, DungeonData.HIGH_ADJUDICATOR_ALEEZ,
         DungeonData.LORD_CHAMBERLAIN],
        DungeonData.Shadowlands)
    else if id == 2289 then
      SeedMeta("Plaguefall", DungeonData.CreateDungeonTimer(38), "PF",
        [DungeonData.GLOBGROG, DungeonData.DOCTOR_ICKUS, DungeonData.DOMINA_VENOMBLADE,
         DungeonData.MARGRAVE_STRADAMA],
        DungeonData.Shadowlands)
    else if id == 2290 then
      SeedMeta("Mists of Tirna Scithe", DungeonData.CreateDungeonTimer(30), "MoTS",
        [DungeonData.INGRA_MALOCH, DungeonData.DROMAN_OULFARRAN, DungeonData.MISTCALLER,
         DungeonData.TRED_OVA],
        DungeonData.Shadowlands)
    else if id == 2291 then
      SeedMeta("De Other Side", DungeonData.CreateDungeonTimer(43), "DOS",
        [DungeonData.HAKKAR_THE_SOULFLAYER, DungeonData.MILLHOUSE_MANASTORM,
         DungeonData.MILLIFICIENT_MANASTORM, DungeonData.DEALER_XY_EXA, DungeonData.MUEH_ZALA],
        DungeonData.Shadowlands)
    else
      SeedMeta("Theatre of Pain", DungeonData.CreateDungeonTimer(37), "TOP",
        [DungeonData.PACERAN_THE_VIRULENT, DungeonData.DESSIA_THE_DECAPITATOR,
         DungeonData.SATHEL_THE_ACCURSED, DungeonData.GORECHOP, DungeonData.XAV_THE_UNFALLEN,
         DungeonData.KUL_THAROK, DungeonData.MORDRETHA_THE_ENDLESS_EMPRESS],
        DungeonData.Shadowlands)
  }

  /** `dungeonMap`: each dungeon's data under its id. */
  const DUNGEON_MAP: map<int, SeedMeta> := map id | id in DUNGEON_IDS :: SeedMetaOf(id)

  /** An element of `dungeons`: the parsed key next to the spread data. */
  type SeedDungeon = DungeonData.Keyed<SeedMeta>

  /** The map is keyed by exactly the eight ids of the dungeon table. */
  lemma SeedMapKeys()
    ensures forall id :: id in DUNGEON_MAP <==> id in DungeonData.DUNGEON_MAP
  {
    DungeonData.DungeonMapKeys();
  }

  /** `dungeons`: one element per key of the map, in ascending key order. */
  function Dungeons(): (r: seq<SeedDungeon>)
    ensures |r| == 8
    ensures forall i :: 0 <= i < |r| ==> r[i].id == DUNGEON_IDS[i] && r[i].meta == DUNGEON_MAP[DUNGEON_IDS[i]]
  {
    DungeonData.DungeonsOf(DUNGEON_MAP, DUNGEON_IDS)
  }

  /** Every seeded dungeon belongs to Shadowlands. */
  lemma AllShadowlands()
    ensures forall id :: id in DUNGEON_MAP ==> DUNGEON_MAP[id].expansionId == DungeonData.Shadowlands
  {
  }

  /**
   * The seed table agrees with the dungeon table on timers, slugs and bosses; the names
   * agree too, except that the seed spells "Theatre of Pain".
   */
  lemma AgreesWithDungeonTable(id: int)
    requires id in DUNGEON_MAP
    ensures var seed, meta := DUNGEON_MAP[id], DungeonData.DUNGEON_MAP[id];
      && seed.timer == meta.timer && seed.slug == meta.slug && seed.bossIds == meta.bossIDs
      && (seed.name == meta.name <==> id != DungeonData.THEATER_OF_PAIN_ID)
  {
    SeedMapKeys();
  }
}
