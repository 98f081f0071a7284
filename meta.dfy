/**
 * The run summary of a report: the player table's sort state and ordering, whether the
 * run was timed, the time lost to deaths, the dungeon's covenant requirement and the
 * chest stars of the heading.
 */
module Meta {
  import opened Wrappers

  /** A player row: the three sortable metrics and the chosen covenant, if any. */
  datatype Player = Player(dps: int, hps: int, itemLevel: int, covenant: Option<int>)

  /** The table's sort columns; `Role` is the order the players arrive in. */
  datatype SortKey = Role | Dps | Hps | Ilvl

  datatype SortOrder = Asc | Desc

  /** The value the comparator of a metric column subtracts. */
  function Metric(p: Player, key: SortKey): int
    requires key != Role
  {
    match key
    case Dps => p.dps
    case Hps => p.hps
    case Ilvl => p.itemLevel
  }

  ghost predicate Ascending(s: seq<Player>, key: SortKey)
    requires key != Role
  {
    forall i, j :: 0 <= i < j < |s| ==> Metric(s[i], key) <= Metric(s[j], key)
  }

  ghost predicate Descending(s: seq<Player>, key: SortKey)
    requires key != Role
  {
    forall i, j :: 0 <= i < j < |s| ==> Metric(s[i], key) >= Metric(s[j], key)
  }

  /** Puts `x` in front of the first element of `t` whose metric is not below its own. */
  function Insert(x: Player, t: seq<Player>, key: SortKey): (r: seq<Player>)
    requires key != Role && Ascending(t, key)
    ensures Ascending(r, key)
    ensures |r| == |t| + 1 && (r[0] == x || (t != [] && r[0] == t[0]))
  {
    if t == [] || Metric(x, key) <= Metric(t[0], key) then
      ConsAscending(x, t, key);
      [x] + t
    else
      TailAscending(t, key);
      var rest := Insert(x, t[1..], key);
      assert t == [t[0]] + t[1..];
      ConsAscending(t[0], rest, key);
      [t[0]] + rest
  }

  /** Inserting adds exactly the one player. */
  lemma {:induction false} InsertIsPermutation(x: Player, t: seq<Player>, key: SortKey)
    requires key != Role && Ascending(t, key)
    ensures multiset(Insert(x, t, key)) == multiset(t) + multiset{x}
  {
    if t != [] && Metric(x, key) > Metric(t[0], key) {
      TailAscending(t, key);
      InsertIsPermutation(x, t[1..], key);
      assert t == [t[0]] + t[1..];
    }
  }

  lemma TailAscending(s: seq<Player>, key: SortKey)
    requires key != Role && Ascending(s, key) && s != []
    ensures Ascending(s[1..], key)
  {
    forall i, j | 0 <= i < j < |s| - 1
      ensures Metric(s[1..][i], key) <= Metric(s[1..][j], key)
    {
      assert s[1..][i] == s[i + 1] && s[1..][j] == s[j + 1];
    }
  }

  /** A player no higher than the head of an ascending list can be put in front of it. */
  lemma ConsAscending(p: Player, s: seq<Player>, key: SortKey)
    requires key != Role && Ascending(s, key)
    requires s != [] ==> Metric(p, key) <= Metric(s[0], key)
    ensures Ascending([p] + s, key)
  {
    var r := [p] + s;
    forall i, j | 0 <= i < j < |r|
      ensures Metric(r[i], key) <= Metric(r[j], key)
    {
      if i > 0 {
        assert r[i] == s[i - 1] && r[j] == s[j - 1];
      } else {
        assert r[j] == s[j - 1];
        assert Metric(s[0], key) <= Metric(s[j - 1], key);
      }
    }
  }

  /**
   * `[...player].sort((a, b) => metric(a) - metric(b))`: the players in ascending order
   * of the metric, as a permutation of the input.
   */
  function SortByMetric(s: seq<Player>, key: SortKey): (r: seq<Player>)
    requires key != Role
    ensures Ascending(r, key)
    ensures multiset(r) == multiset(s)
  {
    if s == [] then []
    else
      assert s == [s[0]] + s[1..];
      InsertIsPermutation(s[0], SortByMetric(s[1..], key), key);
      Insert(s[0], SortByMetric(s[1..], key), key)
  }

  /** `Array.prototype.reverse`. */
  function Reverse<T>(s: seq<T>): (r: seq<T>)
    ensures |r| == |s|
    ensures forall i :: 0 <= i < |s| ==> r[i] == s[|s| - 1 - i]
  {
    if s == [] then [] else Reverse(s[1..]) + [s[0]]
  }

  lemma {:induction false} ReverseIsPermutation<T>(s: seq<T>)
    ensures multiset(Reverse(s)) == multiset(s)
  {
    if s != [] {
      ReverseIsPermutation(s[1..]);
      assert s == [s[0]] + s[1..];
    }
  }

  /**
   * The displayed rows. The role comparator always answers 1, with which the engine's
   * sort keeps the players in the order the server sent them.
   */
  function OrderedPlayers(players: seq<Player>, sortBy: SortKey, sortOrder: Option<SortOrder>): (r: seq<Player>)
    ensures multiset(r) == multiset(players)
    ensures sortBy == Role && sortOrder != Some(Desc) ==> r == players
    ensures sortBy != Role && sortOrder != Some(Desc) ==> Ascending(r, sortBy)
    ensures sortBy != Role && sortOrder == Some(Desc) ==> Descending(r, sortBy)
  {
    var sorted := if sortBy == Role then players else SortByMetric(players, sortBy);
    if sortOrder == Some(Desc) then
      ReverseIsPermutation(sorted);
      Reverse(sorted)
    else sorted
  }

  /** The player table's sort state; the role column never has a direction. */
  class PlayerTableSort {
    var sortBy: SortKey
    var sortOrder: Option<SortOrder>

    ghost predicate Valid()
      reads this
    {
      sortBy == Role <==> sortOrder.None?
    }

    constructor()
      ensures Valid() && sortBy == Role && sortOrder == None
    {
      sortBy := Role;
      sortOrder := None;
    }

    /** The rows this state displays. */
    function Displayed(players: seq<Player>): (r: seq<Player>)
      reads this
      requires Valid()
      ensures multiset(r) == multiset(players)
      ensures sortBy == Role ==> r == players
      ensures sortOrder == Some(Asc) ==> Ascending(r, sortBy)
      ensures sortOrder == Some(Desc) ==> Descending(r, sortBy)
    {
      OrderedPlayers(players, sortBy, sortOrder)
    }

    /**
     * `createSortHandler(key)()`: the role column resets the direction; another column
     * is selected descending; the selected column flips its direction.
     */
    method Click(key: SortKey)
      modifies this
      ensures Valid()
      ensures key == Role ==> sortBy == Role && sortOrder == None
      ensures key != Role && old(sortBy) != key ==> sortBy == key && sortOrder == Some(Desc)
      ensures key != Role && old(sortBy) == key ==>
        sortBy == key && sortOrder == Some(if old(sortOrder) == Some(Asc) then Desc else Asc)
    {
      if key == Role {
        sortBy := Role;
        sortOrder := None;
        return;
      }
      if sortBy != key {
        sortBy := key;
        sortOrder := Some(Desc);
        return;
      }
      sortOrder := Some(if sortOrder == Some(Asc) then Desc else Asc);
    }
  }

  /**
   * The run beat the timer, with 750 ms of slack for differences between API and game:
   * a run within the timer is always timed, one more than 750 ms over never is.
   */
  function IsTimed(time: int, dungeonTime: int): (b: bool)
    ensures time <= dungeonTime ==> b
    ensures time > dungeonTime + 750 ==> !b
    ensures b <==> time - dungeonTime <= 750
  {
    time - 750 <= dungeonTime
  }

  /** The signed time next to the run time: "+" the time left, or "-" the time over. */
  datatype TimeDelta = Plus(ms: int) | Minus(ms: int)

  function DisplayedDelta(time: int, dungeonTime: int): (d: TimeDelta)
    ensures d.Plus? <==> time <= dungeonTime + 750
    ensures d.Plus? ==> time + d.ms == dungeonTime && d.ms >= -750
    ensures d.Minus? ==> time - d.ms == dungeonTime && d.ms > 750
  {
    if IsTimed(time, dungeonTime) then Plus(dungeonTime - time) else Minus(time - dungeonTime)
  }

  /** Within the slack, a run over the timer is still shown as timed, with a negative "+" time. */
  lemma SlackShowsNegativePlus()
    ensures DisplayedDelta(1_000_500, 1_000_000) == Plus(-500)
  {
  }

  /** The time lost to deaths, shown only when someone died: five seconds per death. */
  function DeathPenalty(totalDeaths: int): (r: Option<int>)
    ensures r.Some? <==> totalDeaths > 0
    ensures r.Some? ==> r.value > 0 && r.value % 5000 == 0 && r.value / 5000 == totalDeaths
  {
    if totalDeaths > 0 then Some(totalDeaths * 5 * 1000) else None
  }

  /** One more death costs exactly five more seconds. */
  lemma DeathPenaltyStep(totalDeaths: int)
    requires totalDeaths > 0
    ensures DeathPenalty(totalDeaths + 1).value == DeathPenalty(totalDeaths).value + 5000
  {
  }

  /** Some player has chosen `covenant` (`player.some(...)`). */
  function AnyHasCovenant(players: seq<Player>, covenant: int): (b: bool)
    ensures b <==> exists i :: 0 <= i < |players| && players[i].covenant == Some(covenant)
  {
    if players == [] then false
    else players[0].covenant == Some(covenant) || AnyHasCovenant(players[1..], covenant)
  }

  /**
   * The covenant indicator: absent unless the dungeon names a known covenant (a
   * missing or 0 id counts as none); otherwise whether some player is in it.
   */
  function CovenantIndicator(dungeonCovenant: Option<int>, knownCovenants: set<int>, players: seq<Player>): (r: Option<bool>)
    ensures r.None? <==> dungeonCovenant.None? || dungeonCovenant.value == 0 || dungeonCovenant.value !in knownCovenants
    ensures r.Some? ==> (r.value <==> exists p :: p in players && p.covenant == dungeonCovenant)
  {
    match dungeonCovenant
    case None => None
    case Some(c) =>
      if c == 0 || c !in knownCovenants then None
      else Some(AnyHasCovenant(players, c))
  }

  /** The heading's stars: `Array.from({ length: chests })`, a negative length making none. */
  function StarCount(chests: int): (n: nat)
    ensures chests >= 0 ==> n == chests
    ensures chests < 0 ==> n == 0
  {
    if chests < 0 then 0 else chests
  }
}
