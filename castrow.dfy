/**
 * The cooldown column of a cast row: whether an ability was used again within its
 * cooldown, how many uses were possible since its last use, and whether it was held
 * back too long.
 */
module CastRow {
  import opened Wrappers

  /** The floor of a JavaScript quotient: a whole number, an infinity, or NaN. */
  datatype Quotient = Finite(n: int) | PosInfinity | NegInfinity | NaN {

    /** `q > 1` on JavaScript numbers. */
    predicate GreaterThanOne() {
      match this
      case Finite(n) => n > 1
      case PosInfinity => true
      case _ => false
    }

    /** `q - 1` on JavaScript numbers. */
    function MinusOne(): Quotient {
      match this
      case Finite(n) => Finite(n - 1)
      case _ => this
    }
  }

  /** `Math.floor(x / d)` over exact rationals, with JavaScript's division by zero. */
  function FloorDiv(x: int, d: int): (q: Quotient)
    ensures d > 0 ==> q.Finite? && q.n * d <= x < q.n * d + d
    ensures d < 0 ==> q.Finite? && q.n * d >= x > q.n * d + d
    ensures d == 0 ==> q == if x > 0 then PosInfinity else if x < 0 then NegInfinity else NaN
  {
    if d > 0 then Finite(x / d)
    else if d < 0 then Finite((-x) / (-d))
    else if x > 0 then PosInfinity
    else if x < 0 then NegInfinity
    else NaN
  }

  /**
   * A previous use is recorded: `lastUse` is present and not 0 (JavaScript truthiness).
   * This agrees with `lastUse ?? 0` being non-zero, the form the green test reads it in.
   */
  function HasLastUse(lastUse: Option<int>): (b: bool)
    ensures b <==> lastUse.GetOr(0) != 0
  {
    lastUse.Some? && lastUse.value != 0
  }

  /**
   * Green: the cooldown is non-zero and at most `cd` seconds passed since the last use
   * (a missing last use counts as time 0).
   */
  function UsedUnderCooldown(timestamp: int, lastUse: Option<int>, cd: int): (b: bool)
    ensures b <==> cd != 0 && (timestamp - lastUse.GetOr(0)) as real / 1000.0 <= cd as real
  {
    cd != 0 && timestamp - lastUse.GetOr(0) <= cd * 1000
  }

  /**
   * `Math.floor((timestamp - lastUse + cd) / 1000 / cd)`, or 0 without a previous use;
   * note that the cooldown in seconds is added to a difference in milliseconds.
   */
  function PossibleUsageCount(timestamp: int, lastUse: Option<int>, cd: int): (q: Quotient)
    ensures !HasLastUse(lastUse) ==> q == Finite(0)
    ensures HasLastUse(lastUse) && cd > 0 ==>
      var x := timestamp - lastUse.value + cd;
      q.Finite? && q.n * 1000 * cd <= x < (q.n + 1) * 1000 * cd
    ensures HasLastUse(lastUse) && cd == 0 ==>
      var x := timestamp - lastUse.value;
      q == if x > 0 then PosInfinity else if x < 0 then NegInfinity else NaN
  {
    if HasLastUse(lastUse) then FloorDiv(timestamp - lastUse.value + cd, 1000 * cd) else Finite(0)
  }

  /** Red: more than one use would have been possible since the last one; never for a first use. */
  function DelayedTooHard(timestamp: int, lastUse: Option<int>, cd: int): (b: bool)
    ensures b ==> HasLastUse(lastUse)
  {
    PossibleUsageCount(timestamp, lastUse, cd).GreaterThanOne()
  }

  /** A first use is never delayed. */
  lemma FirstUseNotDelayed(timestamp: int, lastUse: Option<int>, cd: int)
    requires !HasLastUse(lastUse)
    ensures !DelayedTooHard(timestamp, lastUse, cd)
  {
  }

  /**
   * With a positive cooldown, a use is delayed exactly when the milliseconds since the
   * last use, plus `cd`, reach two full cooldowns.
   */
  lemma DelayedIffTwoCooldowns(timestamp: int, lastUse: Option<int>, cd: int)
    requires HasLastUse(lastUse) && cd > 0
    ensures DelayedTooHard(timestamp, lastUse, cd) <==> timestamp - lastUse.value + cd >= 2000 * cd
  {
    var x := timestamp - lastUse.value + cd;
    var n := PossibleUsageCount(timestamp, lastUse, cd).n;
    assert n * 1000 * cd <= x < (n + 1) * 1000 * cd;
    if n > 1 {
      assert n * 1000 * cd >= 2 * 1000 * cd by {
        assert (n - 2) * (1000 * cd) >= 0;
      }
    } else {
      assert (n + 1) * 1000 * cd <= 2 * 1000 * cd by {
        assert (1 - n) * (1000 * cd) >= 0;
      }
    }
  }

  /** With a positive cooldown, a use within the cooldown is never also marked delayed. */
  lemma UnderCooldownNotDelayed(timestamp: int, lastUse: Option<int>, cd: int)
    requires HasLastUse(lastUse) && cd > 0
    requires UsedUnderCooldown(timestamp, lastUse, cd)
    ensures !DelayedTooHard(timestamp, lastUse, cd)
  {
    DelayedIffTwoCooldowns(timestamp, lastUse, cd);
  }

  /** A zero cooldown is never "under cooldown", but any later use counts as delayed (Infinity > 1). */
  lemma ZeroCooldown(timestamp: int, lastUse: Option<int>)
    requires HasLastUse(lastUse)
    ensures !UsedUnderCooldown(timestamp, lastUse, 0)
    ensures DelayedTooHard(timestamp, lastUse, 0) <==> timestamp > lastUse.value
  {
  }

  /** The tooltip's count of missed uses, shown only when delayed. */
  function MissedUses(timestamp: int, lastUse: Option<int>, cd: int): (r: Option<Quotient>)
    ensures r.Some? <==> DelayedTooHard(timestamp, lastUse, cd)
    ensures r.Some? && r.value.Finite? ==>
      PossibleUsageCount(timestamp, lastUse, cd) == Finite(r.value.n + 1) && r.value.n >= 1
  {
    if DelayedTooHard(timestamp, lastUse, cd) then Some(PossibleUsageCount(timestamp, lastUse, cd).MinusOne())
    else None
  }

  /** What `determineAbility` yields that matters here: the cooldown in seconds. */
  datatype AbilityInfo = AbilityInfo(cd: int)

  /** The placeholder cooldown of abilities without a real one, defined outside this model. */
  const DUMMY_CD: int

  datatype CooldownText = FirstUse | Ago(ms: int)

  /** The cooldown cell: its three highlight colours, tooltip and text. */
  datatype CooldownCell = CooldownCell(
    red: bool,
    green: bool,
    yellow: bool,
    tooltip: Option<Quotient>,
    text: CooldownText)

  datatype CastRowView = CastRowView(abilityColSpan: nat, cooldownCell: Option<CooldownCell>)

  /** The cast row, or nothing for an ability `determineAbility` does not know. */
  function RenderCastRow(timestamp: int, lastUse: Option<int>, ability: Option<AbilityInfo>): (r: Option<CastRowView>)
    ensures r.None? <==> ability.None?
    ensures r.Some? ==> r.value.abilityColSpan == (if ability.value.cd == DUMMY_CD then 3 else 1)
    ensures r.Some? ==> (r.value.cooldownCell.None? <==> ability.value.cd == DUMMY_CD)
  {
    match ability
    case None => None
    case Some(info) =>
      var cd := info.cd;
      if cd == DUMMY_CD then Some(CastRowView(3, None))
      else
        var text := if HasLastUse(lastUse) then Ago(timestamp - lastUse.value) else FirstUse;
        Some(CastRowView(1, Some(CooldownCell(
          DelayedTooHard(timestamp, lastUse, cd),
          UsedUnderCooldown(timestamp, lastUse, cd),
          !HasLastUse(lastUse),
          MissedUses(timestamp, lastUse, cd),
          text))))
  }

  /**
   * The cell of a known, non-placeholder ability: "first use" in yellow without a previous
   * use, otherwise the time since that use; a tooltip exactly when red.
   */
  lemma CooldownCellContents(timestamp: int, lastUse: Option<int>, cd: int)
    requires cd != DUMMY_CD
    ensures var cell := RenderCastRow(timestamp, lastUse, Some(AbilityInfo(cd))).value.cooldownCell.value;
      && (cell.text == FirstUse <==> !HasLastUse(lastUse))
      && (HasLastUse(lastUse) ==> cell.text == Ago(timestamp - lastUse.value))
      && cell.yellow == !HasLastUse(lastUse)
      && cell.red == DelayedTooHard(timestamp, lastUse, cd)
      && cell.green == UsedUnderCooldown(timestamp, lastUse, cd)
      && cell.tooltip == MissedUses(timestamp, lastUse, cd)
      && (cell.tooltip.Some? <==> cell.red)
      && (!HasLastUse(lastUse) ==> !cell.red)
      && (HasLastUse(lastUse) && cd > 0 ==>
            (cell.red <==> timestamp - lastUse.value + cd >= 2000 * cd) && !(cell.red && cell.green))
  {
    if HasLastUse(lastUse) && cd > 0 {
      DelayedIffTwoCooldowns(timestamp, lastUse, cd);
    }
  }
}
