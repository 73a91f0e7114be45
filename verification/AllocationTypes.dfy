/** Records and pure arithmetic of the allocation module's two emission streams. */
module AllocationTypes {

  datatype StreamId = Caretaker | Groundworks

  datatype Kind = Unspecified | Integrated | Address

  /** 1e18: the scale of a stream's reward index. */
  const PRECISION: int := 1_000_000_000_000_000_000
  const NANOS_PER_SECOND: int := 1_000_000_000
  /** uerth minted per stream and second. */
  const EMISSION_PER_SECOND: int := 1_000_000
  const PPM_DENOMINATOR: int := 1_000_000
  const OPTION_IDLE_GRACE: int := 30 * 24 * 60 * 60
  const OPTION_PRUNE_SWEEP_LIMIT: nat := 20
  const MAX_VOTER_OPTIONS: nat := 20

  /** A voter key; the store orders keys as byte strings, here as numbers. */
  type VoterKey = int

  /** One target of emission. `amount` is the voting weight it carries, `accrued`
      the settled balance, `lastIndex` the reward index it was last settled at. */
  datatype AllocationOption = AllocationOption(
    kind: Kind,
    recipient: string,
    claimer: string,
    amount: int,
    accrued: int,
    lastIndex: int,
    removed: bool)

  datatype Share = Share(option: int, percent: nat)

  datatype Contribution = Contribution(option: int, amount: int)

  /** A stored vote: a percentage split at one weight, or absolute option weights. */
  datatype Voter = Voter(
    percentages: seq<Share>,
    optionWeights: seq<Contribution>,
    weight: int,
    expiresAt: int,
    epoch: nat)

  /** Integer division rounding toward zero, as the chain's integers divide. */
  function Quo(a: int, b: int): int
    requires b > 0
  {
    if a >= 0 then a / b else -((-a) / b)
  }

  function CeilQuo(n: int, d: int): int
    requires d > 0
  {
    (n + d - 1) / d
  }

  function Seconds(nanos: nat): int {
    nanos / NANOS_PER_SECOND
  }

  /** Credits an option with what its weight earned since it was last settled. */
  function SettleOption(o: AllocationOption, index: int): AllocationOption {
    if o.amount > 0 then
      o.(accrued := o.accrued + Quo(o.amount * (index - o.lastIndex), PRECISION), lastIndex := index)
    else
      o.(lastIndex := index)
  }

  /** A dead option: struck, or an ADDRESS option carrying no weight. */
  predicate Prunable(o: AllocationOption) {
    o.removed || (o.kind == Address && o.amount == 0)
  }

  function SplitContributions(percentages: seq<Share>, weight: int): (cs: seq<Contribution>)
    ensures |cs| == |percentages|
  {
    seq(|percentages|, i requires 0 <= i < |percentages| =>
      Contribution(percentages[i].option, Quo(weight * percentages[i].percent, 100)))
  }

  /** What a stored voter puts on each option. */
  function Contributions(v: Voter): seq<Contribution> {
    if v.optionWeights != [] then v.optionWeights else SplitContributions(v.percentages, v.weight)
  }

  function Negated(cs: seq<Contribution>): (r: seq<Contribution>)
    ensures |r| == |cs|
  {
    seq(|cs|, i requires 0 <= i < |cs| => Contribution(cs[i].option, -cs[i].amount))
  }

  /** The total a list of contributions puts on one option. */
  function ContributionTo(cs: seq<Contribution>, id: int): int {
    if cs == [] then 0 else
    ContributionTo(cs[..|cs| - 1], id) + (if cs[|cs| - 1].option == id then cs[|cs| - 1].amount else 0)
  }

  predicate Live(options: map<int, AllocationOption>, id: int) {
    id in options && !options[id].removed
  }

  /** The part of a list of contributions that reaches existing, unstruck options. */
  function LiveSum(options: map<int, AllocationOption>, cs: seq<Contribution>): int {
    if cs == [] then 0 else
    LiveSum(options, cs[..|cs| - 1]) + (if Live(options, cs[|cs| - 1].option) then cs[|cs| - 1].amount else 0)
  }

  /** A split without the options that no longer exist. */
  function ExistingSplit(options: map<int, AllocationOption>, shares: seq<Share>): (r: seq<Share>)
    ensures forall w :: w in r <==> w in shares && w.option in options
  {
    if shares == [] then [] else
    var last := shares[|shares| - 1];
    var r := ExistingSplit(options, shares[..|shares| - 1]);
    assert shares == shares[..|shares| - 1] + [last];
    if last.option in options then r + [last] else r
  }

  predicate NonNegative(cs: seq<Contribution>) {
    forall c | c in cs :: c.amount >= 0
  }

  lemma {:induction false} ContributionToNonNegative(cs: seq<Contribution>, id: int)
    requires NonNegative(cs)
    ensures ContributionTo(cs, id) >= 0
  {
    if cs != [] {
      ContributionToNonNegative(cs[..|cs| - 1], id);
      assert cs[|cs| - 1] in cs;
    }
  }

  lemma {:induction false} ContributionToNegated(cs: seq<Contribution>, id: int)
    ensures ContributionTo(Negated(cs), id) == -ContributionTo(cs, id)
  {
    if cs != [] {
      ContributionToNegated(cs[..|cs| - 1], id);
      assert Negated(cs)[..|cs| - 1] == Negated(cs[..|cs| - 1]);
    }
  }

  lemma {:induction false} UnnamedOption(cs: seq<Contribution>, id: int)
    requires forall c | c in cs :: c.option != id
    ensures ContributionTo(cs, id) == 0
  {
    if cs != [] {
      UnnamedOption(cs[..|cs| - 1], id);
    }
  }

  lemma {:induction false} AllZero(cs: seq<Contribution>, id: int)
    requires forall c | c in cs :: c.amount == 0
    ensures ContributionTo(cs, id) == 0
  {
    if cs != [] {
      AllZero(cs[..|cs| - 1], id);
    }
  }

  lemma SplitNonNegative(shares: seq<Share>, weight: int)
    requires weight >= 0
    ensures NonNegative(SplitContributions(shares, weight))
    ensures weight == 0 ==> forall c | c in SplitContributions(shares, weight) :: c.amount == 0
  {
    forall i | 0 <= i < |shares|
      ensures SplitContributions(shares, weight)[i].amount >= 0
    {
      assert weight * shares[i].percent >= 0;
    }
  }
}
