/** The virtual pet of PetGame.tsx: a record of stats that the decay timer,
    the shop, the wardrobe, five activities, the mini-game reward and the
    reset transform. Every transformation is a pure function of the stats it
    starts from. Numbers are exact reals and integers, not IEEE doubles. */
module Pet {
  import opened Optional
  import opened Numeric

  /** The saved stats. A save loaded from storage may lack the costume
      fields, so both are optional. */
  datatype Stats = Stats(
    hunger: real, happiness: real, energy: real,
    coins: int, level: int, experience: int,
    costume: Option<string>, ownedCostumes: Option<seq<string>>)

  datatype ShopItem = ShopItem(id: string, cost: int, hungerBoost: real, happinessBoost: real, energyBoost: real)

  datatype Costume = Costume(id: string, cost: int, requiredLevel: int)

  const FISH: ShopItem := ShopItem("fish", 10, 30.0, 10.0, 0.0)
  const PREMIUM: ShopItem := ShopItem("premium", 25, 50.0, 20.0, 10.0)
  const TOY: ShopItem := ShopItem("toy", 15, 0.0, 40.0, -10.0)
  const BED: ShopItem := ShopItem("bed", 30, 0.0, 15.0, 50.0)
  const SHOP_ITEMS: seq<ShopItem> := [FISH, PREMIUM, TOY, BED]

  const COSTUMES: seq<Costume> := [
    Costume("default", 0, 1), Costume("wizard", 100, 3), Costume("pirate", 150, 5),
    Costume("princess", 200, 8), Costume("astronaut", 300, 12), Costume("ninja", 400, 15)
  ]

  /** The stats of a new pet, and of a pet whose progress was reset. */
  const DEFAULT_STATS: Stats := Stats(80.0, 70.0, 60.0, 50, 1, 0, Some("default"), Some(["default"]))

  const STAT_MAX: real := 100.0
  /** Experience needed per level: level n needs n * 100 to advance. */
  const LEVEL_STEP: int := 100

  /** Math.min(100, x): an increase capped at the top of the bar. */
  function Cap(x: real): (r: real)
    ensures r <= STAT_MAX && r <= x && (x <= STAT_MAX ==> r == x)
  {
    Min(STAT_MAX, x)
  }

  /** Math.max(0, x): a decrease floored at the bottom of the bar. */
  function Floor(x: real): (r: real)
    ensures r >= 0.0 && r >= x && (x >= 0.0 ==> r == x)
  {
    Max(0.0, x)
  }

  /** The owned costumes, with a missing list read as empty. */
  function Owned(s: Stats): seq<string> {
    if s.ownedCostumes.Some? then s.ownedCostumes.value else []
  }

  predicate Distinct(ids: seq<string>) {
    forall i, j :: 0 <= i < j < |ids| ==> ids[i] != ids[j]
  }

  /** What every action keeps. The energy bar has no lower bound here: the
      toy lowers energy without a floor. */
  predicate WellFormed(s: Stats) {
    && 0.0 <= s.hunger <= STAT_MAX
    && 0.0 <= s.happiness <= STAT_MAX
    && s.energy <= STAT_MAX
    && s.coins >= 0
    && s.level >= 1
    && 0 <= s.experience < s.level * LEVEL_STEP
    && Distinct(Owned(s))
    && (s.costume.Some? ==> s.costume.value in Owned(s))
  }

  /** All three bars within [0, 100]. */
  predicate Bounded(s: Stats) {
    WellFormed(s) && s.energy >= 0.0
  }

  // ---------------------------------------------------------------------
  // Decay and mood

  /** The three-second decay tick: hunger -1, happiness -0.5, energy -0.3,
      each floored at 0; nothing else changes. */
  function Decay(s: Stats): (r: Stats)
    ensures r == s.(hunger := r.hunger, happiness := r.happiness, energy := r.energy)
    ensures r.hunger >= 0.0 && r.happiness >= 0.0 && r.energy >= 0.0
    ensures s.hunger >= 0.0 ==> r.hunger <= s.hunger
    ensures s.happiness >= 0.0 ==> r.happiness <= s.happiness
    ensures s.energy >= 0.0 ==> r.energy <= s.energy
    ensures s.hunger >= 1.0 ==> r.hunger == s.hunger - 1.0
    ensures s.happiness >= 0.5 ==> r.happiness == s.happiness - 0.5
    ensures s.energy >= 0.3 ==> r.energy == s.energy - 0.3
    ensures s.hunger < 1.0 ==> r.hunger == 0.0
    ensures s.happiness < 0.5 ==> r.happiness == 0.0
    ensures s.energy < 0.3 ==> r.energy == 0.0
  {
    s.(hunger := Floor(s.hunger - 1.0), happiness := Floor(s.happiness - 0.5), energy := Floor(s.energy - 0.3))
  }

  datatype Mood = Sad | Neutral | Happy

  function Rank(m: Mood): nat {
    match m
    case Sad => 0
    case Neutral => 1
    case Happy => 2
  }

  /** The mood from the average of the three bars: above 60 happy, above 30
      neutral, otherwise sad. */
  function MoodOf(s: Stats): (m: Mood)
    ensures m == Happy <==> s.hunger + s.happiness + s.energy > 180.0
    ensures m == Sad <==> s.hunger + s.happiness + s.energy <= 90.0
  {
    var avg := (s.hunger + s.happiness + s.energy) / 3.0;
    if avg > 60.0 then Happy
    else if avg > 30.0 then Neutral
    else Sad
  }

  /** Better bars never make a worse mood. */
  lemma MoodMonotone(s: Stats, t: Stats)
    requires s.hunger <= t.hunger && s.happiness <= t.happiness && s.energy <= t.energy
    ensures Rank(MoodOf(s)) <= Rank(MoodOf(t))
  {
  }

  /** Left alone, a pet whose bars are not below 0 never cheers up. */
  lemma DecayNeverLiftsMood(s: Stats)
    requires s.hunger >= 0.0 && s.happiness >= 0.0 && s.energy >= 0.0
    ensures Rank(MoodOf(Decay(s))) <= Rank(MoodOf(s))
  {
    MoodMonotone(Decay(s), s);
  }

  /** A new pet is happy: its bars average 70. */
  lemma DefaultIsHappy()
    ensures MoodOf(DEFAULT_STATS) == Happy
  {
  }

  // ---------------------------------------------------------------------
  // Experience

  /** All experience earned since level 1: levels 1 .. level-1 took
      100, 200, ... each. */
  function LifetimeExperience(s: Stats): int {
    50 * s.level * (s.level - 1) + s.experience
  }

  /** addExperience: reaching level * 100 raises the level by exactly one and
      carries the excess over; below it only the experience grows. */
  function AddExperience(s: Stats, amount: int): (r: Stats)
    ensures r == s.(level := r.level, experience := r.experience)
    ensures s.experience + amount >= s.level * LEVEL_STEP ==>
              r.level == s.level + 1 && r.experience == s.experience + amount - s.level * LEVEL_STEP
    ensures s.experience + amount < s.level * LEVEL_STEP ==>
              r.level == s.level && r.experience == s.experience + amount
    ensures WellFormed(s) && 0 <= amount <= LEVEL_STEP ==> WellFormed(r)
  {
    var expNeeded := s.level * LEVEL_STEP;
    var newExp := s.experience + amount;
    if newExp >= expNeeded then s.(level := s.level + 1, experience := newExp - expNeeded)
    else s.(experience := newExp)
  }

  /** No experience is lost on a level-up: the lifetime total grows by
      exactly the amount earned. */
  lemma ExperienceIsNeverLost(s: Stats, amount: int)
    ensures LifetimeExperience(AddExperience(s, amount)) == LifetimeExperience(s) + amount
  {
    var l := s.level;
    assert 50 * (l + 1) * l == 50 * l * (l - 1) + l * LEVEL_STEP;
  }

  // ---------------------------------------------------------------------
  // Shop and wardrobe

  /** buyItem: without enough coins nothing changes; otherwise the cost is
      paid and each bar rises by the item's boost, capped at 100 but not
      floored. */
  function BuyItem(s: Stats, item: ShopItem): (r: Stats)
    ensures s.coins < item.cost ==> r == s
    ensures s.coins >= item.cost ==>
              && r == s.(coins := r.coins, hunger := r.hunger, happiness := r.happiness, energy := r.energy)
              && r.coins == s.coins - item.cost && r.coins >= 0
              && r.hunger == Cap(s.hunger + item.hungerBoost)
              && r.happiness == Cap(s.happiness + item.happinessBoost)
              && r.energy == Cap(s.energy + item.energyBoost)
  {
    if s.coins < item.cost then s
    else s.(coins := s.coins - item.cost,
            hunger := Cap(s.hunger + item.hungerBoost),
            happiness := Cap(s.happiness + item.happinessBoost),
            energy := Cap(s.energy + item.energyBoost))
  }

  /** The toy can drive energy below zero: a pet with all bars in [0, 100]
      and energy 5 comes out of the purchase with energy -5. */
  lemma ToyDrainsEnergyBelowZero()
    ensures Bounded(DEFAULT_STATS.(energy := 5.0))
    ensures BuyItem(DEFAULT_STATS.(energy := 5.0), TOY).energy == -5.0
  {
  }

  /** The next decay tick lifts a negative energy back to 0. */
  lemma DecayRestoresEnergyFloor(s: Stats)
    requires s.energy < 0.0
    ensures Decay(s).energy == 0.0
  {
  }

  predicate Owns(s: Stats, id: string) {
    id in Owned(s)
  }

  /** buyCostume: an owned costume is only put on; a costume above the pet's
      level or above its coins changes nothing; otherwise it is paid for, put
      on and added once to the owned list. */
  function BuyCostume(s: Stats, c: Costume): (r: Stats)
    ensures Owns(s, c.id) ==> r == s.(costume := Some(c.id))
    ensures !Owns(s, c.id) && (s.level < c.requiredLevel || s.coins < c.cost) ==> r == s
    ensures !Owns(s, c.id) && s.level >= c.requiredLevel && s.coins >= c.cost ==>
              && r == s.(coins := r.coins, costume := r.costume, ownedCostumes := r.ownedCostumes)
              && r.coins == s.coins - c.cost && r.costume == Some(c.id)
              && Owned(r) == Owned(s) + [c.id]
  {
    if s.ownedCostumes.Some? && c.id in s.ownedCostumes.value then s.(costume := Some(c.id))
    else if s.level < c.requiredLevel then s
    else if s.coins < c.cost then s
    else s.(coins := s.coins - c.cost, costume := Some(c.id), ownedCostumes := Some(Owned(s) + [c.id]))
  }

  /** Asking for the same costume twice is the same as asking once: a
      costume is never paid for twice. */
  lemma BuyCostumeIdempotent(s: Stats, c: Costume)
    ensures BuyCostume(BuyCostume(s, c), c) == BuyCostume(s, c)
  {
  }

  /** The owned list never gains a duplicate, and the costume worn is always
      one that is owned. */
  lemma BuyCostumeKeepsWellFormed(s: Stats, c: Costume)
    requires WellFormed(s) && c.cost >= 0
    ensures WellFormed(BuyCostume(s, c))
  {
    var r := BuyCostume(s, c);
    if !Owns(s, c.id) && s.level >= c.requiredLevel && s.coins >= c.cost {
      var o := Owned(s) + [c.id];
      assert Owned(r) == o;
      forall i, j | 0 <= i < j < |o| ensures o[i] != o[j] {
        if j == |Owned(s)| { assert o[i] in Owned(s); }
      }
    }
  }

  // ---------------------------------------------------------------------
  // Activities, each a guard, a change of bars and coins, and then the
  // experience step

  /** feed: needs 10 coins; hunger +30, happiness +10, coins -10; 5 XP. */
  function Feed(s: Stats): (r: Stats)
    ensures WellFormed(s) ==> WellFormed(r)
    ensures s.coins < 10 ==> r == s
    ensures s.coins >= 10 ==>
              && r.coins == s.coins - 10 && r.hunger == Cap(s.hunger + 30.0) && r.happiness == Cap(s.happiness + 10.0)
              && r.energy == s.energy && r.costume == s.costume && r.ownedCostumes == s.ownedCostumes
              && LifetimeExperience(r) == LifetimeExperience(s) + 5
  {
    if s.coins < 10 then s
    else
      var fed := s.(hunger := Cap(s.hunger + 30.0), happiness := Cap(s.happiness + 10.0), coins := s.coins - 10);
      ExperienceIsNeverLost(fed, 5);
      AddExperience(fed, 5)
  }

  /** walk: needs 20 energy; happiness +25, energy -15 floored, coins +5;
      10 XP. */
  function Walk(s: Stats): (r: Stats)
    ensures WellFormed(s) ==> WellFormed(r)
    ensures s.energy < 20.0 ==> r == s
    ensures s.energy >= 20.0 ==>
              && r.coins == s.coins + 5 && r.happiness == Cap(s.happiness + 25.0) && r.energy == s.energy - 15.0
              && r.hunger == s.hunger && r.costume == s.costume && r.ownedCostumes == s.ownedCostumes
              && LifetimeExperience(r) == LifetimeExperience(s) + 10
  {
    if s.energy < 20.0 then s
    else
      var walked := s.(happiness := Cap(s.happiness + 25.0), energy := Floor(s.energy - 15.0), coins := s.coins + 5);
      ExperienceIsNeverLost(walked, 10);
      AddExperience(walked, 10)
  }

  /** play: needs 15 energy; happiness +30, energy -10 and hunger -5 floored,
      coins +3; 8 XP. */
  function Play(s: Stats): (r: Stats)
    ensures WellFormed(s) ==> WellFormed(r)
    ensures s.energy < 15.0 ==> r == s
    ensures s.energy >= 15.0 ==>
              && r.coins == s.coins + 3 && r.happiness == Cap(s.happiness + 30.0) && r.energy == s.energy - 10.0
              && r.hunger == Floor(s.hunger - 5.0) && r.costume == s.costume && r.ownedCostumes == s.ownedCostumes
              && LifetimeExperience(r) == LifetimeExperience(s) + 8
  {
    if s.energy < 15.0 then s
    else
      var played := s.(happiness := Cap(s.happiness + 30.0), energy := Floor(s.energy - 10.0),
                       hunger := Floor(s.hunger - 5.0), coins := s.coins + 3);
      ExperienceIsNeverLost(played, 8);
      AddExperience(played, 8)
  }

  /** sleep: always; energy +40 capped, hunger -10 floored; 3 XP. */
  function Sleep(s: Stats): (r: Stats)
    ensures WellFormed(s) ==> WellFormed(r)
    ensures r.energy == Cap(s.energy + 40.0)
    ensures r.hunger == Floor(s.hunger - 10.0)
    ensures r.coins == s.coins && r.happiness == s.happiness && r.costume == s.costume && r.ownedCostumes == s.ownedCostumes
    ensures LifetimeExperience(r) == LifetimeExperience(s) + 3
  {
    var slept := s.(energy := Cap(s.energy + 40.0), hunger := Floor(s.hunger - 10.0));
    ExperienceIsNeverLost(slept, 3);
    AddExperience(slept, 3)
  }

  /** bathroom: always; happiness +15 capped; 2 XP. */
  function Bathroom(s: Stats): (r: Stats)
    ensures WellFormed(s) ==> WellFormed(r)
    ensures r.happiness == Cap(s.happiness + 15.0)
    ensures r.coins == s.coins && r.hunger == s.hunger && r.energy == s.energy
    ensures r.costume == s.costume && r.ownedCostumes == s.ownedCostumes
    ensures LifetimeExperience(r) == LifetimeExperience(s) + 2
  {
    var washed := s.(happiness := Cap(s.happiness + 15.0));
    ExperienceIsNeverLost(washed, 2);
    AddExperience(washed, 2)
  }

  /** handleGameWin: the mini-game's coins and happiness +10 capped; 15 XP. */
  function HandleGameWin(s: Stats, coins: int): (r: Stats)
    ensures WellFormed(s) && coins >= 0 ==> WellFormed(r)
    ensures r.coins == s.coins + coins && r.happiness == Cap(s.happiness + 10.0)
    ensures r.hunger == s.hunger && r.energy == s.energy
    ensures r.costume == s.costume && r.ownedCostumes == s.ownedCostumes
    ensures LifetimeExperience(r) == LifetimeExperience(s) + 15
  {
    var won := s.(coins := s.coins + coins, happiness := Cap(s.happiness + 10.0));
    ExperienceIsNeverLost(won, 15);
    AddExperience(won, 15)
  }

  /** resetProgress: back to a happy level-1 pet with 50 coins and only the
      default costume, whatever came before. */
  function ResetProgress(s: Stats): (r: Stats)
    ensures Bounded(r) && MoodOf(r) == Happy
    ensures r.level == 1 && r.experience == 0 && r.coins == 50
    ensures r.costume == Some("default") && Owned(r) == ["default"]
    ensures r.hunger == 80.0 && r.happiness == 70.0 && r.energy == 60.0
    ensures r == DEFAULT_STATS
  {
    DEFAULT_STATS
  }

  // ---------------------------------------------------------------------
  // All actions together

  datatype Action =
    | DecayTick
    | BuyItemAction(item: ShopItem)
    | BuyCostumeAction(costume: Costume)
    | FeedAction | WalkAction | PlayAction | SleepAction | BathroomAction
    | GameWin(coins: int)
    | Reset

  function Apply(s: Stats, a: Action): Stats {
    match a
    case DecayTick => Decay(s)
    case BuyItemAction(item) => BuyItem(s, item)
    case BuyCostumeAction(c) => BuyCostume(s, c)
    case FeedAction => Feed(s)
    case WalkAction => Walk(s)
    case PlayAction => Play(s)
    case SleepAction => Sleep(s)
    case BathroomAction => Bathroom(s)
    case GameWin(coins) => HandleGameWin(s, coins)
    case Reset => ResetProgress(s)
  }

  /** The actions the interface can trigger: items from the shop, costumes
      from the wardrobe and non-negative mini-game rewards. */
  predicate Offered(a: Action) {
    match a
    case BuyItemAction(item) => item in SHOP_ITEMS
    case BuyCostumeAction(c) => c in COSTUMES
    case GameWin(coins) => coins >= 0
    case _ => true
  }

  lemma DefaultWellFormed()
    ensures Bounded(DEFAULT_STATS)
  {
  }

  /** Every offered action keeps the stats well formed: hunger and
      happiness in [0, 100], energy at most 100, coins never negative,
      experience below the next level's threshold, no costume owned twice
      and the worn costume owned. */
  lemma ApplyKeepsWellFormed(s: Stats, a: Action)
    requires WellFormed(s) && Offered(a)
    ensures WellFormed(Apply(s, a))
  {
    match a
    case BuyCostumeAction(c) => BuyCostumeKeepsWellFormed(s, c);
    case _ =>
  }

  /** Every offered action except buying the toy keeps all three bars in
      [0, 100]. */
  lemma ApplyKeepsBounded(s: Stats, a: Action)
    requires Bounded(s) && Offered(a) && a != BuyItemAction(TOY)
    ensures Bounded(Apply(s, a))
  {
    ApplyKeepsWellFormed(s, a);
    if a.BuyItemAction? {
      assert a.item in [FISH, PREMIUM, BED];
    }
  }

  /** A sequence of actions, applied from the first. */
  function ApplyAll(s: Stats, actions: seq<Action>): Stats
    decreases |actions|
  {
    if |actions| == 0 then s else ApplyAll(Apply(s, actions[0]), actions[1..])
  }

  /** Any pet reachable from the default stats through offered actions is
      well formed. */
  lemma {:induction false} ReachableIsWellFormed(s: Stats, actions: seq<Action>)
    requires WellFormed(s)
    requires forall k :: 0 <= k < |actions| ==> Offered(actions[k])
    ensures WellFormed(ApplyAll(s, actions))
    decreases |actions|
  {
    if |actions| > 0 {
      ApplyKeepsWellFormed(s, actions[0]);
      ReachableIsWellFormed(Apply(s, actions[0]), actions[1..]);
    }
  }
}
