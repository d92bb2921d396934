/** The supply drop (components/Sections/ShopView.tsx): a paid roll that draws a
    frame from a rarity pool and either adds it to the inventory or refunds half
    the cost for a duplicate, and equipping an owned frame. The two random draws
    are parameters in [0, 1). */
module Shop {
  import opened Types
  import opened Characters
  import opened Database

  const ROLL_COST: int := 500
  /** The duplicate refund, `ROLL_COST / 2`. */
  const REFUND: int := 250

  /** `CHARACTERS.filter(c => c.rarity === r)`, keeping catalogue order. */
  function OfRarity(cs: seq<CharacterData>, r: Rarity): (pool: seq<CharacterData>)
    ensures forall c :: c in pool <==> c in cs && c.rarity == r
    ensures |pool| <= |cs|
  {
    if cs == [] then []
    else (if cs[0].rarity == r then [cs[0]] else []) + OfRarity(cs[1..], r)
  }

  /** The pool chosen by the first draw. */
  function PoolRarity(rand: real): (r: Rarity)
    ensures r == Legendary <==> rand > 0.9
    ensures r == Rare <==> 0.6 < rand <= 0.9
    ensures r == Common <==> rand <= 0.6
  {
    if rand > 0.9 then Legendary
    else if rand > 0.6 then Rare
    else Common
  }

  /** `pool[Math.floor(draw * pool.length)]` for a draw in [0, 1). */
  function Pick(pool: seq<CharacterData>, draw: real): (c: CharacterData)
    requires |pool| > 0 && 0.0 <= draw < 1.0
    ensures c in pool
  {
    var n := |pool| as real;
    assert 0.0 <= draw * n < n;
    pool[(draw * n).Floor]
  }

  /** The frame a roll selects: always a catalogue entry of the pool's rarity. */
  function Draw(rand: real, draw: real): (c: CharacterData)
    requires 0.0 <= draw < 1.0
    ensures c in CHARACTERS && c.rarity == PoolRarity(rand)
  {
    var r := PoolRarity(rand);
    PoolNonEmpty(r);
    Pick(OfRarity(CHARACTERS, r), draw)
  }

  /** Every supply-drop pool has a frame to draw. */
  lemma PoolNonEmpty(r: Rarity)
    ensures |OfRarity(CHARACTERS, r)| > 0
  {
    EveryRarityPresent(r);
    var i :| 0 <= i < |CHARACTERS| && CHARACTERS[i].rarity == r;
    assert CHARACTERS[i] in CHARACTERS;
  }

  /** How a roll ends: the credits and inventory it saves and whether the frame is new. */
  datatype RollOutcome = RollOutcome(finalCredits: int, inventory: seq<string>, isNew: bool)

  /** The roll's settlement against the inventory seen when it started and the
      credits left after paying: a duplicate refunds, a new frame is appended.
      This is the reference definition of the outcome; SettleOwns,
      SecondRollIsDuplicate and RollCost state what it means for the player. */
  function Settle(inventory: seq<string>, newCredits: int, id: string): (o: RollOutcome)
    ensures o.isNew <==> id !in inventory
    ensures o.isNew ==> o.finalCredits == newCredits && o.inventory == inventory + [id]
    ensures !o.isNew ==> o.finalCredits == newCredits + REFUND && o.inventory == inventory
  {
    if id in inventory then RollOutcome(newCredits + REFUND, inventory, false)
    else RollOutcome(newCredits, inventory + [id], true)
  }

  /** After a roll the frame is owned, nothing owned before is lost, and the
      inventory grows by at most that one id. */
  lemma SettleOwns(inventory: seq<string>, newCredits: int, id: string)
    ensures var o := Settle(inventory, newCredits, id);
      && id in o.inventory
      && (forall x :: x in inventory ==> x in o.inventory)
      && multiset(o.inventory) - multiset(inventory) <= multiset{id}
  {
    var o := Settle(inventory, newCredits, id);
    if !o.isNew {
      assert multiset(o.inventory) - multiset(inventory) == multiset{};
    }
  }

  /** A second roll of the same frame is a duplicate: the inventory never holds
      a frame twice through rolls. */
  lemma SecondRollIsDuplicate(inventory: seq<string>, newCredits: int, c2: int, id: string)
    ensures var o := Settle(inventory, newCredits, id);
      !Settle(o.inventory, c2, id).isNew
  {
    SettleOwns(inventory, newCredits, id);
  }

  /** The credits a completed roll leaves, from the credits it started with. */
  lemma RollCost(credits: int, inventory: seq<string>, id: string)
    ensures var o := Settle(inventory, credits - ROLL_COST, id);
      o.finalCredits == (if id in inventory then credits - REFUND else credits - ROLL_COST)
  {
  }

  /** How the roll captured in `p` settles for the given draws. */
  function Completion(p: PendingRoll, rand: real, draw: real): RollOutcome
    requires 0.0 <= draw < 1.0
  {
    Settle(p.snapshot.inventory, p.newCredits, Draw(rand, draw).id)
  }

  datatype RollResult = RollResult(frame: CharacterData, isNew: bool)

  /** What the scheduled completion of a roll captured when it started: the
      stats of that render and the credits left after paying. */
  datatype PendingRoll = PendingRoll(snapshot: PlayerStats, newCredits: int)

  function CreditsPatch(credits: int): StatsPatch {
    NO_CHANGES.(credits := Some(credits))
  }

  function RollPatch(o: RollOutcome): StatsPatch {
    NO_CHANGES.(credits := Some(o.finalCredits), inventory := Some(o.inventory))
  }

  function EquipPatch(id: string): StatsPatch {
    NO_CHANGES.(equippedCharacterId := Some(id))
  }

  /** The shop view's state; the two-second delay of a roll separates HandleRoll
      from FinishRoll, and Roll runs both as one step. */
  class ShopView {
    const store: Store
    var stats: Option<PlayerStats>
    var isRolling: bool
    var rollResult: Option<RollResult>
    /** The roll whose completion is scheduled, if any. */
    var pending: Option<PendingRoll>

    /** A roll is scheduled exactly while one is in progress; it started from
        loaded stats and paid the cost out of them. */
    predicate Valid()
      reads this
    {
      && (isRolling <==> pending.Some?)
      && (pending.Some? ==>
            && stats.Some?
            && pending.value.newCredits == pending.value.snapshot.credits - ROLL_COST
            && pending.value.newCredits >= 0)
    }

    constructor (store: Store)
      ensures this.store == store && stats == None && !isRolling && rollResult == None && pending == None
      ensures Valid()
    {
      this.store := store;
      stats := None;
      isRolling := false;
      rollResult := None;
      pending := None;
    }

    /** The mount effect: load the stats. */
    method Mount()
      requires Valid()
      modifies this
      ensures stats == Some(store.GetDatabase())
      ensures isRolling == old(isRolling) && rollResult == old(rollResult) && pending == old(pending)
      ensures Valid()
    {
      stats := Some(store.GetDatabase());
    }

    /** The synchronous part of `handleRoll`: refused without stats, with fewer
        than ROLL_COST credits or while rolling; otherwise the cost is paid, saved,
        and the completion scheduled. */
    method HandleRoll(now: string) returns (started: bool)
      requires Valid()
      modifies this, store
      ensures started <==> old(stats).Some? && old(stats).value.credits >= ROLL_COST && !old(isRolling)
      ensures !started ==>
        && stats == old(stats) && isRolling == old(isRolling) && rollResult == old(rollResult)
        && pending == old(pending) && store.storage == old(store.storage)
      ensures started ==>
        var newCredits := old(stats).value.credits - ROLL_COST;
        && stats == Some(old(stats).value.(credits := newCredits))
        && newCredits >= 0
        && store.storage == old(store.storage)[DB_KEY := Encode(Merge(old(store.GetDatabase()), CreditsPatch(newCredits), now))]
        && isRolling && rollResult == None
        && pending == Some(PendingRoll(old(stats).value, newCredits))
      ensures Valid()
    {
      if stats.None? || stats.value.credits < ROLL_COST || isRolling {
        return false;
      }
      var snapshot := stats.value;
      var newCredits := snapshot.credits - ROLL_COST;
      stats := Some(snapshot.(credits := newCredits));
      var _ := store.SaveDatabase(CreditsPatch(newCredits), now);
      isRolling := true;
      rollResult := None;
      pending := Some(PendingRoll(snapshot, newCredits));
      started := true;
    }

    /** The scheduled completion of a roll: draw a frame and settle the roll with it. */
    method FinishRoll(rand: real, draw: real, now: string)
      requires Valid() && pending.Some?
      requires 0.0 <= draw < 1.0
      modifies this, store
      ensures stats == Some(Merge(old(store.GetDatabase()), RollPatch(Completion(old(pending).value, rand, draw)), now))
      ensures store.storage == old(store.storage)[DB_KEY := Encode(stats.value)]
      ensures rollResult == Some(RollResult(Draw(rand, draw), Completion(old(pending).value, rand, draw).isNew))
      ensures !isRolling && pending == None
      ensures Valid()
    {
      var selected := Draw(rand, draw);
      Award(selected, now);
    }

    /** The rest of the completion once `selected` is drawn: refund a duplicate or
        append a new frame to the inventory seen when the roll started, save, and
        show the result. */
    method Award(selected: CharacterData, now: string)
      requires Valid() && pending.Some?
      modifies this, store
      ensures var o := Settle(old(pending).value.snapshot.inventory, old(pending).value.newCredits, selected.id);
        && stats == Some(Merge(old(store.GetDatabase()), RollPatch(o), now))
        && rollResult == Some(RollResult(selected, o.isNew))
      ensures store.storage == old(store.storage)[DB_KEY := Encode(stats.value)]
      ensures !isRolling && pending == None
      ensures Valid()
    {
      var p := pending.value;
      var isOwned := selected.id in p.snapshot.inventory;
      var finalCredits := p.newCredits;
      var newInventory := p.snapshot.inventory;
      if isOwned {
        finalCredits := finalCredits + REFUND;
      } else {
        newInventory := newInventory + [selected.id];
      }
      var o := RollOutcome(finalCredits, newInventory, !isOwned);
      var updated := store.SaveDatabase(RollPatch(o), now);
      stats := Some(updated);
      rollResult := Some(RollResult(selected, !isOwned));
      isRolling := false;
      pending := None;
    }

    /** A whole roll as one step: refused with no change at all, or paid, drawn
        and settled, after which the drawn frame is owned. */
    method Roll(rand: real, draw: real, now: string) returns (started: bool)
      requires Valid()
      requires 0.0 <= draw < 1.0
      modifies this, store
      ensures started <==> old(stats).Some? && old(stats).value.credits >= ROLL_COST && !old(isRolling)
      ensures !started ==>
        && stats == old(stats) && isRolling == old(isRolling) && rollResult == old(rollResult)
        && pending == old(pending) && store.storage == old(store.storage)
      ensures started ==>
        var before := old(stats).value;
        var selected := Draw(rand, draw);
        && stats.Some?
        && stats.value.credits
             == (if selected.id in before.inventory then before.credits - REFUND else before.credits - ROLL_COST)
        && stats.value.inventory
             == (if selected.id in before.inventory then before.inventory else before.inventory + [selected.id])
        && selected.id in stats.value.inventory
        && rollResult == Some(RollResult(selected, selected.id !in before.inventory))
        && !isRolling && pending == None
        && store.GetDatabase() == stats.value
      ensures Valid()
    {
      started := HandleRoll(now);
      if started {
        FinishRoll(rand, draw, now);
        var selected := Draw(rand, draw);
        SettleOwns(old(stats).value.inventory, old(stats).value.credits - ROLL_COST, selected.id);
        RoundTrip(stats.value, store.loadTime);
      }
    }

    /** `handleEquip(id)`: only an owned frame is equipped, and saved. */
    method HandleEquip(id: string, now: string)
      requires Valid()
      modifies this, store
      ensures var owned := old(stats).Some? && id in old(stats).value.inventory;
        && (!owned ==> stats == old(stats) && store.storage == old(store.storage))
        && (owned ==>
              var updated := Merge(old(store.GetDatabase()), EquipPatch(id), now);
              && store.storage == old(store.storage)[DB_KEY := Encode(updated)]
              && stats == Some(updated) && stats.value.equippedCharacterId == id)
      ensures isRolling == old(isRolling) && rollResult == old(rollResult) && pending == old(pending)
      ensures Valid()
    {
      if !(stats.Some? && id in stats.value.inventory) {
        return;
      }
      var updated := store.SaveDatabase(EquipPatch(id), now);
      stats := Some(updated);
    }
  }
}
