/** The play session (components/Game/GameRoot.tsx): the current level, health,
    the won and dead flags, credits and the remount key, the handlers that restart
    and advance, and the effects that record a death, regenerate health and pay
    the level reward. Effects and timers are discrete steps the caller invokes;
    the Player is mounted, and ticks, only while neither won nor dead. */
module GameRoot {
  import opened Types
  import opened Characters
  import opened PlayerMovement
  import opened Level
  import opened Database

  const MAX_HEALTH: int := 100

  /** The level a session opens on: the highest unlocked level, or the first
      once the campaign is complete. */
  function InitialLevelIndex(highestLevel: int): (i: int)
    ensures 0 <= highestLevel < |LEVELS| ==> i == highestLevel
    ensures highestLevel >= |LEVELS| ==> i == 0
    ensures highestLevel >= 0 ==> 0 <= i < |LEVELS|
  {
    if highestLevel < |LEVELS| then highestLevel else 0
  }

  /** The credits for clearing the level at `levelIndex`. */
  function Reward(levelIndex: int): int {
    100 + levelIndex * 100
  }

  /** A fall: `Math.max(0, h - 25)`, the larger of 0 and h - 25. */
  function Damage(h: int): (r: int)
    ensures r >= 0 && r >= h - FALL_DAMAGE
    ensures r == 0 || r == h - FALL_DAMAGE
  {
    if h - FALL_DAMAGE < 0 then 0 else h - FALL_DAMAGE
  }

  /** One regeneration tick: `Math.min(100, h + 1)`, the smaller of 100 and h + 1. */
  function Regen(h: int): (r: int)
    ensures r <= MAX_HEALTH && r <= h + 1
    ensures r == MAX_HEALTH || r == h + 1
  {
    if h + 1 > MAX_HEALTH then MAX_HEALTH else h + 1
  }

  /** Damage and regeneration keep health within [0, 100]; a fall costs 25 or
      everything left, and regeneration below full adds exactly one. */
  lemma HealthBounds(h: int)
    requires 0 <= h <= MAX_HEALTH
    ensures 0 <= Damage(h) <= h && (h >= FALL_DAMAGE ==> Damage(h) == h - FALL_DAMAGE)
    ensures 0 <= Regen(h) <= MAX_HEALTH && (h < MAX_HEALTH ==> Regen(h) == h + 1)
  {
  }

  /** Health after `n` regeneration ticks, each taken only while 0 < h < 100. */
  function RegenSteps(h: int, n: nat): int
    decreases n
  {
    if n == 0 || !(0 < h < MAX_HEALTH) then h else RegenSteps(Regen(h), n - 1)
  }

  /** From any positive health, 100 - h ticks restore full health, and further
      ticks leave it there. */
  lemma {:induction false} RegenRestores(h: int, n: nat)
    requires 0 < h <= MAX_HEALTH && n >= MAX_HEALTH - h
    ensures RegenSteps(h, n) == MAX_HEALTH
    decreases n
  {
    if n > 0 && h < MAX_HEALTH {
      RegenRestores(Regen(h), n - 1);
    }
  }

  function DeathPatch(db: PlayerStats): StatsPatch {
    NO_CHANGES.(totalDeaths := Some(db.totalDeaths + 1))
  }

  function WinPatch(db: PlayerStats, levelIndex: int): StatsPatch {
    NO_CHANGES.(credits := Some(db.credits + Reward(levelIndex)),
                highestLevel := Some(if db.highestLevel >= levelIndex + 1 then db.highestLevel else levelIndex + 1))
  }

  function VisitPatch(db: PlayerStats): StatsPatch {
    NO_CHANGES.(gamesPlayed := Some(db.gamesPlayed + 1))
  }

  /** A win never lowers the stored progress and raises it past the level won. */
  lemma WinProgress(db: PlayerStats, levelIndex: int, now: string)
    ensures var u := Merge(db, WinPatch(db, levelIndex), now);
      && u.highestLevel >= db.highestLevel && u.highestLevel >= levelIndex + 1
      && (u.highestLevel == db.highestLevel || u.highestLevel == levelIndex + 1)
      && u.credits == db.credits + Reward(levelIndex)
      && u.inventory == db.inventory && u.totalDeaths == db.totalDeaths
  {
  }

  /** The stored record after a run that wins levels 0, 1, ..., k - 1 in order,
      each win saved as `handleWin` saves it. */
  function WinRun(db: PlayerStats, k: nat, now: string): PlayerStats
    decreases k
  {
    if k == 0 then db
    else
      var prev := WinRun(db, k - 1, now);
      Merge(prev, WinPatch(prev, k - 1), now)
  }

  /** Winning the first k levels once each pays 100 + 200 + ... + 100k, that is
      50k(k + 1), into the stored credits, raises the stored progress to the
      larger of its old value and k, and leaves the inventory and the death count alone. */
  lemma {:induction false} CampaignPayout(db: PlayerStats, k: nat, now: string)
    ensures var u := WinRun(db, k, now);
      && u.credits == db.credits + 50 * k * (k + 1)
      && u.highestLevel >= db.highestLevel
      && (k > 0 ==> u.highestLevel == (if db.highestLevel >= k then db.highestLevel else k))
      && u.inventory == db.inventory && u.totalDeaths == db.totalDeaths
    decreases k
  {
    if k > 0 {
      CampaignPayout(db, k - 1, now);
      var prev := WinRun(db, k - 1, now);
      WinProgress(prev, k - 1, now);
      assert WinRun(db, k, now) == Merge(prev, WinPatch(prev, k - 1), now);
      assert 50 * (k - 1) * k + Reward(k - 1) == 50 * k * (k + 1);
    }
  }

  /** The equipped frame shown in the session: an unset id falls back to the starter frame. */
  function EquippedFrame(db: PlayerStats): (c: CharacterData)
    ensures c in CHARACTERS
    ensures db.equippedCharacterId == "" ==> c == CHARACTERS[0]
  {
    DefaultIsStandardFrame();
    GetCharacterById(if db.equippedCharacterId == "" then "frame_v01" else db.equippedCharacterId)
  }

  class Session {
    const store: Store
    var levelIndex: int
    var health: int
    var isWon: bool
    var isDead: bool
    var credits: int
    var lastEarnedCredits: int
    var character: CharacterData
    /** The Canvas key: every restart remounts the scene and with it the Player. */
    var gameKey: nat
    /** The mounted Player; it ticks only while `!isDead && !isWon`. */
    var player: Player

    /** The level index is valid, health lies in [0, 100] and is 0 once dead, and
        the Player plays the current level. */
    predicate Valid()
      reads this, player
    {
      && 0 <= levelIndex < |LEVELS|
      && 0 <= health <= MAX_HEALTH
      && (isDead ==> health == 0)
      && player.platforms == LEVELS[levelIndex].platforms
      && player.goalPosition == LEVELS[levelIndex].goalPosition
    }

    /** The first render: the level from the stored progress, full health, and
        a fresh Player at the spawn point. */
    constructor (store: Store)
      requires store.GetDatabase().highestLevel >= 0
      ensures this.store == store
      ensures levelIndex == InitialLevelIndex(store.GetDatabase().highestLevel)
      ensures health == MAX_HEALTH && !isWon && !isDead
      ensures credits == 0 && lastEarnedCredits == 0 && gameKey == 0
      ensures character == GetCharacterById("frame_v01")
      ensures fresh(player) && player.State() == SPAWNED
      ensures Valid()
    {
      this.store := store;
      var db := store.GetDatabase();
      var i := InitialLevelIndex(db.highestLevel);
      levelIndex := i;
      health := MAX_HEALTH;
      isWon := false;
      isDead := false;
      credits := 0;
      lastEarnedCredits := 0;
      character := GetCharacterById("frame_v01");
      gameKey := 0;
      player := new Player(LEVELS[i].platforms, LEVELS[i].goalPosition);
    }

    /** The mount effect: show the stored credits and equipped frame, and count
        the session as a game played. */
    method Mount(now: string)
      requires Valid()
      modifies this, store
      ensures var db := old(store.GetDatabase());
        && credits == db.credits && character == EquippedFrame(db)
        && store.storage == old(store.storage)[DB_KEY := Encode(Merge(db, VisitPatch(db), now))]
      ensures levelIndex == old(levelIndex) && health == old(health) && isWon == old(isWon)
      ensures isDead == old(isDead) && lastEarnedCredits == old(lastEarnedCredits)
      ensures gameKey == old(gameKey) && player == old(player)
      ensures Valid()
    {
      var db := store.GetDatabase();
      credits := db.credits;
      character := EquippedFrame(db);
      var _ := store.SaveDatabase(VisitPatch(db), now);
    }

    /** `restartLevel`: full health, neither won nor dead, and a remount, which
        brings a fresh Player at the spawn point. */
    method RestartLevel()
      requires 0 <= levelIndex < |LEVELS|
      modifies this
      ensures health == MAX_HEALTH && !isWon && !isDead && gameKey == old(gameKey) + 1
      ensures fresh(player) && player.State() == SPAWNED
      ensures levelIndex == old(levelIndex) && credits == old(credits)
      ensures lastEarnedCredits == old(lastEarnedCredits) && character == old(character)
      ensures Valid()
    {
      health := MAX_HEALTH;
      isWon := false;
      isDead := false;
      gameKey := gameKey + 1;
      player := new Player(LEVELS[levelIndex].platforms, LEVELS[levelIndex].goalPosition);
    }

    /** `nextLevel`: advance and restart, except on the last level, where nothing changes. */
    method NextLevel()
      requires Valid()
      modifies this
      ensures old(levelIndex) < |LEVELS| - 1 ==>
        && levelIndex == old(levelIndex) + 1
        && health == MAX_HEALTH && !isWon && !isDead && gameKey == old(gameKey) + 1
        && fresh(player) && player.State() == SPAWNED
      ensures old(levelIndex) >= |LEVELS| - 1 ==>
        && levelIndex == old(levelIndex) && health == old(health) && isWon == old(isWon)
        && isDead == old(isDead) && gameKey == old(gameKey) && player == old(player)
      ensures credits == old(credits) && lastEarnedCredits == old(lastEarnedCredits)
      ensures character == old(character)
      ensures Valid()
    {
      if levelIndex < |LEVELS| - 1 {
        levelIndex := levelIndex + 1;
        RestartLevel();
      }
    }

    /** `restartCampaign`: back to the first level and restart; credits stay. */
    method RestartCampaign()
      requires Valid()
      modifies this
      ensures levelIndex == 0
      ensures health == MAX_HEALTH && !isWon && !isDead && gameKey == old(gameKey) + 1
      ensures fresh(player) && player.State() == SPAWNED
      ensures credits == old(credits) && lastEarnedCredits == old(lastEarnedCredits)
      ensures character == old(character)
      ensures Valid()
    {
      levelIndex := 0;
      RestartLevel();
    }

    /** The death effect: at no health the session dies once and the stored death
        count grows by exactly one; afterwards, or with health left, nothing changes. */
    method CheckDeath(now: string)
      requires Valid()
      modifies this, store
      ensures var dies := old(health) <= 0 && !old(isDead);
        && isDead == (old(isDead) || dies)
        && (dies ==>
              store.storage == old(store.storage)[DB_KEY := Encode(Merge(old(store.GetDatabase()),
                                                                          DeathPatch(old(store.GetDatabase())), now))]
              && store.GetDatabase().totalDeaths == old(store.GetDatabase()).totalDeaths + 1)
        && (!dies ==> store.storage == old(store.storage))
      ensures levelIndex == old(levelIndex) && health == old(health) && isWon == old(isWon)
      ensures credits == old(credits) && lastEarnedCredits == old(lastEarnedCredits)
      ensures character == old(character) && gameKey == old(gameKey) && player == old(player)
      ensures Valid()
    {
      if health <= 0 && !isDead {
        isDead := true;
        var db := store.GetDatabase();
        var _ := store.SaveDatabase(DeathPatch(db), now);
      }
    }

    /** One tick of the regeneration interval, running while 0 < health < 100
        and the level is not won. */
    method RegenTick()
      requires Valid()
      modifies this
      ensures health == (if 0 < old(health) < MAX_HEALTH && !old(isWon) then Regen(old(health)) else old(health))
      ensures old(health) < health ==> health == old(health) + 1
      ensures levelIndex == old(levelIndex) && isWon == old(isWon) && isDead == old(isDead)
      ensures credits == old(credits) && lastEarnedCredits == old(lastEarnedCredits)
      ensures character == old(character) && gameKey == old(gameKey) && player == old(player)
      ensures Valid()
    {
      if health < MAX_HEALTH && health > 0 && !isWon {
        health := Regen(health);
      }
    }

    /** `handleWin`: the first call while neither won nor dead pays the level's
        reward into the shown and the stored credits, raises the stored progress
        and marks the level won; every other call changes nothing. */
    method HandleWin(now: string)
      requires Valid()
      modifies this, store
      ensures var pays := !old(isWon) && !old(isDead);
        var db := old(store.GetDatabase());
        && (pays ==>
              && isWon && lastEarnedCredits == Reward(levelIndex)
              && credits == old(credits) + Reward(levelIndex)
              && store.storage == old(store.storage)[DB_KEY := Encode(Merge(db, WinPatch(db, levelIndex), now))])
        && (!pays ==>
              && isWon == old(isWon) && lastEarnedCredits == old(lastEarnedCredits)
              && credits == old(credits) && store.storage == old(store.storage))
      ensures store.GetDatabase().highestLevel >= old(store.GetDatabase()).highestLevel
      ensures levelIndex == old(levelIndex) && health == old(health) && isDead == old(isDead)
      ensures character == old(character) && gameKey == old(gameKey) && player == old(player)
      ensures Valid()
    {
      if !isWon && !isDead {
        var reward := Reward(levelIndex);
        lastEarnedCredits := reward;
        credits := credits + reward;
        isWon := true;
        var db := store.GetDatabase();
        var _ := store.SaveDatabase(WinPatch(db, levelIndex), now);
        WinProgress(db, levelIndex, now);
      }
    }

    /** One animation frame: with a Player mounted it ticks, a fall costs
        FALL_DAMAGE health (never below 0) and reaching the goal calls HandleWin;
        with none mounted nothing changes. */
    method Frame(held: set<string>, dir: Vec3, time: real, delta: real, now: string)
      returns (events: TickEvents)
      requires Valid()
      modifies this, player, store
      ensures old(isDead) || old(isWon) ==>
        && events == TickEvents(false, false)
        && health == old(health) && isWon == old(isWon) && credits == old(credits)
        && player.State() == old(player.State()) && store.storage == old(store.storage)
        && lastEarnedCredits == old(lastEarnedCredits)
      ensures !old(isDead) && !old(isWon) ==>
        var t := Tick(old(player.State()), held, dir, time, delta, player.platforms, player.goalPosition);
        var db := old(store.GetDatabase());
        && events == t.events
        && player.State() == t.next
        && health == (if t.events.fellOut then Damage(old(health)) else old(health))
        && isWon == t.events.reachedGoal
        && credits == (if t.events.reachedGoal then old(credits) + Reward(levelIndex) else old(credits))
        && lastEarnedCredits == (if t.events.reachedGoal then Reward(levelIndex) else old(lastEarnedCredits))
        && store.storage == (if t.events.reachedGoal
                             then old(store.storage)[DB_KEY := Encode(Merge(db, WinPatch(db, levelIndex), now))]
                             else old(store.storage))
      ensures store.GetDatabase().highestLevel >= old(store.GetDatabase()).highestLevel
      ensures levelIndex == old(levelIndex) && isDead == old(isDead) && gameKey == old(gameKey)
      ensures player == old(player) && character == old(character)
      ensures Valid()
    {
      if isDead || isWon {
        return TickEvents(false, false);
      }
      events := player.Step(held, dir, time, delta);
      if events.fellOut {
        health := Damage(health);
      }
      if events.reachedGoal {
        HandleWin(now);
      }
    }
  }
}
