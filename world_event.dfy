/**
 * The dungeon tick engine and the town placeholder of `world/event.py`.
 *
 * A poll of a dungeon encounter locks the event row, loads its live enemies
 * and applies `ticks` whole steps to them: in every step each live enemy takes
 * a damage roll in {0,1,2}; an enemy whose health falls below 1 is marked
 * inactive, leaves the live list, joins the dead list and is logged. The loop
 * stops early once no enemy is left. The clock reading, the number of owed
 * ticks and the damage rolls are inputs of the model.
 */
module WorldEvent {
  import opened Wrappers

  type EnemyId = nat
  type PlayerId = nat
  type EventId = nat

  /** One result of `random.choice(range(3))`. */
  type Roll = d: int | 0 <= d <= 2

  /** An enemy row as the tick loop sees it: its health and its `active` flag. */
  datatype Enemy = Enemy(id: EnemyId, name: string, health: int, active: bool)

  /** A line of the combat log written by the tick loop. */
  datatype LogLine =
    | TookDamage(who: string, dmg: Roll)
    | IsDead(who: string)
    | AllDefeated

  /** The decimal digit of a roll. */
  function Digit(d: Roll): char
  {
    (('0' as int) + d) as char
  }

  /** The text the source writes for each kind of line; an enemy's line starts with its name. */
  function Text(line: LogLine): (s: string)
    ensures !line.AllDefeated? ==> line.who <= s
  {
    match line
    case TookDamage(who, dmg) => who + " took " + [Digit(dmg)] + " damage"
    case IsDead(who) => who + " is dead"
    case AllDefeated => "All enemies defeated"
  }

  /**
   * Reads a log line back from its text: the fixed ending tells the kind of
   * the line, and what comes before it is the enemy's name.
   */
  function ReadLine(s: string): (r: Option<LogLine>)
    ensures r.Some? ==> Text(r.value) == s
  {
    var n := |s|;
    if s == "All enemies defeated" then Some(AllDefeated)
    else if n >= 8 && s[n - 8..] == " is dead" then
      assert s == s[..n - 8] + " is dead";
      Some(IsDead(s[..n - 8]))
    else if n >= 14 && s[n - 14..n - 8] == " took " && '0' <= s[n - 8] <= '2' && s[n - 7..] == " damage" then
      var d: Roll := s[n - 8] as int - '0' as int;
      assert s == s[..n - 14] + " took " + [Digit(d)] + " damage";
      Some(TookDamage(s[..n - 14], d))
    else None
  }

  // ---------------------------------------------------------------------------
  // Views of a roster
  // ---------------------------------------------------------------------------

  function Ids(s: seq<Enemy>): (ids: seq<EnemyId>)
  {
    seq(|s|, k requires 0 <= k < |s| => s[k].id)
  }

  function Names(s: seq<Enemy>): (names: seq<string>)
  {
    seq(|s|, k requires 0 <= k < |s| => s[k].name)
  }

  /** A live enemy: still flagged active and with health of at least 1. */
  predicate Alive(e: Enemy)
  {
    e.active && e.health >= 1
  }

  predicate AllActive(s: seq<Enemy>)
  {
    forall k | 0 <= k < |s| :: s[k].active
  }

  predicate AllAlive(s: seq<Enemy>)
  {
    forall k | 0 <= k < |s| :: Alive(s[k])
  }

  /** Every enemy of `s` has been marked dead: inactive with health below 1. */
  predicate AllFallen(s: seq<Enemy>)
  {
    forall k | 0 <= k < |s| :: !s[k].active && s[k].health < 1
  }

  /** `x` is the enemy `y` (same id and name) with no more health than `y`. */
  predicate Covers(y: Enemy, x: Enemy)
  {
    y.id == x.id && y.name == x.name && x.health <= y.health
  }

  /** Some enemy of `before` covers `x`. */
  ghost predicate Dominated(x: Enemy, before: seq<Enemy>)
  {
    exists m | 0 <= m < |before| :: Covers(before[m], x)
  }

  /** Every enemy of `after` is an enemy of `before` (same id and name) with no more health. */
  ghost predicate Weakened(after: seq<Enemy>, before: seq<Enemy>)
  {
    forall k | 0 <= k < |after| :: Dominated(after[k], before)
  }

  // ---------------------------------------------------------------------------
  // One tick
  // ---------------------------------------------------------------------------

  /** What one pass over the live list leaves behind. */
  datatype TickResult = TickResult(survivors: seq<Enemy>, dead: seq<Enemy>, log: seq<LogLine>)

  /**
   * The body of the tick loop for one enemy `e` of the snapshot hit by roll
   * `d`: an inactive enemy stays where it is untouched; an active one loses
   * `d` health, is logged, and leaves the live list for the dead list,
   * inactive, when its health falls below 1.
   */
  function TickStep(prev: TickResult, e: Enemy, d: Roll): (r: TickResult)
    ensures |r.survivors| + |r.dead| == |prev.survivors| + |prev.dead| + 1
  {
    if !e.active then TickResult(prev.survivors + [e], prev.dead, prev.log)
    else
      var hit := e.(health := e.health - d);
      if hit.health < 1 then
        TickResult(prev.survivors, prev.dead + [hit.(active := false)], prev.log + [TookDamage(e.name, d), IsDead(e.name)])
      else
        TickResult(prev.survivors + [hit], prev.dead, prev.log + [TookDamage(e.name, d)])
  }

  /**
   * The tick loop after its first `i` iterations over the snapshot `live`, in
   * list order; the enemy at position k of the snapshot is hit by `rolls[k]`.
   */
  function TickPrefix(live: seq<Enemy>, i: nat, rolls: seq<Roll>): (r: TickResult)
    requires i <= |live| && i <= |rolls|
    ensures |r.survivors| + |r.dead| == i
  {
    if i == 0 then TickResult([], [], [])
    else TickStep(TickPrefix(live, i - 1, rolls), live[i - 1], rolls[i - 1])
  }

  /** One tick over the whole snapshot `live` of the live list. */
  function Tick(live: seq<Enemy>, rolls: seq<Roll>): (r: TickResult)
    requires |live| <= |rolls|
    ensures |r.survivors| + |r.dead| == |live|
  {
    TickPrefix(live, |live|, rolls)
  }

  /** The first `i` iterations only look at the first `i` enemies of the snapshot. */
  lemma {:induction false} TickPrefixOnly(live: seq<Enemy>, m: nat, i: nat, rolls: seq<Roll>)
    requires i <= m <= |live| && m <= |rolls|
    ensures TickPrefix(live[..m], i, rolls) == TickPrefix(live, i, rolls)
  {
    if i > 0 {
      TickPrefixOnly(live, m, i - 1, rolls);
    }
  }

  /** A tick over a non-empty snapshot is the tick over all but its last enemy, then one more step. */
  lemma TickLast(live: seq<Enemy>, rolls: seq<Roll>)
    requires live != [] && |live| <= |rolls|
    ensures Tick(live, rolls) == TickStep(Tick(live[..|live| - 1], rolls), live[|live| - 1], rolls[|live| - 1])
  {
    TickPrefixOnly(live, |live| - 1, |live| - 1, rolls);
  }

  /** An enemy after one roll, taken on its own: health minus the roll, inactive below 1. */
  function Hit(e: Enemy, d: Roll): (hit: Enemy)
  {
    if !e.active then e else e.(health := e.health - d, active := e.health - d >= 1)
  }

  /** Every enemy of the snapshot after its own roll, position by position. */
  function Hits(live: seq<Enemy>, rolls: seq<Roll>): (h: seq<Enemy>)
    requires |live| <= |rolls|
  {
    seq(|live|, k requires 0 <= k < |live| => Hit(live[k], rolls[k]))
  }

  /** The enemies of `s` that are still active, in order. */
  function Living(s: seq<Enemy>): (living: seq<Enemy>)
  {
    if s == [] then [] else Living(s[..|s| - 1]) + (if s[|s| - 1].active then [s[|s| - 1]] else [])
  }

  /** The enemies of `s` that are inactive, in order. */
  function Departed(s: seq<Enemy>): (departed: seq<Enemy>)
  {
    if s == [] then [] else Departed(s[..|s| - 1]) + (if s[|s| - 1].active then [] else [s[|s| - 1]])
  }

  /** The (name, roll) of each damage line of a log, in order. */
  function Damages(log: seq<LogLine>): (damages: seq<(string, Roll)>)
  {
    if log == [] then []
    else
      var last := log[|log| - 1];
      Damages(log[..|log| - 1]) + (if last.TookDamage? then [(last.who, last.dmg)] else [])
  }

  /** The name of each "is dead" line of a log, in order. */
  function Deaths(log: seq<LogLine>): (names: seq<string>)
  {
    if log == [] then []
    else
      var last := log[|log| - 1];
      Deaths(log[..|log| - 1]) + (if last.IsDead? then [last.who] else [])
  }

  /** Each "is dead" line comes right after a damage line for the same enemy name. */
  predicate DeathsFollowDamage(log: seq<LogLine>)
  {
    forall k | 0 <= k < |log| && log[k].IsDead? :: 0 < k && log[k - 1].TookDamage? && log[k - 1].who == log[k].who
  }

  /** No line of `log` announces that all enemies were defeated. */
  predicate NoVictoryLine(log: seq<LogLine>)
  {
    forall k | 0 <= k < |log| :: log[k] != AllDefeated
  }

  // ---------------------------------------------------------------------------
  // The catch-up loop
  // ---------------------------------------------------------------------------

  /** What the tick loop leaves behind, and how many ticks it ran. */
  datatype RunResult = RunResult(live: seq<Enemy>, dead: seq<Enemy>, log: seq<LogLine>, ran: nat)

  /** There is a row of rolls for every owed tick, each as long as the roster. */
  predicate RollsCover(rolls: seq<seq<Roll>>, ticks: int, n: nat)
  {
    ticks <= |rolls| && forall t | 0 <= t < |rolls| :: n <= |rolls[t]|
  }

  /**
   * The loop from tick `t` on, with the live list, the dead list and the new
   * log accumulated so far; `rolls[t]` are the rolls of tick `t`. The live
   * list only shrinks, and the dead list and the log only grow at their ends.
   */
  function RunFrom(t: nat, ticks: int, live: seq<Enemy>, dead: seq<Enemy>, log: seq<LogLine>,
                   rolls: seq<seq<Roll>>): (r: RunResult)
    requires RollsCover(rolls, ticks, |live|)
    ensures |r.live| + |r.dead| == |live| + |dead|
    ensures dead <= r.dead && log <= r.log
    decreases ticks - t
  {
    if ticks <= t then RunResult(live, dead, log, t)
    else
      var step := Tick(live, rolls[t]);
      if step.survivors == [] then RunResult([], dead + step.dead, log + step.log + [AllDefeated], t + 1)
      else RunFrom(t + 1, ticks, step.survivors, dead + step.dead, log + step.log, rolls)
  }

  /**
   * The whole loop `for tick in range(ticks)` over the loaded live enemies:
   * no enemy is added to the live list, and each one leaves it only for the
   * dead list.
   */
  function Run(live: seq<Enemy>, ticks: int, rolls: seq<seq<Roll>>): (r: RunResult)
    requires RollsCover(rolls, ticks, |live|)
    ensures |r.live| + |r.dead| == |live|
  {
    RunFrom(0, ticks, live, [], [], rolls)
  }

  // ---------------------------------------------------------------------------
  // The event row and one poll of it
  // ---------------------------------------------------------------------------

  /**
   * The state of one dungeon event as the poll sees it: whether the row is
   * deleted, its `active` flag and `last_update`, the players the poll loads,
   * the live enemies (the rows with `active` set), the enemies already dead,
   * and the EventLog rows written so far.
   */
  datatype EventRow = EventRow(
    deleted: bool,
    active: bool,
    lastUpdate: real,
    players: seq<PlayerId>,
    enemies: seq<Enemy>,
    fallen: seq<Enemy>,
    logRows: seq<seq<LogLine>>)

  /** The dictionary a poll returns: the new log lines, the players and the live enemies. */
  datatype Outcome = Outcome(log: seq<LogLine>, players: seq<PlayerId>, enemies: seq<Enemy>)

  datatype Processed = Processed(row: EventRow, result: Option<Outcome>)

  /** A well-formed row: live enemies are alive and dead ones are marked dead. */
  predicate Wf(row: EventRow)
  {
    AllAlive(row.enemies) && AllFallen(row.fallen)
  }

  /** Whole ticks elapsed since `last_update`: `math.floor(time.time() - event.last_update)`. */
  function Ticks(now: real, lastUpdate: real): (ticks: int)
    ensures ticks as real <= now - lastUpdate < ticks as real + 1.0
  {
    (now - lastUpdate).Floor
  }

  /**
   * A deleted event row. The delete cascades to the event's Enemy and
   * EventLog rows, and the players' `event` is set to NULL, so none is left.
   */
  function Deleted(row: EventRow): (gone: EventRow)
    ensures gone.deleted && gone.active == row.active && gone.lastUpdate == row.lastUpdate
    ensures gone.players == [] && gone.enemies == [] && gone.fallen == [] && gone.logRows == []
  {
    row.(deleted := true, players := [], enemies := [], fallen := [], logRows := [])
  }

  /**
   * One call of `process_dungeon_event` on the locked event, owing `ticks`.
   * It reports a result exactly when the event exists, is not deleted by
   * this poll and was not paused, and then reports the live enemies it
   * leaves and the players it loaded; an event that still exists afterwards
   * is active.
   */
  function ProcessDungeon(row: EventRow, ticks: int, now: real, rolls: seq<seq<Roll>>): (p: Processed)
    requires RollsCover(rolls, ticks, |row.enemies|)
    ensures p.result.Some? <==> !row.deleted && !(row.enemies == [] && ticks >= 2) && row.active
    ensures p.result.Some? ==> p.result.value.enemies == p.row.enemies && p.result.value.players == row.players
    ensures p.row.deleted <==> row.deleted || (row.enemies == [] && ticks >= 2)
    ensures !p.row.deleted ==> p.row.active && p.row.players == row.players
  {
    if row.deleted then Processed(row, None)
    else if row.enemies == [] && ticks >= 2 then Processed(Deleted(row), None)
    else if !row.active then Processed(row.(active := true, lastUpdate := now), None)
    else
      var run := Run(row.enemies, ticks, rolls);
      var after :=
        if ticks != 0 then
          row.(lastUpdate := now,
               logRows := if run.log != [] then row.logRows + [run.log] else row.logRows,
               enemies := run.live,
               fallen := row.fallen + run.dead)
        else row.(enemies := run.live);
      Processed(after, Some(Outcome(run.log, row.players, run.live)))
  }

  /**
   * A poll that takes its owed ticks from the locked row itself, so that
   * ticks already applied by an earlier poll are not owed again. Afterwards
   * no whole tick is owed at `now`, unless the event is gone.
   */
  function Poll(locked: EventRow, now: real, rolls: seq<seq<Roll>>): (p: Processed)
    requires RollsCover(rolls, Ticks(now, locked.lastUpdate), |locked.enemies|)
    ensures !p.row.deleted ==> p.row.active && Ticks(now, p.row.lastUpdate) == 0
  {
    ProcessDungeon(locked, Ticks(now, locked.lastUpdate), now, rolls)
  }

  /** The event row locked by `select_for_update`, with the enemies prefetched into it. */
  class EventLock {
    var deleted: bool
    var active: bool
    var lastUpdate: real
    var players: seq<PlayerId>
    var enemies: seq<Enemy>
    var fallen: seq<Enemy>
    var logRows: seq<seq<LogLine>>

    function Row(): EventRow
      reads this
    {
      EventRow(deleted, active, lastUpdate, players, enemies, fallen, logRows)
    }

    constructor (row: EventRow)
      ensures Row() == row
    {
      deleted, active, lastUpdate := row.deleted, row.active, row.lastUpdate;
      players, enemies, fallen, logRows := row.players, row.enemies, row.fallen, row.logRows;
    }

    /** `process_dungeon_event`: the guards, the tick loop and the final update. */
    method Process(ticks: int, now: real, rolls: seq<seq<Roll>>) returns (result: Option<Outcome>)
      requires RollsCover(rolls, ticks, |enemies|)
      modifies this
      ensures Processed(Row(), result) == ProcessDungeon(old(Row()), ticks, now, rolls)
    {
      if deleted {
        return None;
      }
      if enemies == [] && ticks >= 2 {
        deleted := true;
        players, enemies, fallen, logRows := [], [], [], [];
        return None;
      }
      if !active {
        active := true;
        lastUpdate := now;
        return None;
      }
      var deadEnemies, newlog := CatchUp(ticks, rolls);
      if ticks != 0 {
        lastUpdate := now;
        if newlog != [] {
          logRows := logRows + [newlog];
        }
        fallen := fallen + deadEnemies;
      }
      result := Some(Outcome(newlog, players, enemies));
    }

    /**
     * The loop `for tick in range(ticks)`: one tick after another over the
     * live list, collecting the dead enemies and the new log lines, until the
     * owed ticks are done or no enemy is left, which is logged.
     */
    method CatchUp(ticks: int, rolls: seq<seq<Roll>>) returns (deadEnemies: seq<Enemy>, newlog: seq<LogLine>)
      requires RollsCover(rolls, ticks, |enemies|)
      modifies this`enemies
      ensures var goal := Run(old(enemies), ticks, rolls);
              enemies == goal.live && deadEnemies == goal.dead && newlog == goal.log
    {
      ghost var goal := Run(enemies, ticks, rolls);
      newlog, deadEnemies := [], [];
      var tick := 0;
      while tick < ticks
        invariant RollsCover(rolls, ticks, |enemies|)
        invariant RunFrom(tick, ticks, enemies, deadEnemies, newlog, rolls) == goal
        modifies this`enemies
        decreases ticks - tick
      {
        var killed, lines := DamageAll(rolls[tick]);
        deadEnemies, newlog := deadEnemies + killed, newlog + lines;
        if enemies == [] {
          newlog := newlog + [AllDefeated];
          assert goal == RunResult(enemies, deadEnemies, newlog, tick + 1);
          break;
        }
        tick := tick + 1;
      }
    }

    /**
     * One tick: `for enemy in event_lock.enemies[:]`, damaging each live enemy,
     * removing the dead ones from the live list and collecting them with their log lines.
     */
    method DamageAll(rolls: seq<Roll>) returns (killed: seq<Enemy>, lines: seq<LogLine>)
      requires |enemies| <= |rolls|
      modifies this`enemies
      ensures TickResult(enemies, killed, lines) == Tick(old(enemies), rolls)
    {
      var snapshot := enemies;
      killed, lines := [], [];
      var i, j := 0, 0;
      while i < |snapshot|
        invariant i <= |snapshot|
        invariant j == |TickPrefix(snapshot, i, rolls).survivors|
        invariant enemies == TickPrefix(snapshot, i, rolls).survivors + snapshot[i..]
        invariant killed == TickPrefix(snapshot, i, rolls).dead && lines == TickPrefix(snapshot, i, rolls).log
        modifies this`enemies
      {
        j, killed, lines := Strike(snapshot, i, rolls, j, killed, lines);
        i := i + 1;
      }
    }

    /**
     * The body of `for enemy in event_lock.enemies[:]` for the enemy at index
     * `i` of the snapshot, which sits at index `j` of the live list: an active
     * enemy takes its roll and is logged, and leaves the live list for the
     * dead list once its health is below 1.
     */
    method Strike(ghost snapshot: seq<Enemy>, i: nat, rolls: seq<Roll>, j: nat, killed: seq<Enemy>, lines: seq<LogLine>)
      returns (j': nat, killed': seq<Enemy>, lines': seq<LogLine>)
      requires i < |snapshot| <= |rolls|
      requires j == |TickPrefix(snapshot, i, rolls).survivors|
      requires enemies == TickPrefix(snapshot, i, rolls).survivors + snapshot[i..]
      requires killed == TickPrefix(snapshot, i, rolls).dead && lines == TickPrefix(snapshot, i, rolls).log
      modifies this`enemies
      ensures j' == |TickPrefix(snapshot, i + 1, rolls).survivors|
      ensures enemies == TickPrefix(snapshot, i + 1, rolls).survivors + snapshot[i + 1..]
      ensures killed' == TickPrefix(snapshot, i + 1, rolls).dead && lines' == TickPrefix(snapshot, i + 1, rolls).log
    {
      ghost var prev := TickPrefix(snapshot, i, rolls);
      assert enemies[..j] == prev.survivors && enemies[j + 1..] == snapshot[i + 1..];
      j', killed', lines' := j, killed, lines;
      var enemy := enemies[j];
      if enemy.active {
        var dmg := rolls[i];
        enemy := enemy.(health := enemy.health - dmg);
        lines' := lines' + [TookDamage(enemy.name, dmg)];
        if enemy.health < 1 {
          lines' := lines' + [IsDead(enemy.name)];
          enemy := enemy.(active := false);
          enemies := enemies[..j] + enemies[j + 1..];
          killed' := killed' + [enemy];
        } else {
          enemies := enemies[j := enemy];
          assert enemies == (prev.survivors + [enemy]) + snapshot[i + 1..];
          j' := j + 1;
        }
      } else {
        assert enemies == (prev.survivors + [enemy]) + snapshot[i + 1..];
        j' := j + 1;
      }
    }
  }

  // ---------------------------------------------------------------------------
  // The town placeholder
  // ---------------------------------------------------------------------------

  /** A player row with the event it is attached to, if any. */
  datatype PlayerRef = PlayerRef(id: PlayerId, event: Option<EventId>)

  datatype TownOutcome = TownOutcome(log: seq<LogLine>, players: seq<PlayerRef>, enemies: seq<Enemy>)

  /** The players attached to `event` other than `caller`, in order. */
  function OthersAt(all: seq<PlayerRef>, event: EventId, caller: PlayerId): (r: seq<PlayerRef>)
    ensures |r| <= |all|
    ensures forall p :: p in r <==> p in all && p.event == Some(event) && p.id != caller
  {
    if all == [] then []
    else
      var rest := OthersAt(all[1..], event, caller);
      if all[0].event == Some(event) && all[0].id != caller then [all[0]] + rest else rest
  }

  /** `process_town_event`: the other players of the event, no log and no enemies. */
  function ProcessTown(all: seq<PlayerRef>, event: EventId, caller: PlayerId): (r: TownOutcome)
    ensures r.log == [] && r.enemies == []
    ensures forall p :: p in r.players <==> p in all && p.event == Some(event) && p.id != caller
  {
    TownOutcome([], OthersAt(all, event, caller), [])
  }
}
