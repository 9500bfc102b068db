/**
 * What the dungeon tick engine of `world/event.py` promises, proved about the
 * specification functions of module WorldEvent: per tick, over the whole
 * catch-up loop, and for one poll of an event row.
 */
module EventProperties {
  import opened Wrappers
  import opened WorldEvent

  // ---------------------------------------------------------------------------
  // Helpers about appending to a roster or a log
  // ---------------------------------------------------------------------------

  lemma IdsAppend(a: seq<Enemy>, b: seq<Enemy>)
    ensures Ids(a + b) == Ids(a) + Ids(b)
  {
  }

  lemma NamesAppend(a: seq<Enemy>, b: seq<Enemy>)
    ensures Names(a + b) == Names(a) + Names(b)
  {
  }

  lemma DamagesSnoc(log: seq<LogLine>, line: LogLine)
    ensures Damages(log + [line]) == Damages(log) + (if line.TookDamage? then [(line.who, line.dmg)] else [])
  {
    assert (log + [line])[..|log|] == log;
  }

  lemma DeathsSnoc(log: seq<LogLine>, line: LogLine)
    ensures Deaths(log + [line]) == Deaths(log) + (if line.IsDead? then [line.who] else [])
  {
    assert (log + [line])[..|log|] == log;
  }

  lemma WeakenedTrans(a: seq<Enemy>, b: seq<Enemy>, c: seq<Enemy>)
    requires Weakened(a, b) && Weakened(b, c)
    ensures Weakened(a, c)
  {
    forall k | 0 <= k < |a|
      ensures Dominated(a[k], c)
    {
      var i :| 0 <= i < |b| && Covers(b[i], a[k]);
      var m :| 0 <= m < |c| && Covers(c[m], b[i]);
    }
  }

  // ---------------------------------------------------------------------------
  // One tick (world/event.py:60-70)
  // ---------------------------------------------------------------------------

  /**
   * A tick is a split of the hit snapshot: position by position every enemy
   * has exactly its own roll subtracted (Hits), the ones still active stay in
   * the live list in order and the others go to the dead list in order.
   */
  lemma {:induction false} TickSplitsHits(live: seq<Enemy>, rolls: seq<Roll>)
    requires |live| <= |rolls|
    requires AllActive(live)
    ensures Tick(live, rolls).survivors == Living(Hits(live, rolls))
    ensures Tick(live, rolls).dead == Departed(Hits(live, rolls))
  {
    if live != [] {
      var n := |live| - 1;
      TickLast(live, rolls);
      TickSplitsHits(live[..n], rolls);
      assert Hits(live, rolls)[..n] == Hits(live[..n], rolls);
    }
  }

  // One step of the tick loop, for one enemy of the snapshot.

  lemma StepConserves(prev: TickResult, e: Enemy, d: Roll)
    ensures var r := TickStep(prev, e, d);
            multiset(Ids(r.survivors)) + multiset(Ids(r.dead))
            == multiset(Ids(prev.survivors)) + multiset(Ids(prev.dead)) + multiset{e.id}
  {
    var r := TickStep(prev, e, d);
    if r.survivors == prev.survivors {
      var x := r.dead[|r.dead| - 1];
      assert r.dead == prev.dead + [x];
      IdsAppend(prev.dead, [x]);
    } else {
      var x := r.survivors[|r.survivors| - 1];
      assert r.survivors == prev.survivors + [x];
      IdsAppend(prev.survivors, [x]);
    }
  }

  /** Putting one more enemy `x` anywhere into a weakened roster, with `e` covering it, keeps it weakened. */
  lemma WeakenedInsert(p: seq<Enemy>, i: nat, x: Enemy, before: seq<Enemy>, e: Enemy)
    requires i <= |p| && Weakened(p, before) && Covers(e, x)
    ensures Weakened(p[..i] + [x] + p[i..], before + [e])
  {
    var a := p[..i] + [x] + p[i..];
    var b := before + [e];
    forall k | 0 <= k < |a|
      ensures Dominated(a[k], b)
    {
      if k < i {
        assert a[k] == p[k];
        var m :| 0 <= m < |before| && Covers(before[m], p[k]);
        assert b[m] == before[m];
      } else if k == i {
        assert b[|before|] == e;
      } else {
        assert a[k] == p[k - 1];
        var m :| 0 <= m < |before| && Covers(before[m], p[k - 1]);
        assert b[m] == before[m];
      }
    }
  }

  lemma StepWeakens(prev: TickResult, e: Enemy, d: Roll, before: seq<Enemy>)
    requires Weakened(prev.survivors + prev.dead, before)
    ensures var r := TickStep(prev, e, d);
            Weakened(r.survivors + r.dead, before + [e])
  {
    var p := prev.survivors + prev.dead;
    var r := TickStep(prev, e, d);
    if !e.active || e.health - d >= 1 {
      var x := r.survivors[|r.survivors| - 1];
      var i := |prev.survivors|;
      assert r.survivors + r.dead == p[..i] + [x] + p[i..];
      WeakenedInsert(p, i, x, before, e);
    } else {
      var x := r.dead[|r.dead| - 1];
      assert r.survivors + r.dead == p[..|p|] + [x] + p[|p|..];
      WeakenedInsert(p, |p|, x, before, e);
    }
  }

  lemma StepDamages(prev: TickResult, e: Enemy, d: Roll)
    requires e.active
    ensures Damages(TickStep(prev, e, d).log) == Damages(prev.log) + [(e.name, d)]
  {
    DamagesSnoc(prev.log, TookDamage(e.name, d));
    if e.health - d < 1 {
      assert TickStep(prev, e, d).log == (prev.log + [TookDamage(e.name, d)]) + [IsDead(e.name)];
      DamagesSnoc(prev.log + [TookDamage(e.name, d)], IsDead(e.name));
    }
  }

  lemma StepDeaths(prev: TickResult, e: Enemy, d: Roll)
    requires Deaths(prev.log) == Names(prev.dead)
    ensures Deaths(TickStep(prev, e, d).log) == Names(TickStep(prev, e, d).dead)
  {
    var r := TickStep(prev, e, d);
    if e.active {
      DeathsSnoc(prev.log, TookDamage(e.name, d));
      if e.health - d < 1 {
        assert r.log == (prev.log + [TookDamage(e.name, d)]) + [IsDead(e.name)];
        DeathsSnoc(prev.log + [TookDamage(e.name, d)], IsDead(e.name));
        NamesAppend(prev.dead, [r.dead[|r.dead| - 1]]);
      }
    }
  }

  /** No enemy is lost or duplicated by a tick: survivors and dead together carry the snapshot's ids. */
  lemma {:induction false} TickConserves(live: seq<Enemy>, rolls: seq<Roll>)
    requires |live| <= |rolls|
    ensures multiset(Ids(Tick(live, rolls).survivors)) + multiset(Ids(Tick(live, rolls).dead))
            == multiset(Ids(live))
  {
    if live != [] {
      var n := |live| - 1;
      TickLast(live, rolls);
      TickConserves(live[..n], rolls);
      StepConserves(Tick(live[..n], rolls), live[n], rolls[n]);
      assert live == live[..n] + [live[n]];
      IdsAppend(live[..n], [live[n]]);
    }
  }

  /**
   * After a tick over active enemies every survivor is alive (active, health
   * at least 1) and every dead enemy is inactive with health below 1.
   */
  lemma {:induction false} TickSeparatesDead(live: seq<Enemy>, rolls: seq<Roll>)
    requires |live| <= |rolls|
    requires AllActive(live)
    ensures AllAlive(Tick(live, rolls).survivors)
    ensures AllFallen(Tick(live, rolls).dead)
  {
    if live != [] {
      TickLast(live, rolls);
      TickSeparatesDead(live[..|live| - 1], rolls);
    }
  }

  /** Health never increases in a tick: each enemy after it is one of the snapshot with no more health. */
  lemma {:induction false} TickWeakens(live: seq<Enemy>, rolls: seq<Roll>)
    requires |live| <= |rolls|
    ensures Weakened(Tick(live, rolls).survivors + Tick(live, rolls).dead, live)
  {
    if live != [] {
      var n := |live| - 1;
      TickLast(live, rolls);
      TickWeakens(live[..n], rolls);
      StepWeakens(Tick(live[..n], rolls), live[n], rolls[n], live[..n]);
      assert live[..n] + [live[n]] == live;
    }
  }

  /**
   * A tick over active enemies writes one damage line per enemy of the
   * snapshot plus one "is dead" line per dead enemy, and no victory line.
   */
  lemma {:induction false} TickLogLength(live: seq<Enemy>, rolls: seq<Roll>)
    requires |live| <= |rolls|
    requires AllActive(live)
    ensures |Tick(live, rolls).log| == |live| + |Tick(live, rolls).dead|
    ensures NoVictoryLine(Tick(live, rolls).log)
  {
    if live != [] {
      TickLast(live, rolls);
      TickLogLength(live[..|live| - 1], rolls);
    }
  }

  /** The (name, roll) pairs of the snapshot, position by position. */
  function Rolled(live: seq<Enemy>, rolls: seq<Roll>): seq<(string, Roll)>
    requires |live| <= |rolls|
  {
    seq(|live|, k requires 0 <= k < |live| => (live[k].name, rolls[k]))
  }

  /** The damage lines of a tick name the enemies of the snapshot in order, each with its own roll. */
  lemma {:induction false} TickDamageLines(live: seq<Enemy>, rolls: seq<Roll>)
    requires |live| <= |rolls|
    requires AllActive(live)
    ensures Damages(Tick(live, rolls).log) == Rolled(live, rolls)
  {
    if live != [] {
      var n := |live| - 1;
      TickLast(live, rolls);
      TickDamageLines(live[..n], rolls);
      StepDamages(Tick(live[..n], rolls), live[n], rolls[n]);
      assert Rolled(live, rolls) == Rolled(live[..n], rolls) + [(live[n].name, rolls[n])];
    }
  }

  /** The "is dead" lines of a tick name the dead enemies in the order they died. */
  lemma {:induction false} TickDeathLines(live: seq<Enemy>, rolls: seq<Roll>)
    requires |live| <= |rolls|
    ensures Deaths(Tick(live, rolls).log) == Names(Tick(live, rolls).dead)
  {
    if live != [] {
      var n := |live| - 1;
      TickLast(live, rolls);
      TickDeathLines(live[..n], rolls);
      StepDeaths(Tick(live[..n], rolls), live[n], rolls[n]);
    }
  }

  /** In the log of a tick each "is dead" line comes right after the damage line of the same enemy. */
  lemma {:induction false} TickDeathFollowsDamage(live: seq<Enemy>, rolls: seq<Roll>)
    requires |live| <= |rolls|
    ensures DeathsFollowDamage(Tick(live, rolls).log)
  {
    if live != [] {
      TickLast(live, rolls);
      TickDeathFollowsDamage(live[..|live| - 1], rolls);
    }
  }

  // ---------------------------------------------------------------------------
  // The catch-up loop (world/event.py:59-75)
  // ---------------------------------------------------------------------------

  /**
   * The loop runs at most `ticks` times, stops early only when the live list
   * is empty, only appends to the log, and does nothing when no tick is owed.
   */
  lemma {:induction false} RunBounds(t: nat, ticks: int, live: seq<Enemy>, dead: seq<Enemy>,
                                     log: seq<LogLine>, rolls: seq<seq<Roll>>)
    requires RollsCover(rolls, ticks, |live|)
    ensures ticks <= t ==> RunFrom(t, ticks, live, dead, log, rolls) == RunResult(live, dead, log, t)
    ensures t < ticks ==> t < RunFrom(t, ticks, live, dead, log, rolls).ran <= ticks
    ensures RunFrom(t, ticks, live, dead, log, rolls).ran < ticks ==> RunFrom(t, ticks, live, dead, log, rolls).live == []
    ensures log <= RunFrom(t, ticks, live, dead, log, rolls).log
    decreases ticks - t
  {
    if t < ticks {
      var step := Tick(live, rolls[t]);
      if step.survivors != [] {
        RunBounds(t + 1, ticks, step.survivors, dead + step.dead, log + step.log, rolls);
      }
    }
  }

  /** The live list and the dead list always hold the original roster's ids, none lost or duplicated. */
  lemma {:induction false} RunConserves(t: nat, ticks: int, live: seq<Enemy>, dead: seq<Enemy>,
                                        log: seq<LogLine>, rolls: seq<seq<Roll>>)
    requires RollsCover(rolls, ticks, |live|)
    ensures multiset(Ids(RunFrom(t, ticks, live, dead, log, rolls).live))
            + multiset(Ids(RunFrom(t, ticks, live, dead, log, rolls).dead))
            == multiset(Ids(live)) + multiset(Ids(dead))
    decreases ticks - t
  {
    if t < ticks {
      var step := Tick(live, rolls[t]);
      TickConserves(live, rolls[t]);
      IdsAppend(dead, step.dead);
      if step.survivors != [] {
        assert RunFrom(t, ticks, live, dead, log, rolls)
               == RunFrom(t + 1, ticks, step.survivors, dead + step.dead, log + step.log, rolls);
        RunConserves(t + 1, ticks, step.survivors, dead + step.dead, log + step.log, rolls);
      }
    }
  }

  /** Every enemy still live is alive and every dead enemy is marked dead, before and after the loop. */
  lemma {:induction false} RunSeparatesDead(t: nat, ticks: int, live: seq<Enemy>, dead: seq<Enemy>,
                                            log: seq<LogLine>, rolls: seq<seq<Roll>>)
    requires RollsCover(rolls, ticks, |live|)
    requires AllAlive(live) && AllFallen(dead)
    ensures AllAlive(RunFrom(t, ticks, live, dead, log, rolls).live)
    ensures AllFallen(RunFrom(t, ticks, live, dead, log, rolls).dead)
    decreases ticks - t
  {
    if t < ticks {
      var step := Tick(live, rolls[t]);
      TickSeparatesDead(live, rolls[t]);
      if step.survivors != [] {
        RunSeparatesDead(t + 1, ticks, step.survivors, dead + step.dead, log + step.log, rolls);
      }
    }
  }

  /** One tick of the loop, with the dead list carried along, raises no health. */
  lemma FirstTickWeakens(live: seq<Enemy>, dead: seq<Enemy>, rolls: seq<Roll>)
    requires |live| <= |rolls|
    ensures var step := Tick(live, rolls);
            Weakened(step.survivors + (dead + step.dead), live + dead)
  {
    var step := Tick(live, rolls);
    TickWeakens(live, rolls);
    WeakenedJoin(step.survivors, step.dead, dead, live);
  }

  /** Over the whole loop health never increases: every enemy afterwards is one from before with no more health. */
  lemma {:induction false} RunWeakens(t: nat, ticks: int, live: seq<Enemy>, dead: seq<Enemy>,
                                      log: seq<LogLine>, rolls: seq<seq<Roll>>)
    requires RollsCover(rolls, ticks, |live|)
    ensures Weakened(RunFrom(t, ticks, live, dead, log, rolls).live + RunFrom(t, ticks, live, dead, log, rolls).dead,
                     live + dead)
    decreases ticks - t
  {
    var r := RunFrom(t, ticks, live, dead, log, rolls);
    if ticks <= t {
      WeakenedRefl(live + dead);
    } else {
      var step := Tick(live, rolls[t]);
      var mid := step.survivors + (dead + step.dead);
      FirstTickWeakens(live, dead, rolls[t]);
      if step.survivors != [] {
        assert r == RunFrom(t + 1, ticks, step.survivors, dead + step.dead, log + step.log, rolls);
        RunWeakens(t + 1, ticks, step.survivors, dead + step.dead, log + step.log, rolls);
        WeakenedTrans(r.live + r.dead, mid, live + dead);
      } else {
        assert r.live + r.dead == mid;
      }
    }
  }

  /**
   * When at least one tick is owed, the loop appends at least one line, and its
   * last line is "All enemies defeated" exactly when no enemy is left live; no
   * earlier new line announces victory.
   */
  lemma {:induction false} RunVictory(t: nat, ticks: int, live: seq<Enemy>, dead: seq<Enemy>,
                                      log: seq<LogLine>, rolls: seq<seq<Roll>>)
    requires RollsCover(rolls, ticks, |live|)
    requires AllActive(live) && NoVictoryLine(log)
    requires t < ticks
    ensures |log| < |RunFrom(t, ticks, live, dead, log, rolls).log|
    ensures var r := RunFrom(t, ticks, live, dead, log, rolls);
            r.live == [] <==> r.log[|r.log| - 1] == AllDefeated
    ensures var r := RunFrom(t, ticks, live, dead, log, rolls);
            NoVictoryLine(r.log[..|r.log| - 1])
    decreases ticks - t
  {
    var r := RunFrom(t, ticks, live, dead, log, rolls);
    var step := Tick(live, rolls[t]);
    TickLogLength(live, rolls[t]);
    TickSeparatesDead(live, rolls[t]);
    assert NoVictoryLine(log + step.log);
    if step.survivors == [] {
      assert r.log[..|r.log| - 1] == log + step.log;
    } else {
      assert step.log != [];
      if t + 1 < ticks {
        RunVictory(t + 1, ticks, step.survivors, dead + step.dead, log + step.log, rolls);
      } else {
        RunBounds(t + 1, ticks, step.survivors, dead + step.dead, log + step.log, rolls);
        assert r.log == log + step.log;
        assert r.log[|r.log| - 1] != AllDefeated;
      }
    }
  }

  // ---------------------------------------------------------------------------
  // One poll of an event row (world/event.py:18-94)
  // ---------------------------------------------------------------------------

  /**
   * The guards run before any tick: a deleted event is left alone; an event
   * without live enemies is deleted once two ticks are owed, whether or not it
   * is paused; otherwise a paused event is reactivated with its clock reset to
   * `now`. None of them touches the enemies or the log, and all return None.
   */
  lemma Guards(row: EventRow, ticks: int, now: real, rolls: seq<seq<Roll>>)
    requires RollsCover(rolls, ticks, |row.enemies|)
    ensures var p := ProcessDungeon(row, ticks, now, rolls);
            row.deleted ==> p == Processed(row, None)
    ensures var p := ProcessDungeon(row, ticks, now, rolls);
            !row.deleted && row.enemies == [] && ticks >= 2 ==>
              p.result == None && p.row.deleted && p.row.active == row.active
              && p.row.fallen == [] && p.row.logRows == [] && p.row.players == []
    ensures var p := ProcessDungeon(row, ticks, now, rolls);
            !row.deleted && !(row.enemies == [] && ticks >= 2) && !row.active ==>
              p.result == None && p.row.active && p.row.lastUpdate == now && !p.row.deleted
              && p.row.enemies == row.enemies && p.row.logRows == row.logRows
  {
  }

  /** With no tick owed, a poll of an active event changes nothing and reports no new line. */
  lemma ZeroTicks(row: EventRow, now: real, rolls: seq<seq<Roll>>)
    requires RollsCover(rolls, 0, |row.enemies|)
    requires !row.deleted && row.active
    ensures ProcessDungeon(row, 0, now, rolls) == Processed(row, Some(Outcome([], row.players, row.enemies)))
  {
    RunBounds(0, 0, row.enemies, [], [], rolls);
  }

  /**
   * With ticks owed, a poll of an active event with live enemies (or a single
   * owed tick) stamps `last_update` with `now` and writes exactly one EventLog
   * row, holding the new lines it returns; those end with "All enemies
   * defeated" exactly when no enemy is left live.
   */
  lemma PositiveTicks(row: EventRow, ticks: int, now: real, rolls: seq<seq<Roll>>)
    requires RollsCover(rolls, ticks, |row.enemies|)
    requires AllActive(row.enemies) && !row.deleted && row.active
    requires ticks > 0 && !(row.enemies == [] && ticks >= 2)
    ensures var p := ProcessDungeon(row, ticks, now, rolls);
            p.result.Some? && p.result.value.log != []
            && p.row.lastUpdate == now
            && p.row.logRows == row.logRows + [p.result.value.log]
            && p.row.enemies == p.result.value.enemies
            && (p.row.enemies == [] <==> p.result.value.log[|p.result.value.log| - 1] == AllDefeated)
  {
    RunVictory(0, ticks, row.enemies, [], [], rolls);
  }

  /** A poll keeps a well-formed row well formed: live enemies alive, dead ones marked dead. */
  lemma KeepsWf(row: EventRow, ticks: int, now: real, rolls: seq<seq<Roll>>)
    requires RollsCover(rolls, ticks, |row.enemies|)
    requires Wf(row)
    ensures Wf(ProcessDungeon(row, ticks, now, rolls).row)
  {
    if !row.deleted && !(row.enemies == [] && ticks >= 2) && row.active {
      var run := Run(row.enemies, ticks, rolls);
      RunBounds(0, ticks, row.enemies, [], [], rolls);
      RunSeparatesDead(0, ticks, row.enemies, [], [], rolls);
    }
  }

  /**
   * A poll that does not delete the event neither loses nor duplicates an
   * enemy: the live and the dead enemies of the row hold the same ids before
   * and after. A poll that deletes it removes every enemy of the event.
   */
  lemma KeepsIds(row: EventRow, ticks: int, now: real, rolls: seq<seq<Roll>>)
    requires RollsCover(rolls, ticks, |row.enemies|)
    ensures var p := ProcessDungeon(row, ticks, now, rolls);
            !p.row.deleted ==> multiset(Ids(p.row.enemies + p.row.fallen)) == multiset(Ids(row.enemies + row.fallen))
    ensures var p := ProcessDungeon(row, ticks, now, rolls);
            p.row.deleted && !row.deleted ==> Ids(p.row.enemies + p.row.fallen) == []
  {
    var p := ProcessDungeon(row, ticks, now, rolls);
    if !row.deleted && !(row.enemies == [] && ticks >= 2) && row.active {
      var run := Run(row.enemies, ticks, rolls);
      RunBounds(0, ticks, row.enemies, [], [], rolls);
      if ticks != 0 {
        RunConserves(0, ticks, row.enemies, [], [], rolls);
        assert Ids([]) == [];
        IdsJoin(run.live, run.dead, row.fallen, row.enemies);
      }
    }
  }

  lemma IdsJoin(live: seq<Enemy>, dead: seq<Enemy>, fallen: seq<Enemy>, enemies: seq<Enemy>)
    requires multiset(Ids(live)) + multiset(Ids(dead)) == multiset(Ids(enemies))
    ensures multiset(Ids(live + (fallen + dead))) == multiset(Ids(enemies + fallen))
  {
    IdsAppend(enemies, fallen);
    IdsAppend(live, fallen + dead);
    IdsAppend(fallen, dead);
  }

  lemma WeakenedRefl(a: seq<Enemy>)
    ensures Weakened(a, a)
  {
    forall k | 0 <= k < |a|
      ensures Dominated(a[k], a)
    {
      assert Covers(a[k], a[k]);
    }
  }

  lemma WeakenedJoin(live: seq<Enemy>, dead: seq<Enemy>, fallen: seq<Enemy>, enemies: seq<Enemy>)
    requires Weakened(live + dead, enemies)
    ensures Weakened(live + (fallen + dead), enemies + fallen)
  {
    var a := live + (fallen + dead);
    var b := enemies + fallen;
    var src := live + dead;
    forall k | 0 <= k < |a|
      ensures Dominated(a[k], b)
    {
      if |live| <= k < |live| + |fallen| {
        assert a[k] == b[|enemies| + k - |live|];
      } else {
        var i := if k < |live| then k else k - |fallen|;
        assert a[k] == src[i];
        var m :| 0 <= m < |enemies| && Covers(enemies[m], src[i]);
        assert b[m] == enemies[m];
      }
    }
  }

  /** A poll never raises an enemy's health: every enemy of the row afterwards is one from before with no more health. */
  lemma KeepsWeakening(row: EventRow, ticks: int, now: real, rolls: seq<seq<Roll>>)
    requires RollsCover(rolls, ticks, |row.enemies|)
    ensures var p := ProcessDungeon(row, ticks, now, rolls);
            Weakened(p.row.enemies + p.row.fallen, row.enemies + row.fallen)
  {
    var p := ProcessDungeon(row, ticks, now, rolls);
    if !row.deleted && !(row.enemies == [] && ticks >= 2) && row.active && ticks != 0 {
      var run := Run(row.enemies, ticks, rolls);
      RunWeakens(0, ticks, row.enemies, [], [], rolls);
      assert row.enemies + [] == row.enemies;
      WeakenedJoin(run.live, run.dead, row.fallen, row.enemies);
    } else {
      if !row.deleted && !(row.enemies == [] && ticks >= 2) && row.active {
        RunBounds(0, ticks, row.enemies, [], [], rolls);
      }
      WeakenedRefl(row.enemies + row.fallen);
    }
  }

  /**
   * Polling twice at the same instant, where the second poll owes the ticks
   * its locked row says: it finds nothing owed after the first poll, changes
   * nothing and reports no new line.
   */
  lemma SecondPollSameInstant(row: EventRow, now: real, rolls: seq<seq<Roll>>)
    requires RollsCover(rolls, Ticks(now, row.lastUpdate), |row.enemies|)
    ensures var first := Poll(row, now, rolls).row;
            !first.deleted ==> Poll(first, now, []) == Processed(first, Some(Outcome([], first.players, first.enemies)))
  {
    var first := Poll(row, now, rolls).row;
    if !first.deleted {
      ZeroTicks(first, now, []);
    }
  }

  /**
   * The poll as written takes its owed ticks from the caller's copy of the
   * row, read before the lock. Two polls at the same instant that both read
   * the row before either committed owe the same tick, and the second applies
   * it again to the row the first left: one enemy with health 10 polled one
   * second after `last_update` ends with health 8, and two EventLog rows.
   */
  lemma StaleCopyTicksTwice()
    ensures var e := Enemy(1, "rat", 10, true);
            var row := EventRow(false, true, 0.0, [], [e], [], []);
            var first := ProcessDungeon(row, Ticks(1.0, row.lastUpdate), 1.0, [[1]]).row;
            var second := ProcessDungeon(first, Ticks(1.0, row.lastUpdate), 1.0, [[1]]).row;
            first.enemies == [e.(health := 9)] && second.enemies == [e.(health := 8)] && |second.logRows| == 2
  {
    var e := Enemy(1, "rat", 10, true);
    var row := EventRow(false, true, 0.0, [], [e], [], []);
    assert Ticks(1.0, row.lastUpdate) == 1;
    var rolls: seq<seq<Roll>> := [[1]];
    assert TickPrefix([e], 0, rolls[0]) == TickResult([], [], []);
    var t1 := Tick([e], rolls[0]);
    assert t1 == TickStep(TickResult([], [], []), e, 1);
    assert t1 == TickResult([e.(health := 9)], [], [TookDamage("rat", 1)]);
    var first := ProcessDungeon(row, 1, 1.0, rolls).row;
    assert first.enemies == [e.(health := 9)];
    assert TickPrefix(first.enemies, 0, rolls[0]) == TickResult([], [], []);
    var t2 := Tick(first.enemies, rolls[0]);
    assert t2 == TickStep(TickResult([], [], []), e.(health := 9), 1);
    assert t2 == TickResult([e.(health := 8)], [], [TookDamage("rat", 1)]);
  }

  /** Every log line can be read back from its text: the wording of the lines is unambiguous. */
  lemma TextReadsBack(line: LogLine)
    ensures ReadLine(Text(line)) == Some(line)
  {
    var s := Text(line);
    var n := |s|;
    match line
    case AllDefeated =>
    case IsDead(who) =>
      assert s[n - 8..] == " is dead";
      assert "All enemies defeated"[12..] != " is dead";
      assert s[..n - 8] == who;
    case TookDamage(who, dmg) =>
      assert s[n - 1] == 'e';
      assert s[n - 14..n - 8] == " took " && s[n - 8] == Digit(dmg) && s[n - 7..] == " damage";
      assert s[..n - 14] == who;
  }
}
