# qumud combat core, modelled in Dafny

qumud is a browser game in which players poll a shared dungeon encounter (an
*event*). This project models the logic at the core of that game:

- **The dungeon tick engine** (`world/event.py`). A poll locks the event row. Two
  guards run first: an event with no live enemies is deleted once two ticks are
  owed, and a paused event is reactivated with its clock reset. Otherwise the
  poll applies `ticks` whole steps to the live enemies. In each step every live
  enemy takes a damage roll of 0, 1 or 2. An enemy whose health falls below 1 is
  marked inactive, moved to the dead list and logged. The loop stops early when
  no enemy is left, with an "All enemies defeated" line. When ticks were owed,
  the poll stamps `last_update` and writes the new lines as one EventLog row.
  The town placeholder returns the other players of the event.
- **The save hooks of the models** (`world/models.py`). A new Player row is
  stamped type `P` and a new Enemy row type `E`. Saving an existing Player with
  `update_fields` that touch a status field raises `new_status`, and touching
  `location` raises `new_location`. Each raised flag is added to the saved
  fields. Also modelled: the arguments an enemy's SVG is rendered with, and the
  field defaults of Event and Location.
- **The player-setup redirect** (`core/middleware.py`). An authenticated user
  without a player is redirected to the setup page unless the path is exempt. A
  user with a player is redirected from the setup page to home. An HTMX request
  gets the redirect as an `HX-Redirect` header.
- **World generation** (`core/utils/generators.py`). These functions drop a
  short trailing word from a generated name, assign dungeon levels in
  `[level, level+3]` popped from the end of the drawn list, and build a town and
  a region.

The files are `wrappers.dfy` (Option and Result), `world_event.dfy` (the engine:
the specification functions `Tick`, `RunFrom`/`Run`, `ProcessDungeon` and the
class `EventLock`, whose methods are proved equal to them), `event_properties.dfy`
(what the engine promises, proved about those functions), `world_models.dfy`,
`middleware.dfy` and `generators.dfy`.

Inputs that stand for the outside world:
- the owed `ticks` and the clock reading `now`;
- the damage rolls, with `rolls[t][k]` the roll of the k-th enemy in the
  live-list snapshot of tick `t`;
- the raw Markov names, the biome keys, the level and biome picks of the seeded
  generator;
- `str.title`;
- the URLs that `reverse` gives for `player`, `logout` and `home`.

## Model

| member | source | states |
|---|---|---|
| `WorldEvent.Ticks` | world/event.py:19 | the owed ticks are the whole seconds elapsed since `last_update`: `ticks <= now - last_update < ticks + 1` |
| `WorldEvent.Text` | world/event.py:64-74 | every line about an enemy starts with the enemy's name |
| `WorldEvent.ReadLine` | world/event.py:64-74 | a text read back as a log line is exactly that line's wording (`Text(line) == s`), so reading never invents a line |
| `EventProperties.TextReadsBack` | world/event.py:64-74 | every log line is read back from its own text: the three wordings cannot be confused |
| `WorldEvent.Tick` | world/event.py:60-70 | one pass over the live-list snapshot: each enemy ends in exactly one of survivors or dead (`|survivors| + |dead| == |live|`) |
| `WorldEvent.TickStep` | world/event.py:61-70 | one iteration of the inner loop places exactly one more enemy, either among the survivors or among the dead |
| `WorldEvent.TickPrefix` | world/event.py:60-70 | after `i` iterations of the inner loop exactly `i` enemies of the snapshot have been placed among the survivors or the dead |
| `WorldEvent.EventLock.Strike` | world/event.py:61-70 | one iteration on the live list (damage, log, and removal of the enemy when it dies) takes the live list, the killed enemies and the lines from the state after `i` iterations of `TickPrefix` to the state after `i + 1` |
| `WorldEvent.EventLock.DamageAll` | world/event.py:60-70 | the inner loop over the copy of the live list leaves the live list, the killed enemies and the lines exactly as `Tick` of the old live list describes |
| `WorldEvent.EventLock.CatchUp` | world/event.py:56-75 | the tick loop, with its early break, leaves the live list, the dead enemies and the new lines exactly as `Run` of the old live list gives |
| `WorldEvent.EventLock.Process` | world/event.py:31-92 | the whole poll on the locked event (DoesNotExist, both guards, the tick loop with its early break, the final update) leaves the row and result that `ProcessDungeon` gives for the old row |
| `WorldEvent.OthersAt` | world/event.py:13 | a player is returned iff it is attached to the event and is not the caller; never more players than given |
| `WorldEvent.ProcessTown` | world/event.py:11-15 | the town result has an empty log, no enemies, and exactly the event's players other than the caller |
| `EventProperties.TickSplitsHits` | world/event.py:60-70 | in a tick every live enemy has exactly its own roll subtracted; those still at or above 1 health stay in the live list in order, the rest join the dead list in order |
| `EventProperties.TickConserves` | world/event.py:60-70 | a tick loses and duplicates no enemy: survivors and dead together carry the snapshot's ids |
| `EventProperties.TickSeparatesDead` | world/event.py:63-70 | after a tick over active enemies every survivor is active with health at least 1 and every dead enemy is inactive with health below 1 |
| `EventProperties.TickWeakens` | world/event.py:62-63 | health never increases in a tick: each enemy afterwards is one of the snapshot (same id and name) with no more health |
| `EventProperties.TickLogLength` | world/event.py:64-67 | a tick writes one damage line per live enemy plus one "is dead" line per death, and no victory line |
| `EventProperties.TickDamageLines` | world/event.py:62-64 | the damage lines of a tick name the snapshot's enemies in order, each with the roll it took |
| `EventProperties.TickDeathLines` | world/event.py:66-70 | the "is dead" lines of a tick name the dead enemies in the order they joined the dead list |
| `EventProperties.TickDeathFollowsDamage` | world/event.py:64-67 | every "is dead" line comes right after the damage line of the same enemy |
| `WorldEvent.RunFrom` | world/event.py:59-75 | from any tick on, the loop moves enemies from the live list only to the dead list (`|live| + |dead|` is kept) and only appends to the dead list and the log |
| `WorldEvent.Run` | world/event.py:56-75 | the whole loop leaves each loaded enemy in exactly one of the live and dead lists (`|live| + |dead|` equals the loaded count) |
| `EventProperties.RunBounds` | world/event.py:59-75 | the loop runs at most `ticks` times, stops early only when the live list is empty, only appends to the log, and changes nothing when `ticks <= 0` |
| `EventProperties.RunConserves` | world/event.py:56-75 | throughout the loop the live list and the dead list partition the original roster's ids, none lost or duplicated |
| `EventProperties.RunSeparatesDead` | world/event.py:59-70 | after any number of ticks every live enemy is alive and every dead enemy is marked dead |
| `EventProperties.RunWeakens` | world/event.py:59-75 | over the whole loop health never increases |
| `EventProperties.RunVictory` | world/event.py:72-75 | with a tick owed, the loop appends at least one line; its last line is "All enemies defeated" iff no enemy is left live, and no earlier new line is |
| `WorldEvent.Deleted` | world/event.py:43 | a deleted event keeps no enemy, EventLog row or player: the delete cascades to Enemy and EventLog rows and sets the players' `event` to NULL (world/models.py:91, 159, 202) |
| `WorldEvent.ProcessDungeon` | world/event.py:18-94 | a poll returns a result iff the event exists, is not deleted by this poll and was not paused; the result carries the live enemies the row is left with and the loaded players; the event is deleted iff it was already, or has no live enemy with two ticks owed; an event that survives the poll is active |
| `WorldEvent.Poll` | world/event.py:19-34 | a poll that takes its owed ticks from the locked row leaves an event that still exists active with no whole tick owed at `now` |
| `EventProperties.Guards` | world/event.py:35-52 | a deleted event is untouched; with no live enemies and `ticks >= 2` the event is deleted even when paused (deletion is checked first), and its dead enemies, EventLog rows and players go with it; otherwise a paused event becomes active with `last_update = now`; each returns None |
| `EventProperties.ZeroTicks` | world/event.py:59-92 | with no tick owed an active event is unchanged (no log line, no EventLog row, same `last_update`, same health) and the poll reports no new line |
| `EventProperties.PositiveTicks` | world/event.py:59-92 | with ticks owed, `last_update` becomes `now` and exactly one EventLog row holding the returned lines is written; they end with the victory line iff no enemy is left |
| `EventProperties.KeepsWf` | world/event.py:28-92 | a poll keeps live enemies alive (active, health at least 1) and dead ones inactive below 1 health |
| `EventProperties.KeepsIds` | world/event.py:41-92 | a poll that does not delete the event touches each enemy of the roster once: live and dead enemies carry the same ids before and after; a deleting poll leaves no enemy of the event |
| `EventProperties.KeepsWeakening` | world/event.py:59-92 | no enemy gains health in a poll |
| `EventProperties.SecondPollSameInstant` | world/event.py:19-92 | when each poll owes the ticks its locked row says (`Poll`), a second poll at the same `now` after a first that did not delete the event changes nothing and reports no new line |
| `EventProperties.StaleCopyTicksTwice` | world/event.py:19-34 | with `ticks` taken from a copy read before the lock, two polls at the same instant both apply the owed tick: one enemy goes from health 10 to 8 and two EventLog rows are written |
| `WorldModels.SavedFields` | world/models.py:175-189 | the saved fields are the given ones plus at most `new_status` and `new_location`; `new_status` is added iff a status field is updated, `new_location` iff `location` is |
| `WorldModels.SavedFieldsIdempotent` | world/models.py:176-189 | adding the flags a second time adds nothing |
| `WorldModels.Player.constructor` | world/models.py:152-153 | a new player starts with both dirty flags false |
| `WorldModels.Player.Save` | world/models.py:167-191 | a new row is stamped `P` and its fields pass through; an existing row saved with `update_fields` raises exactly the flags its fields call for and writes `SavedFields`; with `update_fields` None or on a new row the flags are unchanged; flags are never cleared |
| `WorldModels.Enemy.constructor` | world/models.py:203-206 | a new enemy has no `dead` time and sits at `top = left = 50` |
| `WorldModels.Enemy.Save` | world/models.py:217-221 | a new enemy row is stamped `E`; an existing one keeps its type |
| `WorldModels.Enemy.RenderArgs` | world/models.py:208-215 | the SVG gets the enemy's `public_id`, `top` and `left`, and `dead="defeat-animate"` iff `dead` is set and non-zero, otherwise None |
| `WorldModels.Event.constructor` | world/models.py:70-72 | a new Event has size 100, is active and has `last_update` 0 |
| `WorldModels.Location.constructor` | world/models.py:56-60 | a new Location has level 1, `last_event` 0, `max_players` 1 and `spawn_rate` 5 |
| `Middleware.AnyPrefix` | core/middleware.py:19 | true iff the path starts with one of the prefixes |
| `Middleware.IsExempt` | core/middleware.py:15-20 | a path is exempt iff it equals the setup or logout URL or starts with `/admin/` or `/__debug__/` |
| `Middleware.HandleRedirect` | core/middleware.py:32-37 | always a redirect to the given URL: an `HX-Redirect` header iff the `HX-Request` header is truthy, an ordinary redirect otherwise |
| `Middleware.Call` | core/middleware.py:10-30 | only an authenticated user is redirected, only to the setup URL or to home, and as an `HX-Redirect` header iff the `HX-Request` header is truthy |
| `Middleware.AnonymousPassesThrough` | core/middleware.py:11-12 | unauthenticated requests always go on to the next handler |
| `Middleware.NoPlayerGoesToSetup` | core/middleware.py:22-25 | an authenticated user without a player is redirected iff the path is not exempt, and then to the setup URL |
| `Middleware.PlayerKeptFromSetup` | core/middleware.py:27-30 | an authenticated user with a player is redirected iff the path is exactly the setup URL, and then to home |
| `Middleware.NoSelfRedirect` | core/middleware.py:14-30 | when home and setup differ, no request is redirected to its own path; a user without a player is never redirected from the setup URL |
| `Middleware.HxOnlyChangesForm` | core/middleware.py:32-37 | whether a request is redirected, and where to, does not depend on the `HX-Request` header; the header only selects the form |
| `Generators.Split` | core/utils/generators.py:14 | `split()` yields only non-empty words without whitespace |
| `Generators.TrimShortLast` | core/utils/generators.py:16-17 | the last word is dropped iff there are at least two words and it has fewer than 4 characters; otherwise the words are unchanged; at most one word goes and a non-empty list stays non-empty |
| `Generators.SplitSkipsSpaces` | core/utils/generators.py:14 | leading whitespace of any length yields no word |
| `Generators.SplitOneSeparator` | core/utils/generators.py:14 | a run of whitespace of any length between two words separates them exactly once |
| `Generators.Join` | core/utils/generators.py:19 | the joined name starts with the first word and is as long as the words plus one separator between each neighbouring pair |
| `Generators.SplitJoin` | core/utils/generators.py:14-19 | splitting words joined with spaces gives the same words back |
| `Generators.TrimmedName` | core/utils/generators.py:14-19 | the words of a generated name, before `.title()`, are exactly the trimmed words of the raw name (the same steps at lines 37-42 and 55-60) |
| `Generators.GenerateTown` | core/utils/generators.py:7-22 | the town carries the requested level unchanged and the trimmed name |
| `Generators.GenerateDungeons` | core/utils/generators.py:25-44 | one dungeon per name, in name order; the i-th takes the level of pick `count-1-i`; every level lies in `[level, level+3]`; more names than picks raises (pop from an empty list) |
| `Generators.GenerateRegion` | core/utils/generators.py:47-70 | the biome is one of the corpus biome keys (no keys raises); the region has exactly one town at the requested level and the dungeons of `generate_dungeons` with `count=5`: the i-th is named from the i-th raw name and has level `level + picks[4 - i]` |

## Left out

- The backlog query (world/event.py:77-82) is not modelled. It filters and orders on a `timestamp` field, but EventLog (world/models.py:87-91) declares only `created_at`. It also does not filter by event. The modelled result carries only the lines this poll wrote.
- Row locking, prefetching, transactions and the persistence calls are not modelled: `select_for_update`, `Prefetch`, `save`, `bulk_update` and `EventLog.objects.create`. The event is an object the poll owns exclusively. Its fields hold the state after commit.
- `time.time()` is not modelled: the two readings at lines 50 and 86 are one input `now`. `ticks` is an input too. `Ticks` gives its formula. The source computes it before taking the lock, from the caller's copy of the row; see "## Findings".
- `random.choice`, `random.Random` and its seeding are not modelled; their results are inputs. The roll of an enemy that is not active is never used, just as the source never draws one.
- The model follows the code of `world/event.py`, not a richer combat design. The code has no enemy attacks on players, no movement on the ring, no sub-tick phase carry, no admission with cooldown or capacity and no watermark filtering, so the model has none of them.
- The tick engine follows the event code's `health` and `active` fields. The `dead` timestamp of the Enemy model is used only by `RenderArgs`.
- Log lines are a datatype. `Text` gives their wording; the EventLog `htclass` is not modelled.
- `player_logs` and `dead_players` (world/event.py:54-57) are never used by the source, so they are not modelled. The players of an event are an input list.
- `Entity.health_perc` (world/models.py:142-144) is not modelled. It uses float division, and it raises when health is 0.
- Persistence by Django's own `save` is not modelled. The save hooks return the `update_fields` they hand on.
- The SVG template text and `str.format` are not modelled. `RenderArgs` gives the arguments the template is filled with.
- core/utils/procgen_svg.py is not part of this model: it is floating-point geometry and SVG text.
- The Markov name generator and the corpus are not part of this model, and `.title()` is a parameter.
- Views, admin, forms, URL configurations and context processors are not part of this model.

## Findings

| source | as written | input that shows it | evidently intended | confidence | as-written member | corrected member |
|---|---|---|---|---|---|---|
| world/event.py:19-34 | `ticks` is computed from the caller's copy of the event (`event.last_update`) before `select_for_update` locks the row, so ticks that another poll applied while this one waited for the lock are applied again | one active enemy with health 10, `last_update` 0, two polls that both read the row at time 1.0 and rolls of 1: the first leaves health 9, the second health 8, and two EventLog rows are written | owe only the ticks the locked row says (`floor(now - event_lock.last_update)`), so that a second poll at the same instant changes nothing | medium, not executed | `EventProperties.StaleCopyTicksTwice` | `WorldEvent.Poll` (property proved in `EventProperties.SecondPollSameInstant`) |
