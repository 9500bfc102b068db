/**
 * The parts of `world/models.py` that carry logic: the save hooks of Player
 * and Enemy (type stamping and the dirty flags a save raises), the arguments
 * an enemy's picture is rendered with, and the field defaults of Event and
 * Location.
 */
module WorldModels {
  import opened Wrappers

  /** Fields whose update means the status pane must be redrawn (`Entity.STATUS_FIELDS`). */
  const StatusFields: set<string> := {"max_health", "health", "level"}

  /** Fields whose update means the player moved (`Entity.LOCATION_FIELDS`). */
  const LocationFields: set<string> := {"location"}

  /** The dirty flags a save may add to the fields it writes. */
  const FlagFields: set<string> := {"new_status", "new_location"}

  /** A row is new while it has no primary key: `not self.id` (None or 0). */
  predicate IsNewId(id: Option<int>)
  {
    id.None? || id.value == 0
  }

  /**
   * The field set an existing Player writes when saved with `update_fields`:
   * the given fields, plus `new_location` when a location field is among
   * them, plus `new_status` when a status field is among them.
   */
  function SavedFields(fields: set<string>): (r: set<string>)
    ensures fields <= r
    ensures r - fields <= FlagFields
    ensures "new_status" in r <==> "new_status" in fields || !(fields !! StatusFields)
    ensures "new_location" in r <==> "new_location" in fields || "location" in fields
  {
    var statusUpdate := !(fields !! StatusFields);
    var locationUpdate := !(fields !! LocationFields);
    var withLocation := if locationUpdate then fields + {"new_location"} else fields;
    if statusUpdate then withLocation + {"new_status"} else withLocation
  }

  /** Saving twice with the flags already added writes the same fields: adding the flags is idempotent. */
  lemma SavedFieldsIdempotent(fields: set<string>)
    ensures SavedFields(SavedFields(fields)) == SavedFields(fields)
  {
    var r := SavedFields(fields);
    assert r !! StatusFields <==> fields !! StatusFields;
    assert r !! LocationFields <==> fields !! LocationFields;
  }

  /** A player character: the fields its save hook reads and writes. */
  class Player {
    var id: Option<int>
    var kind: string
    var newStatus: bool
    var newLocation: bool

    constructor (id: Option<int>, kind: string)
      ensures this.id == id && this.kind == kind
      ensures !newStatus && !newLocation
    {
      this.id, this.kind := id, kind;
      newStatus, newLocation := false, false;
    }

    predicate IsNew()
      reads this
    {
      IsNewId(id)
    }

    /**
     * `Player.save`: a new row is stamped type "P"; an existing row saved
     * with `update_fields` raises the flags its fields call for and writes
     * them too. Returns the `update_fields` handed on to the model's save.
     * The flags are only ever raised here, never cleared.
     */
    method Save(updateFields: Option<set<string>>) returns (written: Option<set<string>>)
      modifies this`kind, this`newStatus, this`newLocation
      ensures id == old(id)
      ensures old(IsNew()) ==> kind == "P" && written == updateFields
      ensures old(IsNew()) || updateFields.None? ==>
                newStatus == old(newStatus) && newLocation == old(newLocation)
      ensures !old(IsNew()) ==> kind == old(kind)
      ensures !old(IsNew()) && updateFields.None? ==> written == None
      ensures !old(IsNew()) && updateFields.Some? ==>
                && written == Some(SavedFields(updateFields.value))
                && newStatus == (old(newStatus) || !(updateFields.value !! StatusFields))
                && newLocation == (old(newLocation) || "location" in updateFields.value)
    {
      written := updateFields;
      if IsNew() {
        kind := "P";
      } else {
        if updateFields.Some? {
          var updateSet := updateFields.value;
          var statusUpdate := !(updateSet !! StatusFields);
          var locationUpdate := !(updateSet !! LocationFields);
          if locationUpdate {
            newLocation := true;
            updateSet := updateSet + {"new_location"};
          }
          if statusUpdate {
            newStatus := true;
            updateSet := updateSet + {"new_status"};
          }
          written := Some(updateSet);
        }
      }
    }
  }

  /** What an enemy's SVG template is filled with: `public_id`, `top`, `left` and the dead class. */
  datatype SvgArgs = SvgArgs(publicId: string, top: int, left: int, dead: Option<string>)

  /** An enemy row: the fields its save hook and its rendering read. */
  class Enemy {
    var id: Option<int>
    var kind: string
    var publicId: string
    var dead: Option<real>
    var top: int
    var left: int

    /** A new enemy row, with the model's display defaults `top` = `left` = 50. */
    constructor (publicId: string)
      ensures id.None? && kind == "" && this.publicId == publicId
      ensures dead.None? && top == 50 && left == 50
    {
      id, kind, this.publicId := None, "", publicId;
      dead, top, left := None, 50, 50;
    }

    predicate IsNew()
      reads this
    {
      IsNewId(id)
    }

    /** `Enemy.save`: a new row is stamped type "E"; nothing else changes. */
    method Save()
      modifies this`kind
      ensures old(IsNew()) ==> kind == "E"
      ensures !old(IsNew()) ==> kind == old(kind)
    {
      if IsNew() {
        kind := "E";
      }
    }

    /**
     * `render_svg`: the enemy's id and place, and the class "defeat-animate"
     * exactly when its `dead` timestamp is truthy (set and non-zero).
     */
    function RenderArgs(): (a: SvgArgs)
      reads this
      ensures a.publicId == publicId && a.top == top && a.left == left
      ensures a.dead.Some? <==> dead.Some? && dead.value != 0.0
      ensures a.dead.Some? ==> a.dead.value == "defeat-animate"
    {
      var deadClass := if dead.Some? && dead.value != 0.0 then Some("defeat-animate") else None;
      SvgArgs(publicId, top, left, deadClass)
    }
  }

  /** The fields of an Event row that have defaults. */
  class Event {
    var size: int
    var active: bool
    var lastUpdate: real

    /** A new Event: ring size 100, active, never updated. */
    constructor ()
      ensures size == 100 && active && lastUpdate == 0.0
    {
      size, active, lastUpdate := 100, true, 0.0;
    }
  }

  /** The fields of a Location row that have defaults. */
  class Location {
    var level: int
    var lastEvent: Option<real>
    var maxPlayers: int
    var spawnRate: Option<int>

    /** A new Location: level 1, last event at time 0, room for one player, spawn rate 5. */
    constructor ()
      ensures level == 1 && lastEvent == Some(0.0) && maxPlayers == 1 && spawnRate == Some(5)
    {
      level, lastEvent, maxPlayers, spawnRate := 1, Some(0.0), 1, Some(5);
    }
  }
}
