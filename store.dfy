/**
 * The remote store the hooks and forms talk to, seen from one client: the
 * `players` collection keyed by player id, the remove-on-disconnect rules
 * this client's connection has armed, and the requests this client has sent,
 * in order. The store is an opaque collaborator; only the effect of each
 * request on the collection is modelled.
 */
module Store {
  import opened Options

  /** A player record; `x` and `y` are integers, `name` is optional. */
  datatype Player = Player(id: string, x: int, y: int, color: string, name: Option<string>)

  /** The `{ x, y }` pair read from and written to a record. */
  datatype Position = Position(x: int, y: int)

  /** A request this client sends to the store. */
  datatype Request =
    | Select(id: string)                        // select x, y of the record with this id
    | PositionUpdate(id: string, pos: Position) // update x, y of the record with this id
    | NameUpdate(id: string, name: string)      // update name of the record with this id
    | Delete(id: string)                        // delete the record with this id
    | ArmRule(id: string)                       // arm remove-on-disconnect for this id
    | CancelRule(id: string)                    // cancel the rules armed for this id
    | Subscribe                                 // attach the collection listener
    | Unsubscribe                               // detach the collection listener

  /**
   * Each record sits under its own id: the map key stands for the `id`
   * column that the store's filters (`.eq('id', ...)`) and paths
   * (`players/<id>`) select on.
   */
  predicate KeyedById(rows: map<string, Player>) {
    forall k :: k in rows ==> rows[k].id == k
  }

  /**
   * An id is usable when it is truthy in JavaScript: of a `string | null`,
   * exactly `null` and `""` are falsy.
   */
  predicate IsPresent(id: Option<string>): (b: bool)
    ensures b <==> id != None && id != Some("")
  {
    id.Some? && id.value != ""
  }

  /**
   * The result of selecting the position of `id`: no data when the query
   * fails or no record has that id.
   */
  function ReadPosition(rows: map<string, Player>, id: string, fails: bool): (data: Option<Position>)
    ensures data.Some? <==> !fails && id in rows
    ensures data.Some? ==> data.value.x == rows[id].x && data.value.y == rows[id].y
  {
    if !fails && id in rows then Some(Position(rows[id].x, rows[id].y)) else None
  }

  /**
   * An update of `x` and `y` filtered on `id`: it touches no record but the
   * one with that id, and of that one only the position; when no record has
   * that id nothing changes.
   */
  function WithPosition(rows: map<string, Player>, id: string, p: Position): (r: map<string, Player>)
    ensures r.Keys == rows.Keys
    ensures forall k :: k in rows && k != id ==> r[k] == rows[k]
    ensures id in rows ==> r[id].x == p.x && r[id].y == p.y
    ensures id in rows ==> r[id].id == rows[id].id && r[id].color == rows[id].color && r[id].name == rows[id].name
  {
    if id in rows then rows[id := rows[id].(x := p.x, y := p.y)] else rows
  }

  /**
   * An update of `name` filtered on `id`: it touches no record but the one
   * with that id, and of that one only the name.
   */
  function WithName(rows: map<string, Player>, id: string, name: string): (r: map<string, Player>)
    ensures r.Keys == rows.Keys
    ensures forall k :: k in rows && k != id ==> r[k] == rows[k]
    ensures id in rows ==> r[id].name == Some(name)
    ensures id in rows ==> r[id].id == rows[id].id && r[id].x == rows[id].x && r[id].y == rows[id].y && r[id].color == rows[id].color
  {
    if id in rows then rows[id := rows[id].(name := Some(name))] else rows
  }

  /** Deleting `id`: that key is gone, every other record is kept as it was. */
  function Without(rows: map<string, Player>, id: string): (r: map<string, Player>)
    ensures r.Keys == rows.Keys - {id}
    ensures forall k :: k in r ==> r[k] == rows[k]
  {
    rows - {id}
  }

  /** Deleting a record twice leaves the collection as deleting it once. */
  lemma RemoveIdempotent(rows: map<string, Player>, id: string)
    ensures Without(Without(rows, id), id) == Without(rows, id)
  {
  }

  /**
   * What the store does when this client's connection drops: every record
   * an armed rule names is deleted, and nothing else.
   */
  function AfterDisconnect(rows: map<string, Player>, rules: multiset<string>): (r: map<string, Player>)
    ensures forall k :: k in r <==> k in rows && k !in rules
    ensures forall k :: k in r ==> r[k] == rows[k]
  {
    map k | k in rows && k !in rules :: rows[k]
  }

  /** No update, delete or disconnect moves a record away from its own id. */
  lemma UpdatesKeepKeyedById(rows: map<string, Player>, id: string, p: Position, name: string, rules: multiset<string>)
    requires KeyedById(rows)
    ensures KeyedById(WithPosition(rows, id, p))
    ensures KeyedById(WithName(rows, id, name))
    ensures KeyedById(Without(rows, id))
    ensures KeyedById(AfterDisconnect(rows, rules))
  {
  }

  /** The remote store as this client sees it. */
  class PlayerStore {
    /** The `players` collection, keyed by id. */
    var rows: map<string, Player>
    /** The remove-on-disconnect rules pending on this client's connection. */
    var rules: multiset<string>
    /** Every request this client has sent, oldest first. */
    var log: seq<Request>

    constructor (rows: map<string, Player>)
      ensures this.rows == rows && rules == multiset{} && log == []
    {
      this.rows := rows;
      rules := multiset{};
      log := [];
    }

    /** `select('x, y').eq('id', id).single()`; `fails` is a query that returns an error. */
    method SelectPosition(id: string, fails: bool) returns (data: Option<Position>)
      modifies this`log
      ensures data == ReadPosition(rows, id, fails)
      ensures log == old(log) + [Select(id)]
    {
      data := ReadPosition(rows, id, fails);
      log := log + [Select(id)];
    }

    /** `update({ x, y }).eq('id', id)`; a request that does not land changes nothing. */
    method UpdatePosition(id: string, p: Position, lands: bool)
      modifies this`rows, this`log
      ensures rows == if lands then WithPosition(old(rows), id, p) else old(rows)
      ensures KeyedById(old(rows)) ==> KeyedById(rows)
      ensures log == old(log) + [PositionUpdate(id, p)]
    {
      if lands {
        if KeyedById(rows) {
          UpdatesKeepKeyedById(rows, id, p, "", multiset{});
        }
        rows := WithPosition(rows, id, p);
      }
      log := log + [PositionUpdate(id, p)];
    }

    /** `update({ name }).eq('id', id)` is sent; the rows change only once it resolves. */
    method SendNameUpdate(id: string, name: string)
      modifies this`log
      ensures log == old(log) + [NameUpdate(id, name)]
    {
      log := log + [NameUpdate(id, name)];
    }

    /** A sent name update resolves; one that does not land changes nothing. */
    method ResolveNameUpdate(id: string, name: string, lands: bool)
      modifies this`rows
      ensures rows == if lands then WithName(old(rows), id, name) else old(rows)
      ensures KeyedById(old(rows)) ==> KeyedById(rows)
    {
      if lands {
        if KeyedById(rows) {
          UpdatesKeepKeyedById(rows, id, Position(0, 0), name, multiset{});
        }
        rows := WithName(rows, id, name);
      }
    }

    /** `remove(ref(database, 'players/' + id))`; deleting an absent key is no error. */
    method Remove(id: string, lands: bool)
      modifies this`rows, this`log
      ensures rows == if lands then Without(old(rows), id) else old(rows)
      ensures KeyedById(old(rows)) ==> KeyedById(rows)
      ensures log == old(log) + [Delete(id)]
    {
      if lands {
        if KeyedById(rows) {
          UpdatesKeepKeyedById(rows, id, Position(0, 0), "", multiset{});
        }
        rows := Without(rows, id);
      }
      log := log + [Delete(id)];
    }

    /** `onDisconnect(ref).remove()`: one more rule naming `id`. */
    method ArmRemoval(id: string)
      modifies this`rules, this`log
      ensures rules == old(rules) + multiset{id}
      ensures log == old(log) + [ArmRule(id)]
    {
      rules := rules + multiset{id};
      log := log + [ArmRule(id)];
    }

    /** `onDisconnect(ref).cancel()`: every rule naming `id` is dropped, the others stay. */
    method CancelRemoval(id: string)
      modifies this`rules, this`log
      ensures rules == old(rules)[id := 0]
      ensures log == old(log) + [CancelRule(id)]
    {
      rules := rules[id := 0];
      log := log + [CancelRule(id)];
    }

    /** `onValue(ref(database, 'players'), ...)`. */
    method Watch()
      modifies this`log
      ensures log == old(log) + [Subscribe]
    {
      log := log + [Subscribe];
    }

    /**
     * `off(ref(database, 'players'), 'value', listener)`: the request is sent;
     * it detaches only a listener registered with that very callback.
     */
    method Unwatch()
      modifies this`log
      ensures log == old(log) + [Unsubscribe]
    {
      log := log + [Unsubscribe];
    }

    /** The connection drops: the store runs the pending rules and forgets them. */
    method ConnectionLost()
      modifies this`rows, this`rules
      ensures rows == AfterDisconnect(old(rows), old(rules))
      ensures KeyedById(old(rows)) ==> KeyedById(rows)
      ensures rules == multiset{}
    {
      if KeyedById(rows) {
        UpdatesKeepKeyedById(rows, "", Position(0, 0), "", rules);
      }
      rows := AfterDisconnect(rows, rules);
      rules := multiset{};
    }
  }
}
