/**
 * The realtime players hook: a roster that each `players` snapshot replaces
 * wholesale, and a presence lifecycle that, while the current player id is
 * set, keeps one remove-on-disconnect rule armed on that player's record and
 * a page-unload handler that deletes that record.
 */
module RealtimePlayers {
  import opened Options
  import opened Store

  /**
   * A value snapshot of `players`: `None` when the node is null, otherwise
   * its children as (key, record) pairs in the order `Object.values` lists them.
   */
  type Snapshot = Option<seq<(string, Player)>>

  /** The records of a list of children, in order. */
  function Values(entries: seq<(string, Player)>): (r: seq<Player>)
    ensures |r| == |entries|
    ensures forall i :: 0 <= i < |entries| ==> r[i] == entries[i].1
  {
    if entries == [] then [] else [entries[0].1] + Values(entries[1..])
  }

  /** The roster a snapshot sets: no players for a null snapshot, else its records, in order. */
  function Roster(snapshot: Snapshot): (r: seq<Player>)
    ensures snapshot.None? ==> r == []
    ensures snapshot.Some? ==> |r| == |snapshot.value|
    ensures snapshot.Some? ==> forall i :: 0 <= i < |r| ==> r[i] == snapshot.value[i].1
  {
    match snapshot
    case None => []
    case Some(entries) => Values(entries)
  }

  /**
   * The roster after the listener has seen `snapshots`, oldest first,
   * starting from `roster`: once a snapshot has arrived it is always the
   * roster of one of them, never a merge.
   */
  function RosterAfter(roster: seq<Player>, snapshots: seq<Snapshot>): (r: seq<Player>)
    ensures snapshots == [] ==> r == roster
    ensures snapshots != [] ==> exists i | 0 <= i < |snapshots| :: r == Roster(snapshots[i])
    decreases |snapshots|
  {
    if snapshots == [] then roster else RosterAfter(Roster(snapshots[0]), snapshots[1..])
  }

  /** Convergence: after any non-empty sequence of snapshots the roster is the last snapshot's. */
  lemma {:induction false} RosterConvergesToLast(roster: seq<Player>, snapshots: seq<Snapshot>)
    requires snapshots != []
    ensures RosterAfter(roster, snapshots) == Roster(snapshots[|snapshots| - 1])
    decreases |snapshots|
  {
    if |snapshots| > 1 {
      RosterConvergesToLast(Roster(snapshots[0]), snapshots[1..]);
    }
  }

  /** No merge: two clients that saw different histories agree once they have seen the same snapshot. */
  lemma RosterForgetsHistory(a: seq<Player>, b: seq<Player>, s: seq<Snapshot>, t: seq<Snapshot>)
    requires s != [] && t != [] && s[|s| - 1] == t[|t| - 1]
    ensures RosterAfter(a, s) == RosterAfter(b, t)
  {
    RosterConvergesToLast(a, s);
    RosterConvergesToLast(b, t);
  }

  /** The rules an armed effect accounts for: one naming `rule`'s id, or none. */
  function RulesFor(rule: Option<string>): (m: multiset<string>)
    ensures |m| <= 1
    ensures forall k :: k in m <==> rule == Some(k)
  {
    match rule
    case Some(id) => multiset{id}
    case None => multiset{}
  }

  /** The requests the presence effect sends for a player id: arm the rule when the id is present. */
  function EffectRequests(id: Option<string>): (r: seq<Request>)
    ensures |r| <= 1
    ensures r != [] <==> IsPresent(id)
    ensures r != [] ==> r[0] == ArmRule(id.value)
  {
    if IsPresent(id) then [ArmRule(id.value)] else []
  }

  /** The requests the presence cleanup sends: cancel the rule it armed, if any. */
  function CleanupRequests(rule: Option<string>): (r: seq<Request>)
    ensures |r| <= 1
    ensures r != [] <==> rule.Some?
    ensures r != [] ==> r[0] == CancelRule(rule.value)
  {
    match rule
    case Some(id) => [CancelRule(id)]
    case None => []
  }

  /** One mounted instance of the hook, with the store it talks to. */
  class Hook {
    const store: PlayerStore
    /** The `currentPlayerId` argument of the latest render. */
    var currentPlayerId: Option<string>
    /** The `players` state the hook returns. */
    var players: seq<Player>
    /** Whether the component is mounted (its effects have run and not been cleaned up). */
    var mounted: bool
    /**
     * How many `players` listeners this hook has attached and not detached.
     * The cleanup passes `off` the unsubscribe function `onValue` returned,
     * not the callback it registered, so `off` matches no registration and
     * every listener attached by a mount stays attached.
     */
    var listeners: nat
    /** The id the presence effect armed its disconnect rule for, until its cleanup runs. */
    var disconnectRule: Option<string>
    /** The id whose record the installed `beforeunload` handler deletes, if one is installed. */
    var unloadHandler: Option<string>

    /**
     * The presence state is coherent: the rule and the handler come and go
     * together and name the current player id, and the connection has no
     * pending rule but the one the effect armed (it may have fired already).
     */
    ghost predicate PresenceCoherent()
      reads this, store
    {
      && unloadHandler == disconnectRule
      && (disconnectRule.Some? ==> IsPresent(currentPlayerId) && disconnectRule.value == currentPlayerId.value)
      && store.rules <= RulesFor(disconnectRule)
    }

    /**
     * The hook's invariant: while mounted a listener is attached, and the rule and the handler are there exactly while mounted with a
     * present player id.
     */
    ghost predicate Valid()
      reads this, store
    {
      && PresenceCoherent()
      && (mounted ==> listeners > 0)
      && (disconnectRule.Some? <==> mounted && IsPresent(currentPlayerId))
    }

    /** At most one disconnect rule is outstanding, and only for the current player. */
    lemma AtMostOneRule()
      requires Valid()
      ensures |store.rules| <= 1
      ensures forall k :: k in store.rules ==> IsPresent(currentPlayerId) && k == currentPlayerId.value
    {
      match disconnectRule
      case None =>
        assert store.rules == multiset{};
      case Some(id) =>
        if store.rules[id] == 0 {
          assert store.rules == multiset{};
        } else {
          assert store.rules == multiset{id};
        }
    }

    /** The first render: the roster starts empty, nothing is attached or armed yet. */
    constructor (store: PlayerStore, currentPlayerId: Option<string>)
      requires store.rules == multiset{}
      ensures Valid()
      ensures this.store == store && this.currentPlayerId == currentPlayerId
      ensures players == [] && !mounted && listeners == 0 && disconnectRule == None
    {
      this.store := store;
      this.currentPlayerId := currentPlayerId;
      players := [];
      mounted := false;
      listeners := 0;
      disconnectRule := None;
      unloadHandler := None;
    }

    /** The presence effect: arm the rule and install the handler, for a present id only. */
    method PresenceEffect()
      requires PresenceCoherent() && disconnectRule == None
      modifies this`disconnectRule, this`unloadHandler, store`rules, store`log
      ensures PresenceCoherent()
      ensures disconnectRule == unloadHandler == (if IsPresent(currentPlayerId) then Some(currentPlayerId.value) else None)
      ensures store.rules == RulesFor(disconnectRule)
      ensures store.log == old(store.log) + EffectRequests(currentPlayerId)
    {
      if IsPresent(currentPlayerId) {
        var id := currentPlayerId.value;
        store.ArmRemoval(id);
        unloadHandler := Some(id);
        disconnectRule := Some(id);
      }
    }

    /** The presence cleanup: remove the handler and cancel the rule, if the effect set them. */
    method PresenceCleanup()
      requires PresenceCoherent()
      modifies this`disconnectRule, this`unloadHandler, store`rules, store`log
      ensures PresenceCoherent()
      ensures disconnectRule == None && unloadHandler == None
      ensures store.rules == multiset{}
      ensures store.log == old(store.log) + CleanupRequests(old(disconnectRule))
    {
      if disconnectRule.Some? {
        store.CancelRemoval(disconnectRule.value);
        unloadHandler := None;
        disconnectRule := None;
      }
    }

    /** Mounting: attach one more `players` listener, then run the presence effect. */
    method Mount()
      requires Valid() && !mounted
      modifies this, store
      ensures Valid() && mounted && listeners == old(listeners) + 1
      ensures players == old(players) && currentPlayerId == old(currentPlayerId)
      ensures store.rows == old(store.rows)
      ensures disconnectRule == unloadHandler == (if IsPresent(currentPlayerId) then Some(currentPlayerId.value) else None)
      ensures store.rules == RulesFor(disconnectRule)
      ensures store.log == old(store.log) + [Subscribe] + EffectRequests(currentPlayerId)
    {
      store.Watch();
      listeners := listeners + 1;
      mounted := true;
      PresenceEffect();
    }

    /**
     * The `players` listener: a delivered snapshot replaces the roster, with
     * no merge. A listener left attached after unmounting still runs, but its
     * `setPlayers` on an unmounted component changes nothing.
     */
    method OnValue(snapshot: Snapshot)
      requires Valid()
      modifies this`players
      ensures Valid()
      ensures players == if mounted then Roster(snapshot) else old(players)
    {
      if mounted {
        players := Roster(snapshot);
      }
    }

    /** A render with another `currentPlayerId`: the old cleanup runs before the effect re-runs. */
    method ChangePlayerId(newId: Option<string>)
      requires Valid() && mounted
      modifies this, store
      ensures Valid() && mounted && listeners == old(listeners) && currentPlayerId == newId && players == old(players)
      ensures store.rows == old(store.rows)
      ensures newId == old(currentPlayerId) ==>
        disconnectRule == old(disconnectRule) && store.rules == old(store.rules) && store.log == old(store.log)
      ensures newId != old(currentPlayerId) ==>
        && disconnectRule == unloadHandler == (if IsPresent(newId) then Some(newId.value) else None)
        && store.rules == RulesFor(disconnectRule)
        && store.log == old(store.log) + CleanupRequests(old(disconnectRule)) + EffectRequests(newId)
    {
      if newId != currentPlayerId {
        PresenceCleanup();
        currentPlayerId := newId;
        PresenceEffect();
      }
    }

    /** The page unloads: the handler, if installed, deletes this player's record and no other. */
    method BeforeUnload(lands: bool)
      requires Valid()
      modifies store`rows, store`log
      ensures Valid()
      ensures unloadHandler.None? ==> store.rows == old(store.rows) && store.log == old(store.log)
      ensures unloadHandler.Some? ==>
        && store.rows == (if lands then Without(old(store.rows), unloadHandler.value) else old(store.rows))
        && store.log == old(store.log) + [Delete(unloadHandler.value)]
    {
      if unloadHandler.Some? {
        store.Remove(unloadHandler.value, lands);
      }
    }

    /**
     * Unmounting: call `off` for the listener (which detaches nothing, see
     * `listeners`), remove the handler and cancel the rule. The record
     * itself is not deleted.
     */
    method Unmount()
      requires Valid() && mounted
      modifies this, store
      ensures Valid() && !mounted && listeners == old(listeners)
      ensures disconnectRule == None && unloadHandler == None && store.rules == multiset{}
      ensures players == old(players) && currentPlayerId == old(currentPlayerId)
      ensures store.rows == old(store.rows)
      ensures store.log == old(store.log) + [Unsubscribe] + CleanupRequests(old(disconnectRule))
    {
      store.Unwatch();
      mounted := false;
      PresenceCleanup();
    }

    /**
     * React's strict mode, in development builds, mounts, unmounts and
     * mounts again: afterwards one
     * more listener is attached than before, while the presence effect still
     * leaves exactly one rule armed for a present id.
     */
    method StrictModeRemount()
      requires Valid() && mounted
      modifies this, store
      ensures Valid() && mounted && listeners == old(listeners) + 1
      ensures currentPlayerId == old(currentPlayerId) && players == old(players)
      ensures store.rows == old(store.rows)
      ensures store.rules == RulesFor(disconnectRule)
      ensures disconnectRule == (if IsPresent(currentPlayerId) then Some(currentPlayerId.value) else None)
      ensures store.log == old(store.log) + [Unsubscribe] + CleanupRequests(old(disconnectRule))
                           + [Subscribe] + EffectRequests(currentPlayerId)
    {
      Unmount();
      Mount();
    }
  }

  /**
   * Mounting with a present player id and then losing the connection: the
   * rule the presence effect armed removes that player's record, every
   * other record stays as it was, and no rule is left pending.
   */
  method DisconnectRemovesOwnRecord(h: Hook)
    requires h.Valid() && !h.mounted && IsPresent(h.currentPlayerId)
    modifies h, h.store
    ensures h.currentPlayerId == old(h.currentPlayerId)
    ensures h.currentPlayerId.value !in h.store.rows
    ensures forall k :: k in old(h.store.rows) && k != h.currentPlayerId.value ==>
      k in h.store.rows && h.store.rows[k] == old(h.store.rows)[k]
    ensures h.store.rules == multiset{}
  {
    h.Mount();
    h.store.ConnectionLost();
  }
}
