/**
  The database inventory as the object the engine updates in place.
 */
module Inventories {
  import opened EngineTypes
  import opened EngineSpec

  lemma NextInInterval(first: nat, index: nat, others: set<nat>)
    ensures others + Interval(first, index) + {first + index} == others + Interval(first, index + 1)
  {
  }

  class DatabaseInventory {
    var nextDatabaseId: nat
    var creating: set<nat>
    var ready: seq<Database>
    var retiring: map<nat, string>

    function View(): Inventory
      reads this
    {
      Inventory(nextDatabaseId, creating, ready, retiring)
    }

    constructor ()
      ensures View() == Inventory(0, {}, [], map[])
    {
      nextDatabaseId, creating, ready, retiring := 0, {}, [], map[];
    }

    /** Reserve the next ids, one by one. Nothing is reserved for an empty batch. */
    method ReserveCreations(amount: nat) returns (request: Option<CreateDatabases>)
      requires nextDatabaseId + amount <= U64_MAX
      modifies this
      ensures amount == 0 ==> request == None && View() == old(View())
      ensures amount > 0 ==>
                && request == Some(NextBatch(old(View()), amount))
                && View() == Reserved(old(View()), request.value, true)
    {
      if amount == 0 {
        return None;
      }
      var last := nextDatabaseId + amount;
      var batch := CreateDatabases(nextDatabaseId + 1, amount);
      Extend(batch);
      nextDatabaseId := last;
      request := Some(batch);
    }

    method Extend(batch: CreateDatabases)
      modifies this`creating
      ensures creating == old(creating) + batch.Ids()
    {
      for index := 0 to batch.amount
        invariant creating == old(creating) + Interval(batch.first, index)
      {
        NextInInterval(batch.first, index, old(creating));
        creating := creating + {batch.DatabaseId(index)};
      }
    }

    method CancelCreation(id: nat) returns (removed: bool)
      modifies this`creating
      ensures removed == (id in old(creating)) && creating == old(creating) - {id}
    {
      removed := id in creating;
      creating := creating - {id};
    }

    /** Settle a reservation; an unknown or repeated completion is ignored. */
    method CompleteCreation(id: nat, result: Option<string>) returns (outcome: Option<bool>)
      modifies this
      ensures outcome == if id in old(creating) then Some(result.Some?) else None
      ensures View() == if id !in old(creating) then old(View()) else
                          old(View()).(creating := old(creating) - {id},
                                       ready := if result.Some? then old(ready) + [Database(id, result.value)] else old(ready))
    {
      if id !in creating {
        return None;
      }
      creating := creating - {id};
      match result {
        case Some(name) => ready := ready + [Database(id, name)];
        case None =>
      }
      outcome := Some(result.Some?);
    }

    method TakeReady() returns (database: Option<Database>)
      modifies this
      ensures database == if old(ready) == [] then None else Some(old(ready)[0])
      ensures View() == if old(ready) == [] then old(View()) else old(View()).(ready := old(ready)[1..])
    {
      if ready == [] {
        return None;
      }
      database := Some(ready[0]);
      ready := ready[1..];
    }

    /** Undo a take: the database goes back in front of the unused supply. */
    method ReturnReady(database: Database)
      modifies this
      ensures View() == old(View()).(ready := [database] + old(ready))
    {
      ready := [database] + ready;
    }

    method Retire(database: Database) returns (cleanup: Database)
      modifies this
      ensures cleanup == database
      ensures View() == old(View()).(retiring := old(retiring)[database.id := database.name])
    {
      retiring := retiring[database.id := database.name];
      cleanup := database;
    }

    /** Forget a retired database only after a successful cleanup. */
    method CompleteCleanup(id: nat, ok: bool) returns (outcome: Option<bool>)
      modifies this
      ensures outcome == if id in old(retiring) then Some(ok) else None
      ensures View() == if id in old(retiring) && ok then old(View()).(retiring := old(retiring) - {id}) else old(View())
    {
      if id !in retiring {
        return None;
      }
      if ok {
        retiring := retiring - {id};
      }
      outcome := Some(ok);
    }

    method SupplyLen() returns (supply: nat)
      ensures supply == Supply(View())
    {
      supply := |ready| + |creating|;
    }
  }
}
