/**
 * The in-memory snap-instance registry, `ClassSnapInstance` and
 * `ClassSnapsInstances`. Both controller files carry the same two classes,
 * except for `deleteInstance`: the live file fails on a missing key
 * (`DeleteInstance`), the alternate file ignores it (`DeleteInstanceIfPresent`).
 */
module Registry {
  import opened Wrappers
  import opened Wss
  import opened Exceptions

  /** The durable instance a registry entry carries as `model`, as the service's finders return it. */
  datatype SnapInstance = SnapInstance(id: nat, userId: nat, instanceKey: string, snapShapeId: nat, timerStarted: bool)

  const InstanceNotFound: Failure := PlainError("Snap instance not found.")

  /** What `ConnectionClosed` returns for a torn-down instance: its key, its clients before the delete, the message for them. */
  datatype ClosedInstance = ClosedInstance(key: string, clients: map<nat, Connection>, message: Envelope)

  /** One live instance: its key, its model and the connected clients by user id. */
  class ClassSnapInstance {
    const key: string
    const model: SnapInstance
    var clients: map<nat, Connection>

    constructor (key: string, model: SnapInstance)
      ensures this.key == key && this.model == model && clients == map[]
    {
      this.key := key;
      this.model := model;
      clients := map[];
    }

    /** `addClient`: fails on a user already present, otherwise adds exactly that entry. */
    method AddClient(userId: nat, client: Connection) returns (r: Outcome)
      modifies this
      ensures userId in old(clients) ==> r == Fail(PlainError("Client already exists.")) && clients == old(clients)
      ensures userId !in old(clients) ==> r == Pass && clients == old(clients)[userId := client]
    {
      if userId in clients {
        return Fail(PlainError("Client already exists."));
      }
      clients := clients[userId := client];
      r := Pass;
    }

    /** `findClient`. */
    function FindClient(userId: nat): (r: Option<Connection>)
      reads this
      ensures r.Some? <==> userId in clients
      ensures r.Some? ==> r.value == clients[userId]
    {
      if userId in clients then Some(clients[userId]) else None
    }

    /** `deleteClient`: fails on an absent user, otherwise removes exactly that entry. */
    method DeleteClient(userId: nat) returns (r: Outcome)
      modifies this
      ensures userId !in old(clients) ==> r == Fail(PlainError("Client not found.")) && clients == old(clients)
      ensures userId in old(clients) ==> r == Pass && clients == old(clients) - {userId}
    {
      if userId !in clients {
        return Fail(PlainError("Client not found."));
      }
      clients := clients - {userId};
      r := Pass;
    }
  }

  /** All live instances by key. */
  class ClassSnapsInstances {
    var instances: map<string, ClassSnapInstance>

    /** Each entry is filed under its own key, so no two keys share an instance object. */
    ghost predicate Valid()
      reads this
    {
      forall k :: k in instances ==> instances[k].key == k
    }

    /** The clients of every instance, by key. */
    ghost function Clients(): map<string, map<nat, Connection>>
      reads this, instances.Values
    {
      map k | k in instances :: instances[k].clients
    }

    /** Every registered client connection is in `reach`. */
    ghost predicate Covers(reach: set<Connection>)
      reads this, instances.Values
    {
      forall k :: k in instances ==> instances[k].clients.Values <= reach
    }

    constructor ()
      ensures Valid() && instances == map[]
    {
      instances := map[];
    }

    /** `findAllInstances`: every registered instance, each under its own key. */
    function FindAllInstances(): (r: set<ClassSnapInstance>)
      requires Valid()
      reads this, instances.Values
      ensures forall k :: k in instances ==> instances[k] in r
      ensures forall i :: i in r ==> i.key in instances && instances[i.key] == i
    {
      instances.Values
    }

    /** `findInstanceByKey`. */
    function FindInstanceByKey(key: string): (r: Option<ClassSnapInstance>)
      reads this
      ensures r.Some? <==> key in instances
      ensures r.Some? ==> r.value == instances[key]
    {
      if key in instances then Some(instances[key]) else None
    }

    /** `createInstance`: fails on a key already present; otherwise a new entry with the model and no clients. */
    method CreateInstance(key: string, model: SnapInstance) returns (r: Result<ClassSnapInstance>)
      requires Valid()
      modifies this
      ensures Valid()
      ensures key in old(instances) ==>
                r == Err(PlainError("Snap instance already exists.")) && instances == old(instances)
      ensures key !in old(instances) ==>
                && r.Ok? && fresh(r.value)
                && r.value.key == key && r.value.model == model && r.value.clients == map[]
                && instances == old(instances)[key := r.value]
                && Clients() == old(Clients())[key := map[]]
    {
      if key in instances {
        return Err(PlainError("Snap instance already exists."));
      }
      var newInstance := new ClassSnapInstance(key, model);
      instances := instances[key := newInstance];
      r := Ok(newInstance);
    }

    /** `deleteInstance` of the live controller file: fails on a missing key, otherwise removes only that key. */
    method DeleteInstance(key: string) returns (r: Outcome)
      requires Valid()
      modifies this
      ensures Valid()
      ensures key !in old(instances) ==> r == Fail(InstanceNotFound) && instances == old(instances)
      ensures key in old(instances) ==>
                r == Pass && instances == old(instances) - {key} && Clients() == old(Clients()) - {key}
    {
      if key !in instances {
        return Fail(InstanceNotFound);
      }
      instances := instances - {key};
      r := Pass;
    }

    /** `deleteInstance` of the alternate controller file: a missing key is a no-op. */
    method DeleteInstanceIfPresent(key: string)
      requires Valid()
      modifies this
      ensures Valid()
      ensures instances == old(instances) - {key}
      ensures Clients() == old(Clients()) - {key}
    {
      if key in instances {
        instances := instances - {key};
      }
    }

    /**
     * `addClientToInstance`: fails on a missing key. The inner `addClient`
     * is not awaited, so its failure on a duplicate user does not reach the
     * caller: it is returned apart, as `detached`.
     */
    method AddClientToInstance(key: string, userId: nat, client: Connection) returns (r: Outcome, detached: Outcome)
      requires Valid()
      modifies instances.Values
      ensures Valid() && instances == old(instances)
      ensures key !in instances ==> r == Fail(InstanceNotFound) && detached == Pass && Clients() == old(Clients())
      ensures key in instances ==> r == Pass
      ensures key in instances && userId in old(Clients())[key] ==>
                detached == Fail(PlainError("Client already exists.")) && Clients() == old(Clients())
      ensures key in instances && userId !in old(Clients())[key] ==>
                var before: map<nat, Connection> := old(Clients())[key];
                detached == Pass && Clients() == old(Clients())[key := before[userId := client]]
    {
      if key !in instances {
        return Fail(InstanceNotFound), Pass;
      }
      var instance := instances[key];
      detached := instance.AddClient(userId, client);
      r := Pass;
    }

    /** `removeClientFromInstance`: as `AddClientToInstance`, with the unawaited `deleteClient`. */
    method RemoveClientFromInstance(key: string, userId: nat) returns (r: Outcome, detached: Outcome)
      requires Valid()
      modifies instances.Values
      ensures Valid() && instances == old(instances)
      ensures key !in instances ==> r == Fail(InstanceNotFound) && detached == Pass && Clients() == old(Clients())
      ensures key in instances ==> r == Pass
      ensures key in instances && userId !in old(Clients())[key] ==>
                detached == Fail(PlainError("Client not found.")) && Clients() == old(Clients())
      ensures key in instances && userId in old(Clients())[key] ==>
                var before: map<nat, Connection> := old(Clients())[key];
                detached == Pass && Clients() == old(Clients())[key := before - {userId}]
    {
      if key !in instances {
        return Fail(InstanceNotFound), Pass;
      }
      var instance := instances[key];
      detached := instance.DeleteClient(userId);
      r := Pass;
    }

    /** `findClientInInstance`: fails on a missing key. */
    function FindClientInInstance(key: string, userId: nat): (r: Result<Option<Connection>>)
      reads this, instances.Values
      ensures key !in instances ==> r == Err(InstanceNotFound)
      ensures key in instances ==> r == Ok(instances[key].FindClient(userId))
      ensures r == Ok(None) <==> key in Clients() && userId !in Clients()[key]
    {
      if key !in instances then Err(InstanceNotFound) else Ok(instances[key].FindClient(userId))
    }

    /** `findClientsInInstance`: fails on a missing key, otherwise that instance's clients. */
    function FindClientsInInstance(key: string): (r: Result<map<nat, Connection>>)
      reads this, instances.Values
      ensures key !in instances ==> r == Err(InstanceNotFound)
      ensures key in instances ==> r == Ok(Clients()[key])
    {
      if key !in instances then Err(InstanceNotFound) else Ok(instances[key].clients)
    }
  }
}
