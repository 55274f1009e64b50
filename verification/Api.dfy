/** The API server as an object: three stores, the log of requests, and the failures of this pass. */
module Api {
  import opened Policy
  import opened Objects
  import opened Cluster

  /** What a read request returns; a missing object is an answer, not a failure. */
  datatype Reply<T> = Found(value: T) | NotFound | Unavailable

  class ApiServer {
    var policies: map<string, Stored>
    var daemonSets: map<Key, DaemonSet>
    var classes: map<string, RuntimeClass>
    var log: seq<Request>
    var schedule: Schedule

    ghost function View(): World
      reads this
    {
      World(policies, daemonSets, classes, log)
    }

    constructor (w: World, s: Schedule)
      ensures View() == w && schedule == s
    {
      policies, daemonSets, classes, log, schedule := w.policies, w.daemonSets, w.classes, w.log, s;
    }

    method GetPolicy(site: Site, name: string) returns (r: Reply<Stored>)
      ensures r == if !schedule(site).fault.Working? then Unavailable
                   else if name in policies then Found(policies[name]) else NotFound
    {
      if !schedule(site).fault.Working? { return Unavailable; }
      r := if name in policies then Found(policies[name]) else NotFound;
    }

    method PutPolicyStatus(site: Site, name: string, status: Status)
      requires name in policies
      modifies this`policies, this`log
      ensures log == old(log) + [PutStatus(name, status)]
      ensures policies == if schedule(site).fault.Refused? then old(policies)
                          else old(policies)[name := old(policies)[name].(status := status)]
    {
      log := log + [PutStatus(name, status)];
      if !schedule(site).fault.Refused? {
        policies := policies[name := policies[name].(status := status)];
      }
    }

    method GetDaemonSet(site: Site, key: Key) returns (r: Reply<DaemonSet>, unavailable: nat)
      ensures r == if !schedule(site).fault.Working? then Unavailable
                   else if key in daemonSets then Found(daemonSets[key]) else NotFound
      ensures unavailable == schedule(site).unavailable
    {
      unavailable := schedule(site).unavailable;
      if !schedule(site).fault.Working? { return Unavailable, unavailable; }
      r := if key in daemonSets then Found(daemonSets[key]) else NotFound;
    }

    method CreateDaemonSet(site: Site, key: Key, obj: DaemonSet) returns (ack: Ack)
      modifies this`daemonSets, this`log
      ensures var e := Create(Slot(old(daemonSets), key), obj, schedule(site).fault);
              ack == e.ack && daemonSets == Put(old(daemonSets), key, e.slot)
      ensures log == old(log) + [Request.CreateDaemonSet(key, obj)]
    {
      var e := Create(Slot(daemonSets, key), obj, schedule(site).fault);
      daemonSets, log, ack := Put(daemonSets, key, e.slot), log + [Request.CreateDaemonSet(key, obj)], e.ack;
    }

    method UpdateDaemonSet(site: Site, key: Key, obj: DaemonSet) returns (ack: Ack)
      modifies this`daemonSets, this`log
      ensures var e := Update(Slot(old(daemonSets), key), obj, schedule(site).fault);
              ack == e.ack && daemonSets == Put(old(daemonSets), key, e.slot)
      ensures log == old(log) + [Request.UpdateDaemonSet(key, obj)]
    {
      var e := Update(Slot(daemonSets, key), obj, schedule(site).fault);
      daemonSets, log, ack := Put(daemonSets, key, e.slot), log + [Request.UpdateDaemonSet(key, obj)], e.ack;
    }

    method DeleteDaemonSet(site: Site, key: Key) returns (ack: Ack)
      modifies this`daemonSets, this`log
      ensures var e := Delete(Slot(old(daemonSets), key), schedule(site).fault);
              ack == e.ack && daemonSets == Put(old(daemonSets), key, e.slot)
      ensures log == old(log) + [Request.DeleteDaemonSet(key)]
    {
      var e := Delete(Slot(daemonSets, key), schedule(site).fault);
      daemonSets, log, ack := Put(daemonSets, key, e.slot), log + [Request.DeleteDaemonSet(key)], e.ack;
    }

    method GetClass(site: Site, name: string) returns (r: Reply<RuntimeClass>)
      ensures r == if !schedule(site).fault.Working? then Unavailable
                   else if name in classes then Found(classes[name]) else NotFound
    {
      if !schedule(site).fault.Working? { return Unavailable; }
      r := if name in classes then Found(classes[name]) else NotFound;
    }

    method CreateClass(site: Site, obj: RuntimeClass) returns (ack: Ack)
      modifies this`classes, this`log
      ensures var e := Create(Slot(old(classes), obj.name), obj, schedule(site).fault);
              ack == e.ack && classes == Put(old(classes), obj.name, e.slot)
      ensures log == old(log) + [Request.CreateClass(obj)]
    {
      var e := Create(Slot(classes, obj.name), obj, schedule(site).fault);
      classes, log, ack := Put(classes, obj.name, e.slot), log + [Request.CreateClass(obj)], e.ack;
    }

    method UpdateClass(site: Site, obj: RuntimeClass) returns (ack: Ack)
      modifies this`classes, this`log
      ensures var e := Update(Slot(old(classes), obj.name), obj, schedule(site).fault);
              ack == e.ack && classes == Put(old(classes), obj.name, e.slot)
      ensures log == old(log) + [Request.UpdateClass(obj)]
    {
      var e := Update(Slot(classes, obj.name), obj, schedule(site).fault);
      classes, log, ack := Put(classes, obj.name, e.slot), log + [Request.UpdateClass(obj)], e.ack;
    }

    method DeleteClass(site: Site, name: string) returns (ack: Ack)
      modifies this`classes, this`log
      ensures var e := Delete(Slot(old(classes), name), schedule(site).fault);
              ack == e.ack && classes == Put(old(classes), name, e.slot)
      ensures log == old(log) + [Request.DeleteClass(name)]
    {
      var e := Delete(Slot(classes, name), schedule(site).fault);
      classes, log, ack := Put(classes, name, e.slot), log + [Request.DeleteClass(name)], e.ack;
    }
  }
}
