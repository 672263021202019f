/** From the registry to the poll: a monitor finds the object it was imported from. */
module ImportedOwner {
  import opened Options
  import opened Api
  import opened MonitorPoll
  import Registry

  /** Over every run of adds and deletes: when the poll of a monitor sees the annotations the registry gave it, its
      owner is looked up by the kind of the object it was imported from, and under its name. */
  lemma OwnerOfImport(events: seq<Registry.Event>, key: Registry.Key, poll: Poll) returns (o: Registry.Object)
    requires key in Registry.AfterEvents(map[], events)
    requires poll.annotations == Registry.AfterEvents(map[], events)[key].annotations
    ensures Registry.Added(o) in events
    ensures "camel.apache.org/imported-from-kind" !in o.annotations ==>
              OwnerOf(poll)
              == if o.kind == Registry.Deployment then
                   (if poll.deployments.Found? then Some(DeploymentOwner(poll.deployments.value)) else None)
                 else (if poll.cronJobs.Found? then Some(CronJobOwner(poll.cronJobs.value)) else None)
    ensures "camel.apache.org/imported-from-name" !in o.annotations ==>
              Lookup(poll.annotations, "camel.apache.org/imported-from-name") == o.name
  {
    hide Registry.CarriesImport, Registry.AfterEvents;
    o := Registry.EveryMonitorCarries(events, key);
    assert IMPORTED_KIND == "camel.apache.org/imported-from-kind";
    if "camel.apache.org/imported-from-kind" !in o.annotations {
      Registry.KindIsCarried(poll.annotations, o);
    }
    if "camel.apache.org/imported-from-name" !in o.annotations {
      Registry.NameIsCarried(poll.annotations, o);
    }
  }
}
