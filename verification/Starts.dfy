/** Where runs may start. */
module Starts {
  import opened Wrappers
  import opened LimitadorTypes
  import opened K8sObjects
  import opened Cluster
  import opened Histories
  import opened Annotations
  import opened ReadySoundness
  import opened ConditionHistory
  import opened Convergence
  import opened Idempotence
  import opened ClaimHistory
  import opened Completion

  /** A resource that was just created, and nothing else; the cache has or has not been shown it. */
  function Newborn(lim: Limitador, shown: bool, lagging: bool, agenda: seq<Turn>): World {
    World(map[], map[], [Some(Resource(lim, {}, {}))], if shown then 1 else 0, [], 0, 0, lagging, agenda, [])
  }

  /** It meets the invariants that the theorems over runs start from, and, given what those theorems ask of the agenda
      and of the reads, their other premises as well. */
  lemma NewbornMeetsThePremises(lim: Limitador, shown: bool, lagging: bool, agenda: seq<Turn>)
    requires lim.status == LimitadorStatus(0, [], None)
    ensures var w := Newborn(lim, shown, lagging, agenda);
      && Sound(w) && w.resource == [Some(Resource(lim, {}, {}))]
      && ReadySound(w, DeploymentKey(lim)) && AnnotationsSound(w, ConfigMapKey(lim))
      && TransitionsSound(w) && CompletionsSound(w)
      && ClaimSound(w, PVCKey(lim)) && ClaimLabelled(w, PVCKey(lim))
      && ((!lagging || shown) && !lim.deleting ==> Asked(w, lim))
      && (!lagging ==> SeesLastStatus(w))
      && (!lagging && agenda == [] ==> Quiet(w))
  {
    hide SeesLastStatus;
    if !lagging {
      FreshReadSees(Newborn(lim, shown, lagging, agenda));
    }
  }
}
