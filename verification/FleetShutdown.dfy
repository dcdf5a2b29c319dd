/** The fleet and its coordinated shutdown together: the coordinator is given the kill list. */
module FleetShutdown {
  import opened Config
  import FleetModel
  import FleetSafety
  import Shutdown
  import Signals

  /** The coordinator of this shutdown was started on the workers the fleet captured. */
  ghost predicate Hands(f: FleetModel.Fleet, b: Shutdown.Start) {
    Shutdown.Listed(b) && f.killList == set w | w in b.list
  }

  /**
   * Whatever the fleet does after shutdown began and whatever its workers do:
   * once the coordinator is done, which it is past its budget, every worker the
   * fleet still counts as alive is known dead or went through all three signals.
   */
  lemma NobodyAliveIsSpared(
    c: Config, now: int, events: seq<FleetModel.Event>, b: Shutdown.Start, rest: seq<Shutdown.Event>)
    requires ValidConfig(c)
    requires var f := FleetModel.Run(c, FleetModel.Started(c, now), events); f.core.shuttingDown && Hands(f, b)
    ensures var f := FleetModel.Run(c, FleetModel.Started(c, now), events);
            var s := Shutdown.Run(c, Shutdown.Begin(c, b), rest);
            && (s.now > b.now + Shutdown.Budget(c) ==> s.phase.Done?)
            && (s.phase.Done? ==>
                  forall w | w in FleetModel.Live(f) ::
                    w in s.dead || (w in s.sent && s.sent[w] == [Signals.SIGTERM, Signals.SIGINT, Signals.SIGKILL]))
  {
    hide FleetModel.Run, FleetModel.Started, Shutdown.Run, Shutdown.Begin;
    FleetSafety.NoOrphan(c, now, events);
    Shutdown.ShutdownIsBounded(c, b, rest);
    Shutdown.NobodyIsForgotten(c, b, rest);
  }
}
