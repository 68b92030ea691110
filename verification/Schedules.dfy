/** The schedule vocabulary shared by the checkpoint scheduler, the finite
    enumerator and the exploration campaign. */
module Schedules {

  datatype Option<+T> = None | Some(value: T)

  /** The reserved checkpoint that ends every actor chain. */
  const COMPLETION: string := "$done"

  /** What an actor's checkpoint reads before its first arrival. */
  const START: string := "$start"

  datatype Step = Step(actor: string, checkpoint: string)

  datatype ActorChain = ActorChain(actor: string, operation: string, checkpoints: seq<string>)

  predicate DistinctActors(chains: seq<ActorChain>) {
    forall i, j :: 0 <= i < j < |chains| ==> chains[i].actor != chains[j].actor
  }

  /** The number of steps of all chains together. */
  function TotalSteps(chains: seq<ActorChain>): nat {
    if chains == [] then 0 else |chains[0].checkpoints| + TotalSteps(chains[1..])
  }

  /** The checkpoints of one actor, in the order the steps visit them. */
  function Projection(steps: seq<Step>, actor: string): seq<string> {
    if steps == [] then []
    else if steps[0].actor == actor then [steps[0].checkpoint] + Projection(steps[1..], actor)
    else Projection(steps[1..], actor)
  }

  predicate Declared(chains: seq<ActorChain>, actor: string) {
    exists i :: 0 <= i < |chains| && chains[i].actor == actor
  }

  /** The first `bound` bytes of a text. */
  function Clip(text: string, bound: nat): string {
    if |text| <= bound then text else text[..bound]
  }
}
