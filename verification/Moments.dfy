/** The course of a run: what each batch leaves, and how the circuit stood at any time. */
module Moments {
  import opened Wrappers
  import opened Logic
  import opened Circuit
  import opened Kernel

  /** What a batch leaves, and when. */
  datatype Moment = Moment(time: nat, nets: seq<LogicValue>, states: seq<RuntimeState>)

  /** The moments of a run of the loop, in order; those at one time follow each other without delay. */
  function Batches(p: Program, stop: nat, s: State, bound: nat): seq<Moment>
    requires Ready(p, s)
    decreases Measure(s)
  {
    if |s.queue| == 0 || s.queue[0].time > bound then []
    else
      StepReady(p, stop, s);
      match Step(p, stop, s)
      case Ok(next) => [Moment(s.queue[0].time, next.nets, next.states)] + Batches(p, stop, next, bound)
      case Err(_) => []
  }

  /** The circuit as it stood at time `t`: the last moment by then, or the start. */
  function AsOf(h: seq<Moment>, start: Moment, t: int): Moment
    decreases |h|
  {
    if |h| == 0 then start
    else if h[|h| - 1].time <= t then h[|h| - 1]
    else AsOf(h[..|h| - 1], start, t)
  }

  /** Before anything has happened. */
  function Compiled(p: Program): Moment {
    Moment(0, Repeat(X, |p.drivers|),
           seq(|p.components|, c requires 0 <= c < |p.components| => InitialRuntimeState(p.components[c])))
  }

  /** One more moment does not matter before its time. */
  lemma AsOfBefore(h: seq<Moment>, m: Moment, start: Moment, t: int)
    ensures t < m.time ==> AsOf(h + [m], start, t) == AsOf(h, start, t)
    ensures t >= m.time ==> AsOf(h + [m], start, t) == m
  {
    assert (h + [m])[..|h|] == h;
  }
}
