/**
  Trailing-edge debouncing as the screens use it: ONE debounced validator per
  screen serves every field, so a call replaces whatever call is still
  waiting, whichever field it was for, and `flush` runs the waiting call.
  Timing is abstracted away: a burst is a run of calls with no expiry between.
 */
module Debounce {

  datatype Pending<A> = Idle | Waiting(call: A)

  /** A call while another waits cancels the waiting one. */
  function Call<A>(p: Pending<A>, a: A): (r: Pending<A>)
    ensures r.Waiting? && r.call == a
  {
    Waiting(a)
  }

  /** A burst of calls. */
  function CallAll<A>(p: Pending<A>, calls: seq<A>): Pending<A>
    decreases |calls|
  {
    if calls == [] then p else CallAll(Call(p, calls[0]), calls[1..])
  }

  /** After a burst only the last call is waiting: the earlier ones are dropped. */
  lemma {:induction false} OnlyLastCallSurvives<A>(p: Pending<A>, calls: seq<A>)
    requires calls != []
    ensures CallAll(p, calls) == Waiting(calls[|calls| - 1])
    decreases |calls|
  {
    if |calls| > 1 {
      OnlyLastCallSurvives(Call(p, calls[0]), calls[1..]);
    }
  }
}
