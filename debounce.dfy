/**
 * The debounced port switch shared by the UDP sender, the UDP receiver and
 * the MIDI receiver: a proposed value is only committed once it has been
 * proposed again at least `RebindDelay` seconds after it was first seen.
 */
module Debounce {
  import opened Wrappers

  /** Seconds a new value must stay requested before it is committed. */
  const RebindDelay: real := 3.0

  /** `committed` is the port in use, `pending` the proposal being timed, `changedAt` when it was first seen. */
  datatype State<T> = State(committed: T, pending: Option<T>, changedAt: real)

  /** The state a channel starts in: nothing pending, timestamp 0.0. */
  function Init<T>(committed: T): (s: State<T>)
    ensures s.committed == committed && s.pending == None && s.changedAt == 0.0
  {
    State(committed, None, 0.0)
  }

  /** A value is never pending for itself. */
  predicate Valid<T(==)>(s: State<T>)
  {
    s.pending != Some(s.committed)
  }

  /** One call of `update_port(v)` at time `now`. */
  function Propose<T(==)>(s: State<T>, v: T, now: real): (r: State<T>)
    // proposing the value in use drops any pending proposal
    ensures v == s.committed ==> r == State(s.committed, None, s.changedAt)
    // a new value only starts the timer
    ensures v != s.committed && s.pending != Some(v) ==>
              r == State(s.committed, Some(v), now)
    // repeating the pending value commits it once the delay has passed, and otherwise changes nothing
    ensures v != s.committed && s.pending == Some(v) ==>
              r == if now - s.changedAt >= RebindDelay then State(v, None, s.changedAt) else s
    ensures r.committed != s.committed ==>
              s.pending == Some(v) && now - s.changedAt >= RebindDelay && r.committed == v
    ensures Valid(s) ==> Valid(r)
  {
    if v == s.committed then s.(pending := None)
    else if s.pending != Some(v) then s.(pending := Some(v), changedAt := now)
    else if now - s.changedAt >= RebindDelay then State(v, None, s.changedAt)
    else s
  }

  /** The state after a sequence of `(value, time)` proposals, in order. */
  function Run<T(==)>(s: State<T>, proposals: seq<(T, real)>): State<T>
    decreases |proposals|
  {
    if proposals == [] then s
    else
      var last := proposals[|proposals| - 1];
      Propose(Run(s, proposals[..|proposals| - 1]), last.0, last.1)
  }

  lemma {:induction false} RunValid<T>(s: State<T>, proposals: seq<(T, real)>)
    requires Valid(s)
    ensures Valid(Run(s, proposals))
    decreases |proposals|
  {
    if proposals != [] {
      RunValid(s, proposals[..|proposals| - 1]);
    }
  }

  /** Each proposal differs from the one before it, from the committed value, and the first from the pending one. */
  predicate Oscillating<T(==)>(s: State<T>, proposals: seq<(T, real)>)
  {
    && (forall i :: 0 <= i < |proposals| ==> proposals[i].0 != s.committed)
    && (forall i :: 1 <= i < |proposals| ==> proposals[i].0 != proposals[i - 1].0)
    && (proposals != [] ==> s.pending != Some(proposals[0].0))
  }

  /**
   * An input that keeps changing never commits, however much time passes:
   * every change restarts the timer, so the last value is pending since its own time.
   */
  lemma {:induction false} OscillationNeverCommits<T>(s: State<T>, proposals: seq<(T, real)>)
    requires Oscillating(s, proposals)
    ensures Run(s, proposals).committed == s.committed
    ensures proposals != [] ==>
              Run(s, proposals).pending == Some(proposals[|proposals| - 1].0) &&
              Run(s, proposals).changedAt == proposals[|proposals| - 1].1
    decreases |proposals|
  {
    if proposals != [] {
      var front := proposals[..|proposals| - 1];
      assert Oscillating(s, front);
      OscillationNeverCommits(s, front);
      if front != [] {
        assert proposals[|proposals| - 1].0 != proposals[|proposals| - 2].0;
      }
    }
  }

  /** A,B,A: the return to A restarts A's timer, so A is not committed even after the delay. */
  lemma AlternationResetsTimer<T>(s: State<T>, a: T, b: T, t0: real, t1: real, t2: real)
    requires a != b && a != s.committed && b != s.committed && s.pending != Some(a)
    ensures Run(s, [(a, t0), (b, t1), (a, t2)]) == State(s.committed, Some(a), t2)
  {
    OscillationNeverCommits(s, [(a, t0), (b, t1), (a, t2)]);
  }

  /** The same value `v` proposed at each of `times`. */
  function Repeated<T>(v: T, times: seq<real>): (r: seq<(T, real)>)
    ensures |r| == |times|
    ensures forall k :: 0 <= k < |times| ==> r[k] == (v, times[k])
  {
    seq(|times|, k requires 0 <= k < |times| => (v, times[k]))
  }

  /**
   * A new value proposed at `times[0]` and then again at every later time is
   * committed exactly when some repetition comes at least `RebindDelay` after
   * the first proposal; until then the timer keeps `times[0]`.
   */
  lemma {:induction false} StableValueCommits<T>(s: State<T>, v: T, times: seq<real>)
    requires v != s.committed && s.pending != Some(v) && times != []
    ensures var r := Run(s, Repeated(v, times));
      && (r.committed == v <==> exists k :: 1 <= k < |times| && times[k] - times[0] >= RebindDelay)
      && (r.committed == v ==> r.pending == None)
      && (r.committed != v ==> r == State(s.committed, Some(v), times[0]))
    decreases |times|
  {
    var ps := Repeated(v, times);
    if |times| == 1 {
      assert ps[..0] == [];
    } else {
      var front := times[..|times| - 1];
      assert ps[..|ps| - 1] == Repeated(v, front);
      StableValueCommits(s, v, front);
      var prev := Run(s, Repeated(v, front));
      if prev.committed == v {
        var k :| 1 <= k < |front| && front[k] - front[0] >= RebindDelay;
        assert times[k] == front[k];
      } else if times[|times| - 1] - times[0] >= RebindDelay {
        assert 1 <= |times| - 1;
      } else {
        forall k | 1 <= k < |times|
          ensures times[k] - times[0] < RebindDelay
        {
          if k < |times| - 1 {
            assert times[k] == front[k];
          }
        }
      }
    }
  }
}
