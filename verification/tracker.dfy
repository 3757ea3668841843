/**
 The countdown and price-history state of the PAWScoin tracker.

 The widget keeps a countdown and two parallel histories: the prices drawn
 so far and the moments they were drawn. A timer callback runs once per
 second; while the countdown is positive it only counts down, and once it
 reaches zero it draws a new price, appends the price and its timestamp,
 and restarts the countdown at 12.

 One call of the timer callback is one `Tick`. The random draw and the clock
 reading a tick may need arrive together as a `Draw`; timestamps are of an
 opaque type `T`, and the draw is the already-transformed skewed integer.
 */
module Tracker {
  import Price

  /** Value the countdown is (re)started with. */
  const Reset: nat := 12

  /** Ticks from one price update to the next: `Reset` countdown ticks plus
      the updating tick. */
  const Period: nat := Reset + 1

  /** The inputs one tick may consume: the skewed value the random source
      produced and the clock reading. */
  datatype Draw<T> = Draw(skewed: int, at: T)

  datatype State<T> = State(countdown: int, prices: seq<int>, times: seq<T>)

  /** The state the widget keeps between ticks: a bounded countdown, aligned
      histories, and every recorded price in range. */
  predicate Valid<T>(st: State<T>) {
    && 0 <= st.countdown <= Reset
    && |st.prices| == |st.times|
    && forall i :: 0 <= i < |st.prices| ==> Price.InPriceRange(st.prices[i])
  }

  /** `update_price`: one new clamped price and its timestamp are appended to
      the histories, which otherwise stay as they were, and the countdown
      restarts. */
  function UpdatePrice<T>(st: State<T>, d: Draw<T>): (r: State<T>)
    ensures r.countdown == Reset
    ensures r.prices == st.prices + [Price.Clamp(d.skewed)] && r.times == st.times + [d.at]
    ensures Price.InPriceRange(r.prices[|st.prices|])
    ensures |st.prices| == |st.times| ==> |r.prices| == |r.times|
    ensures Valid(st) ==> Valid(r)
  {
    State(Reset, st.prices + [Price.Clamp(d.skewed)], st.times + [d.at])
  }

  /** Construction: countdown 12, then one `update_price`, so the widget
      starts with one price on record. */
  function Init<T>(d: Draw<T>): (st: State<T>)
    ensures Valid(st)
    ensures st.countdown == Reset && st.prices == [Price.Clamp(d.skewed)] && st.times == [d.at]
  {
    UpdatePrice(State(Reset, [], []), d)
  }

  /** `update_timer`: a positive countdown goes down by one and nothing else
      changes; a countdown at or below zero triggers an update. */
  function Tick<T>(st: State<T>, d: Draw<T>): (r: State<T>)
    ensures st.countdown > 0 ==>
              r.countdown == st.countdown - 1 && r.prices == st.prices && r.times == st.times
    ensures st.countdown <= 0 ==>
              && r.countdown == Reset
              && r.prices == st.prices + [Price.Clamp(d.skewed)]
              && r.times == st.times + [d.at]
    ensures Valid(st) ==> Valid(r)
  {
    if st.countdown <= 0 then UpdatePrice(st, d)
    else st.(countdown := st.countdown - 1)
  }

  /** Consecutive ticks, one draw each: a valid state stays valid, and the
      histories only ever grow at the end. */
  function Run<T>(st: State<T>, draws: seq<Draw<T>>): (r: State<T>)
    ensures Valid(st) ==> Valid(r)
    ensures |st.prices| <= |r.prices| && r.prices[..|st.prices|] == st.prices
    ensures |st.times| <= |r.times| && r.times[..|st.times|] == st.times
    decreases |draws|
  {
    if |draws| == 0 then st
    else
      var next := Tick(st, draws[0]);
      var r := Run(next, draws[1..]);
      assert r.prices[..|st.prices|] == r.prices[..|next.prices|][..|st.prices|];
      assert r.times[..|st.times|] == r.times[..|next.times|][..|st.times|];
      r
  }

  /** Running `a` and then `b` is running `a + b`. */
  lemma {:induction false} RunAppend<T>(st: State<T>, a: seq<Draw<T>>, b: seq<Draw<T>>)
    ensures Run(st, a + b) == Run(Run(st, a), b)
    decreases |a|
  {
    if |a| > 0 {
      assert (a + b)[0] == a[0];
      assert (a + b)[1..] == a[1..] + b;
      RunAppend(Tick(st, a[0]), a[1..], b);
    } else {
      assert a + b == b;
    }
  }

  /** Independent description of the countdown after `n` ticks from `c`:
      it first runs down to zero, and from then on repeats 12, 11, ..., 0. */
  function CountdownAfter(c: nat, n: nat): nat
    requires c <= Reset
  {
    if n <= c then c - n else Reset - (n - c - 1) % Period
  }

  /** Independent description of how many updates `n` ticks from `c` make:
      none while running down, then one every `Period` ticks. */
  function UpdatesAfter(c: nat, n: nat): nat {
    if n <= c then 0 else 1 + (n - c - 1) / Period
  }

  /** A tick at zero restarts the countdown: from 0, `n` ticks behave like
      one update followed by `n - 1` ticks from 12. */
  lemma WrapAround(n: nat)
    requires n > 0
    ensures CountdownAfter(Reset, n - 1) == CountdownAfter(0, n)
    ensures 1 + UpdatesAfter(Reset, n - 1) == UpdatesAfter(0, n)
  {
    if n - 1 <= Reset {
      assert (n - 1) % Period == n - 1 && (n - 1) / Period == 0;
    } else {
      assert (n - 1) % Period == (n - 1 - Period) % Period;
      assert (n - 1) / Period == 1 + (n - 1 - Period) / Period;
    }
  }

  /** The closed form of a run from a valid state. */
  lemma {:induction false} RunClosedForm<T>(st: State<T>, draws: seq<Draw<T>>)
    requires Valid(st)
    ensures Run(st, draws).countdown == CountdownAfter(st.countdown, |draws|)
    ensures |Run(st, draws).prices| == |st.prices| + UpdatesAfter(st.countdown, |draws|)
    decreases |draws|
  {
    if |draws| > 0 {
      var c, n := st.countdown, |draws|;
      var next := Tick(st, draws[0]);
      RunClosedForm(next, draws[1..]);
      if c > 0 {
        assert next.countdown == c - 1;
        assert CountdownAfter(c - 1, n - 1) == CountdownAfter(c, n);
        assert UpdatesAfter(c - 1, n - 1) == UpdatesAfter(c, n);
      } else {
        assert next.countdown == Reset;
        WrapAround(n);
      }
    }
  }

  /** Every `Period` consecutive ticks from a valid state add exactly one
      history entry and bring the countdown back to where it was. */
  lemma OnePeriod<T>(st: State<T>, draws: seq<Draw<T>>)
    requires Valid(st) && |draws| == Period
    ensures Run(st, draws).countdown == st.countdown
    ensures |Run(st, draws).prices| == |st.prices| + 1
    ensures |Run(st, draws).times| == |st.times| + 1
  {
    RunClosedForm(st, draws);
  }

  /** Any window of 13 consecutive ticks inside a longer run, after any
      prefix of ticks, adds exactly one price and one timestamp. */
  lemma EveryWindowAddsOne<T>(st: State<T>, before: seq<Draw<T>>, window: seq<Draw<T>>)
    requires Valid(st) && |window| == Period
    ensures |Run(st, before + window).prices| == |Run(st, before).prices| + 1
    ensures |Run(st, before + window).times| == |Run(st, before).times| + 1
  {
    RunAppend(st, before, window);
    OnePeriod(Run(st, before), window);
  }

  /** The widget's whole life: construction, then one tick per draw. The
      countdown stays in [0, 12], the histories stay aligned, and the number
      of recorded prices is one plus one per completed countdown. */
  function Session<T>(first: Draw<T>, draws: seq<Draw<T>>): (st: State<T>)
    ensures Valid(st)
    ensures |st.prices| == 1 + UpdatesAfter(Reset, |draws|)
    ensures st.countdown == CountdownAfter(Reset, |draws|)
  {
    RunClosedForm(Init(first), draws);
    Run(Init(first), draws)
  }
}
