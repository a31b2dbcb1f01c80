/**
 The SEIR-D forecaster of SEIR.py: the five coupled rate equations
 (`deriv`), the derivation of rate constants and initial state from
 epidemiological parameters (start of `SEIR`), and the rounding of the five
 solution series into integer rows (`SEIR_array`). Float arithmetic is
 modelled as exact real arithmetic; the ODE solver is not modelled, its
 output enters the rounding step as an input.
 */
module Seir {
  import opened Rounding
  import opened Results

  /** Compartment sizes: Susceptible, Exposed, Infected, Recovered, Deceased. */
  datatype State = State(s: real, e: real, i: real, r: real, d: real)

  function Total(y: State): real
  {
    y.s + y.e + y.i + y.r + y.d
  }

  /**
   The rate equations (`deriv`). Transmission is normalised by S + I + R,
   leaving E and D out of the mixing pool. The time `t` is not used: the
   system is autonomous. Whatever moves between compartments is conserved,
   so the total changes only by the external inflow i * N; everything that
   leaves I goes to R or D; everything that leaves S enters E.
   */
  function Deriv(y: State, t: real, n: real, beta: real, gamma: real, alpha: real, mu: real, i: real): (dy: State)
    requires y.s + y.i + y.r != 0.0
    ensures Total(dy) == i * n
    ensures dy.r + dy.d == gamma * y.i
    ensures dy.s == -(dy.e + alpha * y.e)
  {
    State(
      -beta * y.s * y.i / (y.s + y.i + y.r),
      beta * y.s * y.i / (y.s + y.i + y.r) - alpha * y.e,
      i * n + alpha * y.e - gamma * y.i,
      gamma * y.i * (1.0 - mu),
      gamma * y.i * mu)
  }

  /**
   Deaths take the fraction mu of what leaves I: none when mu is 0, and with
   non-negative gamma and I and mu in [0, 1] neither R nor D can shrink.
   */
  lemma DeathsAndRecoveries(y: State, t: real, n: real, beta: real, gamma: real, alpha: real, mu: real, i: real)
    requires y.s + y.i + y.r != 0.0
    ensures Deriv(y, t, n, beta, gamma, alpha, mu, i).d == mu * (gamma * y.i)
    ensures mu == 0.0 ==> Deriv(y, t, n, beta, gamma, alpha, mu, i).d == 0.0
    ensures gamma >= 0.0 && y.i >= 0.0 && 0.0 <= mu <= 1.0 ==>
              Deriv(y, t, n, beta, gamma, alpha, mu, i).r >= 0.0 && Deriv(y, t, n, beta, gamma, alpha, mu, i).d >= 0.0
  {
    var g := gamma * y.i;
    if gamma >= 0.0 && y.i >= 0.0 && 0.0 <= mu <= 1.0 {
      NonNegativeProduct(gamma, y.i);
      NonNegativeProduct(g, 1.0 - mu);
      NonNegativeProduct(g, mu);
    }
  }

  lemma NonNegativeProduct(a: real, b: real)
    requires a >= 0.0 && b >= 0.0
    ensures a * b >= 0.0
  {
  }

  /**
   With non-negative beta, S and I and a positive mixing pool, S cannot grow;
   with all three positive it strictly falls.
   */
  lemma SusceptibleNonIncreasing(y: State, t: real, n: real, beta: real, gamma: real, alpha: real, mu: real, i: real)
    requires beta >= 0.0 && y.s >= 0.0 && y.i >= 0.0 && y.s + y.i + y.r > 0.0
    ensures Deriv(y, t, n, beta, gamma, alpha, mu, i).s <= 0.0
    ensures beta > 0.0 && y.s > 0.0 && y.i > 0.0 ==> Deriv(y, t, n, beta, gamma, alpha, mu, i).s < 0.0
  {
    var p := y.s + y.i + y.r;
    var x := beta * y.s * y.i;
    NonNegativeProduct(beta, y.s);
    NonNegativeProduct(beta * y.s, y.i);
    if beta > 0.0 && y.s > 0.0 && y.i > 0.0 {
      PositiveProduct(beta, y.s);
      PositiveProduct(beta * y.s, y.i);
      assert x / p > 0.0;
    }
    assert x / p >= 0.0;
    assert -beta * y.s * y.i / p == -(x / p);
  }

  lemma PositiveProduct(a: real, b: real)
    requires a > 0.0 && b > 0.0
    ensures a * b > 0.0
  {
  }

  /** Rate constants derived once per run. */
  datatype Rates = Rates(alpha: real, gamma: real, beta: real, mu: real)

  /** A run's rate constants and initial compartment sizes. */
  datatype Start = Start(rates: Rates, y0: State)

  /** `1/Tinc` and `1/Tinf` raise ZeroDivisionError on a zero period. */
  datatype SetupError = ZeroDivision

  /**
   Rate constants and initial state (SEIR.py:73-78): alpha and gamma are the
   reciprocals of the incubation and infectious periods, beta is R0 times
   alpha, mu is the case fatality rate; the exposed pool is seeded as beta
   times the infected count and the susceptible pool takes the rest, so the
   five compartments add up to N exactly (S is not clamped at zero).
   */
  function Initialise(n: real, i: real, r: real, d: real, r0: real, tinc: real, tinf: real, cfr: real): (res: Result<Start, SetupError>)
    ensures res.Ok? <==> tinc != 0.0 && tinf != 0.0
    ensures res.Ok? ==> res.value.rates.alpha * tinc == 1.0 && res.value.rates.gamma * tinf == 1.0
    ensures res.Ok? ==> res.value.rates.beta == r0 * res.value.rates.alpha && res.value.rates.mu == cfr
    ensures res.Ok? ==> res.value.y0.e == res.value.rates.beta * i
    ensures res.Ok? ==> res.value.y0.i == i && res.value.y0.r == r && res.value.y0.d == d
    ensures res.Ok? ==> Total(res.value.y0) == n
  {
    if tinc == 0.0 || tinf == 0.0 then Err(ZeroDivision)
    else
      var alpha := 1.0 / tinc;
      var gamma := 1.0 / tinf;
      var beta := r0 / tinc;
      var mu := cfr;
      var e := beta * i;
      var s := n - i - r - d - e;
      Ok(Start(Rates(alpha, gamma, beta, mu), State(s, e, i, r, d)))
  }

  /** The equations evaluated with a run's own constants and inflow. */
  function DerivOf(st: Start, y: State, n: real, inflow: real): (dy: State)
    requires y.s + y.i + y.r != 0.0
    ensures Total(dy) == inflow * n
  {
    Deriv(y, 0.0, n, st.rates.beta, st.rates.gamma, st.rates.alpha, st.rates.mu, inflow)
  }

  /**
   Without transmission (R0 = 0) and without inflow, nobody is seeded into E,
   so at the start I can only fall: it loses gamma * I and gains nothing.
   */
  lemma NoTransmissionInfectedFalls(n: real, i: real, r: real, d: real, tinc: real, tinf: real, cfr: real)
    requires tinc != 0.0 && tinf > 0.0 && i > 0.0
    requires Initialise(n, i, r, d, 0.0, tinc, tinf, cfr).value.y0.s + i + r != 0.0
    ensures Initialise(n, i, r, d, 0.0, tinc, tinf, cfr).value.y0.e == 0.0
    ensures DerivOf(Initialise(n, i, r, d, 0.0, tinc, tinf, cfr).value, Initialise(n, i, r, d, 0.0, tinc, tinf, cfr).value.y0, n, 0.0).i < 0.0
  {
    var st := Initialise(n, i, r, d, 0.0, tinc, tinf, cfr).value;
    assert st.rates.beta == 0.0;
    assert st.y0.e == 0.0;
    assert st.rates.gamma > 0.0;
    assert st.rates.gamma * i > 0.0;
  }

  /**
   The load-time demonstration run of SEIR.py (population 59 000 000, 709
   infected, R0 = 2.3, incubation 4 days, infectious period 14 days, fatality
   rate 0.02, no inflow): at the start S is falling, I is rising, D is not
   falling, and the total is constant.
   */
  lemma DemoRunInitialTrend(st: Start)
    requires Initialise(59000000.0, 709.0, 0.0, 0.0, 2.3, 4.0, 14.0, 0.02) == Ok(st)
    ensures st == Start(Rates(0.25, 1.0 / 14.0, 0.575, 0.02), State(58998883.325, 407.675, 709.0, 0.0, 0.0))
    ensures DerivOf(st, st.y0, 59000000.0, 0.0).s < 0.0
    ensures DerivOf(st, st.y0, 59000000.0, 0.0).i > 0.0
    ensures DerivOf(st, st.y0, 59000000.0, 0.0).d >= 0.0
    ensures Total(DerivOf(st, st.y0, 59000000.0, 0.0)) == 0.0
  {
    DemoRunStart();
    DemoRunSlopes(st);
  }

  /** The demonstration run's constants and initial state, worked out. */
  lemma DemoRunStart()
    ensures Initialise(59000000.0, 709.0, 0.0, 0.0, 2.3, 4.0, 14.0, 0.02)
         == Ok(Start(Rates(0.25, 1.0 / 14.0, 0.575, 0.02), State(58998883.325, 407.675, 709.0, 0.0, 0.0)))
  {
    assert 2.3 / 4.0 == 0.575;
    assert 0.575 * 709.0 == 407.675;
  }

  /** The rates at the demonstration run's initial state, with its constants. */
  lemma DemoRunSlopes(st: Start)
    requires st == Start(Rates(0.25, 1.0 / 14.0, 0.575, 0.02), State(58998883.325, 407.675, 709.0, 0.0, 0.0))
    ensures DerivOf(st, st.y0, 59000000.0, 0.0).s < 0.0
    ensures DerivOf(st, st.y0, 59000000.0, 0.0).i > 0.0
    ensures DerivOf(st, st.y0, 59000000.0, 0.0).d >= 0.0
    ensures Total(DerivOf(st, st.y0, 59000000.0, 0.0)) == 0.0
  {
    // dS < 0 because beta, S and I are all positive; dI = alpha * E0 - gamma * I0
    // = 101.91875 - 709/14 > 0.
    SusceptibleNonIncreasing(st.y0, 0.0, 59000000.0, 0.575, 1.0 / 14.0, 0.25, 0.02, 0.0);
  }

  /** The five solution series, one per compartment, as the solver returns them. */
  datatype Trajectory = Trajectory(s: seq<real>, e: seq<real>, i: seq<real>, r: seq<real>, d: seq<real>)

  function Series(traj: Trajectory): (rows: seq<seq<real>>)
    ensures |rows| == 5
  {
    [traj.s, traj.e, traj.i, traj.r, traj.d]
  }

  /** `row` is `xs` with every element rounded as Python's `round` does. */
  ghost predicate RoundedFrom(row: seq<int>, xs: seq<real>)
  {
    && |row| == |xs|
    && forall k :: 0 <= k < |xs| ==> row[k] == RoundHalfEven(xs[k]) && Abs(row[k] as real - xs[k]) <= 0.5
  }

  /** One of the loops of `SEIR_array`: append each rounded value in turn. */
  method RoundSeries(xs: seq<real>) returns (row: seq<int>)
    ensures RoundedFrom(row, xs)
  {
    row := [];
    for k := 0 to |xs|
      invariant |row| == k
      invariant forall j :: 0 <= j < k ==> row[j] == RoundHalfEven(xs[j])
    {
      row := row + [RoundHalfEven(xs[k])];
    }
  }

  /**
   `SEIR_array` (SEIR.py:94-107): five integer rows in the order S, E, I, R,
   D, each as long as its series and each entry the series value rounded,
   hence within 1/2 of it.
   */
  method SeirArray(traj: Trajectory) returns (seird: seq<seq<int>>)
    ensures |seird| == 5
    ensures forall c :: 0 <= c < 5 ==> RoundedFrom(seird[c], Series(traj)[c])
  {
    var sus := RoundSeries(traj.s);
    var exp := RoundSeries(traj.e);
    var inf := RoundSeries(traj.i);
    var rec := RoundSeries(traj.r);
    var dea := RoundSeries(traj.d);
    seird := [sus, exp, inf, rec, dea];
  }
}
