/**
 * calcRungeKutta of Swarm.java: a Runge-Kutta-shaped formula whose slope is
 * held at the input value at every stage, so that over the reals it is the
 * input scaled by a fixed factor of the time step.
 */
module Integrator {

  /** The factor the scheme applies: dt * (1 + dt/2 + dt^2/6 + dt^3/24). */
  function Gain(dt: real): (r: real) {
    dt * (1.0 + dt / 2.0 + dt * dt / 6.0 + dt * dt * dt / 24.0)
  }

  /** calcRungeKutta(x) with time step dt, stage by stage as Swarm.java writes it. */
  function RungeKutta(dt: real, x: real): (r: real)
    ensures r == x * Gain(dt)
  {
    var k1 := x;
    var k2 := x + k1 * dt * 0.5;
    var k3 := x + k2 * dt * 0.5;
    var k4 := x + k3 * dt;
    assert k2 == x * (1.0 + dt / 2.0);
    assert k3 == x * (1.0 + dt / 2.0 + dt * dt / 4.0);
    assert k4 == x * (1.0 + dt + dt * dt / 2.0 + dt * dt * dt / 4.0);
    assert k1 + 2.0 * k2 + 2.0 * k3 + k4 == x * (6.0 + 3.0 * dt + dt * dt + dt * dt * dt / 4.0);
    (k1 + 2.0 * k2 + 2.0 * k3 + k4) * (dt / 6.0)
  }

  /** The increment is linear in the summed force. */
  lemma RungeKuttaLinear(dt: real, a: real, x: real, b: real, y: real)
    ensures RungeKutta(dt, a * x + b * y) == a * RungeKutta(dt, x) + b * RungeKutta(dt, y)
  {
    var g := Gain(dt);
    assert (a * x + b * y) * g == a * (x * g) + b * (y * g);
  }

  /** No force, no move. */
  lemma RungeKuttaZero(dt: real)
    ensures RungeKutta(dt, 0.0) == 0.0
  {
  }

  /** For a positive time step the increment has the sign of the force. */
  lemma RungeKuttaSign(dt: real, x: real)
    requires 0.0 < dt
    ensures 0.0 < x <==> 0.0 < RungeKutta(dt, x)
    ensures x < 0.0 <==> RungeKutta(dt, x) < 0.0
  {
    var g := Gain(dt);
    assert 0.0 < dt * dt && 0.0 < dt * dt * dt;
    assert 0.0 < g;
    if 0.0 < x {
      assert 0.0 < x * g;
    } else if x < 0.0 {
      assert x * g < 0.0;
    } else {
      assert x * g == 0.0;
    }
  }
}
