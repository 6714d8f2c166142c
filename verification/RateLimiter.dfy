/** The sliding-window rate limiter, for one caller at a time. */
module RateLimiter {
  /** Every reading is later than the one before, and a sleep never returns early. */
  class Clock {
    var t: real

    method Read() returns (now: real)
      modifies this
      ensures now == t && now > old(t)
    {
      var step: real := *;
      t := t + if step > 0.0 then step else 1.0;
      now := t;
    }

    method Sleep(wait: real)
      requires wait > 0.0
      modifies this
      ensures t >= old(t) + wait
    {
      var late: real := *;
      t := t + wait + if late > 0.0 then late else 0.0;
    }
  }

  /** `rps` grants later, more than a second has passed. */
  ghost predicate Spaced(grants: seq<real>, rps: nat) {
    && (forall i, j :: 0 <= i < j < |grants| ==> grants[i] < grants[j])
    && (forall i, j :: 0 <= i && j == i + rps && j < |grants| ==> grants[j] > grants[i] + 1.0)
  }

  /** Grants i to j all fall into the second that starts at x, its ends included. */
  predicate InOneSecond(grants: seq<real>, x: real, i: int, j: int) {
    0 <= i <= j < |grants| && x <= grants[i] && grants[j] <= x + 1.0
  }

  ghost predicate NoSecondHoldsMore(grants: seq<real>, rps: nat) {
    forall x, i, j :: InOneSecond(grants, x, i, j) ==> j - i + 1 <= rps
  }

  /** Spacing is exactly the promise: no window of one second holds more than `rps` grants. */
  lemma SpacedMeans(grants: seq<real>, rps: nat)
    requires rps >= 1 && forall i, j :: 0 <= i < j < |grants| ==> grants[i] < grants[j]
    ensures Spaced(grants, rps) <==> NoSecondHoldsMore(grants, rps)
  {
    if Spaced(grants, rps) {
      forall x, i, j | InOneSecond(grants, x, i, j)
        ensures j - i + 1 <= rps
      {
        if i + rps < |grants| {
          assert grants[i + rps] > grants[i] + 1.0;
        }
      }
    }
    if NoSecondHoldsMore(grants, rps) {
      forall i, j | 0 <= i && j == i + rps && j < |grants|
        ensures grants[j] > grants[i] + 1.0
      {
        assert !InOneSecond(grants, grants[i], i, j);
      }
    }
  }

  /** The deque holds the last grants; the others are more than a second old, and so is its head when
      it holds one too many. */
  ghost predicate Good(grants: seq<real>, timestamps: seq<real>, rps: nat, t: real) {
    && rps >= 1 && Spaced(grants, rps)
    && |timestamps| <= |grants| && timestamps == grants[|grants| - |timestamps|..]
    && (forall i :: 0 <= i < |grants| ==> grants[i] <= t)
    && (forall i :: 0 <= i < |grants| - |timestamps| ==> grants[i] + 1.0 < t)
    && (|timestamps| > rps ==> |timestamps| == rps + 1 && timestamps[0] + 1.0 < t)
  }

  lemma Later(grants: seq<real>, timestamps: seq<real>, rps: nat, t: real, u: real)
    requires Good(grants, timestamps, rps, t) && t <= u
    ensures Good(grants, timestamps, rps, u)
  {
  }

  lemma Dropped(grants: seq<real>, timestamps: seq<real>, rps: nat, t: real)
    requires Good(grants, timestamps, rps, t) && timestamps != [] && t - timestamps[0] > 1.0
    ensures Good(grants, timestamps[1..], rps, t)
  {
    hide Spaced;
    var k := |grants| - |timestamps|;
    assert grants[k] == timestamps[0];
    assert timestamps[1..] == grants[k + 1..];
  }

  /** The grant `rps` places back is the head of a full deque, or has been dropped from it. */
  lemma Back(grants: seq<real>, timestamps: seq<real>, rps: nat, t: real)
    requires Good(grants, timestamps, rps, t) && |timestamps| <= rps && |grants| >= rps
    ensures if |timestamps| == rps then timestamps[0] == grants[|grants| - rps] else grants[|grants| - rps] + 1.0 < t
  {
    hide Spaced;
  }

  lemma Granted(grants: seq<real>, timestamps: seq<real>, rps: nat, t: real, g: real)
    requires Good(grants, timestamps, rps, t) && |timestamps| <= rps && t < g
    requires |timestamps| == rps ==> g > timestamps[0] + 1.0
    ensures Good(grants + [g], timestamps + [g], rps, g)
  {
    if |grants| >= rps {
      Back(grants, timestamps, rps, t);
    }
    SpacedGrows(grants, rps, g);
    hide Spaced;
    assert (grants + [g])[|grants| - |timestamps|..] == timestamps + [g];
  }

  lemma SpacedGrows(grants: seq<real>, rps: nat, g: real)
    requires rps >= 1 && Spaced(grants, rps) && forall i :: 0 <= i < |grants| ==> grants[i] < g
    requires |grants| >= rps ==> g > grants[|grants| - rps] + 1.0
    ensures Spaced(grants + [g], rps)
  {
  }

  class Limiter {
    const rps: nat
    const clock: Clock
    var timestamps: seq<real>
    /** Every grant ever given. */
    ghost var grants: seq<real>

    ghost predicate Valid()
      reads this, clock
    {
      Good(grants, timestamps, rps, clock.t)
    }

    constructor (rps: nat, clock: Clock)
      requires rps >= 1
      ensures Valid() && this.rps == rps && this.clock == clock && grants == []
    {
      this.rps, this.clock, timestamps, grants := rps, clock, [], [];
    }

    /** One grant. It waits exactly until the grant `rps` places back is one second old, and not at
        all when that is already so. */
    method Acquire() returns (ghost now: real, ghost wait: real)
      requires Valid()
      modifies this, clock
      ensures Valid() && exists g :: grants == old(grants) + [g] && g >= now + wait && now > old(clock.t)
      ensures var n := |old(grants)|;
        wait == if n >= rps && old(grants)[n - rps] + 1.0 > now then old(grants)[n - rps] + 1.0 - now else 0.0
    {
      hide Good;
      var reading := clock.Read();
      now, wait := reading, 0.0;
      Later(grants, timestamps, rps, old(clock.t), reading);
      while timestamps != [] && reading - timestamps[0] > 1.0
        invariant grants == old(grants) && clock.t == reading
        invariant Good(grants, timestamps, rps, reading)
        decreases |timestamps|
      {
        Dropped(grants, timestamps, rps, reading);
        timestamps := timestamps[1..];
      }
      NotTooMany(grants, timestamps, rps, reading);
      if |timestamps| >= rps {
        var pause := 1.0 - (reading - timestamps[0]);
        if pause > 0.0 {
          clock.Sleep(pause);
          wait := pause;
        }
      }
      if |grants| >= rps {
        Back(grants, timestamps, rps, reading);
      }
      var granted := clock.Read();
      Granted(grants, timestamps, rps, reading, granted);
      timestamps := timestamps + [granted];
      grants := grants + [granted];
    }
  }

  lemma NotTooMany(grants: seq<real>, timestamps: seq<real>, rps: nat, t: real)
    requires Good(grants, timestamps, rps, t) && (timestamps != [] ==> t - timestamps[0] <= 1.0)
    ensures |timestamps| <= rps && rps >= 1 && |timestamps| <= |grants|
  {
  }
}
