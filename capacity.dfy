/**
 * Capacity carry-forward: a point that reports capacity 0 (or none) reuses
 * the most recent non-zero capacity; before any non-zero capacity the carried
 * value is whatever the register held, 0 for a new handler.
 */
module CapacityCarry {

  /**
   * The capacities appended for the raw capacities `caps`, read in order,
   * when the carry register holds `prev` before the first of them.
   */
  function CarryForward(prev: real, caps: seq<real>): (r: seq<real>)
    ensures |r| == |caps|
    decreases |caps|
  {
    if caps == [] then []
    else
      var v := if caps[0] == 0.0 then prev else caps[0];
      [v] + CarryForward(v, caps[1..])
  }

  /** The last non-zero value of `caps`, or `prev` when there is none. */
  function LastNonZero(prev: real, caps: seq<real>): real
    decreases |caps|
  {
    if caps == [] then prev
    else if caps[|caps| - 1] != 0.0 then caps[|caps| - 1]
    else LastNonZero(prev, caps[..|caps| - 1])
  }

  /** Reading one more capacity first is the same as starting from the register it leaves. */
  lemma {:induction false} LastNonZeroCons(prev: real, c: real, caps: seq<real>)
    ensures LastNonZero(prev, [c] + caps) == LastNonZero(if c == 0.0 then prev else c, caps)
    decreases |caps|
  {
    if caps != [] {
      var all := [c] + caps;
      assert all[..|all| - 1] == [c] + caps[..|caps| - 1];
      LastNonZeroCons(prev, c, caps[..|caps| - 1]);
    } else {
      assert ([c] + caps)[..0] == [];
    }
  }

  /**
   * Each carried capacity is the last non-zero capacity seen up to and
   * including that point, or the register's starting value.
   */
  lemma {:induction false} CarryForwardAt(prev: real, caps: seq<real>, i: nat)
    requires i < |caps|
    ensures CarryForward(prev, caps)[i] == LastNonZero(prev, caps[..i + 1])
    decreases i
  {
    var v := if caps[0] == 0.0 then prev else caps[0];
    if i == 0 {
      assert caps[..1] == [caps[0]];
      assert [caps[0]][..0] == [];
    } else {
      CarryForwardAt(v, caps[1..], i - 1);
      assert caps[..i + 1] == [caps[0]] + caps[1..][..i];
      LastNonZeroCons(prev, caps[0], caps[1..][..i]);
    }
  }

  /** Appending one raw capacity appends exactly one carried capacity. */
  lemma {:induction false} CarryForwardSnoc(prev: real, caps: seq<real>, c: real)
    ensures CarryForward(prev, caps + [c]) == CarryForward(prev, caps) + [if c == 0.0 then LastNonZero(prev, caps) else c]
    decreases |caps|
  {
    if caps == [] {
      assert caps + [c] == [c];
    } else {
      var v := if caps[0] == 0.0 then prev else caps[0];
      assert (caps + [c])[1..] == caps[1..] + [c];
      CarryForwardSnoc(v, caps[1..], c);
      LastNonZeroCons(prev, caps[0], caps[1..]);
      assert [caps[0]] + caps[1..] == caps;
    }
  }

  /** Once any capacity is non-zero, every later carried capacity is non-zero. */
  lemma {:induction false} CarriedNonZeroAfterFirst(prev: real, caps: seq<real>, i: nat, j: nat)
    requires i <= j < |caps| && caps[i] != 0.0
    ensures CarryForward(prev, caps)[j] != 0.0
    decreases j - i
  {
    CarryForwardAt(prev, caps, j);
    if caps[j] == 0.0 {
      assert i < j;
      CarryForwardAt(prev, caps, j - 1);
      CarriedNonZeroAfterFirst(prev, caps, i, j - 1);
      assert caps[..j + 1][..j] == caps[..j];
    }
  }

  lemma CarryForwardExample1()
    ensures CarryForward(0.0, [5.0, 0.0, 0.0, 7.0, 0.0]) == [5.0, 5.0, 5.0, 7.0, 7.0]
  {
  }

  lemma CarryForwardExample2()
    ensures CarryForward(0.0, [0.0, 0.0, 3.0]) == [0.0, 0.0, 3.0]
  {
  }
}
