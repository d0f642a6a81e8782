/**
 * The order of the bus transactions the driver issues, and the gate
 * discipline they obey: every BRAM access is opened by a store of 1 to the
 * gate register SLV_REG3 and closed by a store of 0 to it.
 */
module GateTrace {
  import opened Optional
  import opened AddressMap

  /** One bus transaction, with the byte address it targets and the value moved. */
  datatype Event =
    | RegStore(addr: nat, value: bv32)
    | RegLoad(addr: nat, value: bv32)
    | BramStore(addr: nat, word: bv128)
    | BramLoad(addr: nat, word: bv128)
  {
    predicate IsBramAccess() {
      BramStore? || BramLoad?
    }

    predicate IsGateStore() {
      RegStore? && addr == SLV_REG3
    }
  }

  /** The value of the last gate store in `t`, if `t` holds one. */
  function LastGate(t: seq<Event>): Option<bv32> {
    if t == [] then None
    else if t[|t| - 1].IsGateStore() then Some(t[|t| - 1].value)
    else LastGate(t[..|t| - 1])
  }

  /** The value of the first gate store in `t`, if `t` holds one. */
  function NextGate(t: seq<Event>): Option<bv32> {
    if t == [] then None
    else if t[0].IsGateStore() then Some(t[0].value)
    else NextGate(t[1..])
  }

  /**
   * LastGate finds the gate store that no later gate store overrides, and
   * finds nothing exactly when `t` has no gate store.
   */
  lemma {:induction false} LastGateSpec(t: seq<Event>)
    ensures LastGate(t).None? <==> forall i | 0 <= i < |t| :: !t[i].IsGateStore()
    ensures LastGate(t).Some? ==>
              exists i | 0 <= i < |t| :: t[i] == RegStore(SLV_REG3, LastGate(t).value)
                && forall k | i < k < |t| :: !t[k].IsGateStore()
  {
    if t != [] && !t[|t| - 1].IsGateStore() {
      var front := t[..|t| - 1];
      LastGateSpec(front);
      assert forall i | 0 <= i < |front| :: front[i] == t[i];
    }
  }

  /**
   * NextGate finds the gate store that no earlier gate store precedes, and
   * finds nothing exactly when `t` has no gate store.
   */
  lemma {:induction false} NextGateSpec(t: seq<Event>)
    ensures NextGate(t).None? <==> forall i | 0 <= i < |t| :: !t[i].IsGateStore()
    ensures NextGate(t).Some? ==>
              exists i | 0 <= i < |t| :: t[i] == RegStore(SLV_REG3, NextGate(t).value)
                && forall k | 0 <= k < i :: !t[k].IsGateStore()
  {
    if t != [] && !t[0].IsGateStore() {
      var rest := t[1..];
      NextGateSpec(rest);
      assert forall i | 1 <= i < |t| :: rest[i - 1] == t[i];
      if NextGate(rest).Some? {
        var j :| 0 <= j < |rest| && rest[j] == RegStore(SLV_REG3, NextGate(rest).value)
                   && forall k | 0 <= k < j :: !rest[k].IsGateStore();
        assert t[j + 1] == rest[j];
      }
    }
  }

  /**
   * Every BRAM access in `t` happens while the gate is open: the last gate
   * store before it wrote 1 and the first gate store after it writes 0.
   */
  predicate Gated(t: seq<Event>) {
    forall i | 0 <= i < |t| && t[i].IsBramAccess() ::
      LastGate(t[..i]) == Some(1) && NextGate(t[i + 1..]) == Some(0)
  }

  /** One BRAM access bracketed by the gate stores that open and close it. */
  function Transfer(access: Event): (t: seq<Event>)
    requires access.IsBramAccess()
    ensures Gated(t)
    ensures LastGate(t) == Some(0)
    ensures |t| == 3 && t[1] == access
  {
    [RegStore(SLV_REG3, 1), access, RegStore(SLV_REG3, 0)]
  }

  /** A later gate store decides the last gate value, whatever came before it. */
  lemma {:induction false} LastGateAppend(t: seq<Event>, u: seq<Event>)
    requires LastGate(u).Some?
    ensures LastGate(t + u) == LastGate(u)
  {
    var n := |t + u| - 1;
    if u[|u| - 1].IsGateStore() {
      assert (t + u)[n] == u[|u| - 1];
    } else {
      assert (t + u)[..n] == t + u[..|u| - 1];
      LastGateAppend(t, u[..|u| - 1]);
    }
  }

  /** An earlier gate store decides the next gate value, whatever comes after it. */
  lemma {:induction false} NextGatePrepend(t: seq<Event>, u: seq<Event>)
    requires NextGate(t).Some?
    ensures NextGate(t + u) == NextGate(t)
  {
    if !t[0].IsGateStore() {
      assert (t + u)[1..] == t[1..] + u;
      NextGatePrepend(t[1..], u);
    }
  }

  /** Two gated traces run one after the other make a gated trace. */
  lemma GatedConcat(t: seq<Event>, u: seq<Event>)
    requires Gated(t) && Gated(u)
    ensures Gated(t + u)
  {
    var tu := t + u;
    forall i | 0 <= i < |tu| && tu[i].IsBramAccess()
      ensures LastGate(tu[..i]) == Some(1) && NextGate(tu[i + 1..]) == Some(0)
    {
      if i < |t| {
        assert tu[..i] == t[..i];
        assert tu[i + 1..] == t[i + 1..] + u;
        NextGatePrepend(t[i + 1..], u);
      } else {
        var j := i - |t|;
        assert u[j] == tu[i];
        assert tu[..i] == t + u[..j];
        assert tu[i + 1..] == u[j + 1..];
        LastGateAppend(t, u[..j]);
      }
    }
  }

  /**
   * In a gated trace every BRAM access is preceded by a store of 1 to the
   * gate and followed by a store of 0 to it, with no other gate store in
   * between.
   */
  lemma GatedAccessBracketed(t: seq<Event>, i: nat)
    requires Gated(t)
    requires i < |t| && t[i].IsBramAccess()
    ensures exists j | 0 <= j < i :: t[j] == RegStore(SLV_REG3, 1)
              && forall k | j < k < i :: !t[k].IsGateStore()
    ensures exists j | i < j < |t| :: t[j] == RegStore(SLV_REG3, 0)
              && forall k | i < k < j :: !t[k].IsGateStore()
  {
    var before, after := t[..i], t[i + 1..];
    assert LastGate(before) == Some(1) && NextGate(after) == Some(0);
    LastGateSpec(before);
    NextGateSpec(after);
    var j0 :| 0 <= j0 < |before| && before[j0] == RegStore(SLV_REG3, 1)
               && forall k | j0 < k < |before| :: !before[k].IsGateStore();
    assert forall k | j0 < k < i :: t[k] == before[k];
    var j1 :| 0 <= j1 < |after| && after[j1] == RegStore(SLV_REG3, 0)
               && forall k | 0 <= k < j1 :: !after[k].IsGateStore();
    assert forall k | i < k < i + 1 + j1 :: t[k] == after[k - i - 1];
    assert t[i + 1 + j1] == after[j1];
  }
}
