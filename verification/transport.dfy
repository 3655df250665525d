/** The HID handle as the plugins see it: `device.write` either accepts a
    packet or throws. Which write attempts throw is an oracle fixed when the
    handle is opened, so every outcome of a session is a function of it. */
module Transport {
  import opened Protocol

  class HidDevice {
    /** `fails(k)`: write attempt number k (from 0) throws. */
    const fails: nat -> bool
    /** Write attempts so far, accepted or not. */
    var attempts: nat
    /** The packets the device accepted, in order. */
    var sent: seq<Packet>

    constructor (fails: nat -> bool)
      ensures this.fails == fails
      ensures attempts == 0 && sent == []
    {
      this.fails := fails;
      attempts := 0;
      sent := [];
    }

    /** device.write(packet, 64): `ok` is false exactly when the call throws;
        a thrown write delivers nothing. */
    method Write(p: Packet) returns (ok: bool)
      modifies this
      ensures attempts == old(attempts) + 1
      ensures ok == !fails(old(attempts))
      ensures sent == if ok then old(sent) + [p] else old(sent)
    {
      ok := !fails(attempts);
      if ok {
        sent := sent + [p];
      }
      attempts := attempts + 1;
    }
  }

  /** How many of the `n` attempts numbered start, start+1, ... succeed
      before the first one that throws. */
  function Run(fails: nat -> bool, start: nat, n: nat): (k: nat)
    ensures k <= n
    ensures k < n ==> fails(start + k)
    decreases n
  {
    if n == 0 || fails(start) then 0 else 1 + Run(fails, start + 1, n - 1)
  }

  /** Every attempt inside the run goes through. */
  lemma {:induction false} RunClean(fails: nat -> bool, start: nat, n: nat)
    ensures forall j :: start <= j < start + Run(fails, start, n) ==> !fails(j)
    decreases n
  {
    if n > 0 && !fails(start) {
      RunClean(fails, start + 1, n - 1);
    }
  }

  /** How many of the `n` attempts numbered start, start+1, ... throw
      before the first one that goes through. */
  function Misses(fails: nat -> bool, start: nat, n: nat): (k: nat)
    ensures k <= n
    ensures forall j :: start <= j < start + k ==> fails(j)
    ensures k < n ==> !fails(start + k)
    decreases n
  {
    if n == 0 || !fails(start) then 0 else 1 + Misses(fails, start + 1, n - 1)
  }

  /** `Misses` is determined by its two properties. */
  lemma MissesUnique(fails: nat -> bool, start: nat, n: nat, k: nat)
    requires k <= n
    requires forall j :: start <= j < start + k ==> fails(j)
    requires k < n ==> !fails(start + k)
    ensures Misses(fails, start, n) == k
  {
  }

  /** Attempts spent on a sequence of `n` writes that stops at the first
      throw: all of them, or the successful prefix and the one that threw. */
  function Spent(fails: nat -> bool, start: nat, n: nat): (m: nat)
    ensures m <= n
    ensures m == n <==> Run(fails, start, n) + 1 >= n
  {
    var k := Run(fails, start, n);
    if k == n then n else k + 1
  }

  /** `Run` is the length of the longest failure-free prefix: any other
      count with the same two properties is equal to it. */
  lemma {:induction false} RunUnique(fails: nat -> bool, start: nat, n: nat, k: nat)
    requires k <= n
    requires forall j :: start <= j < start + k ==> !fails(j)
    requires k < n ==> fails(start + k)
    ensures Run(fails, start, n) == k
    decreases k
  {
    if k > 0 {
      assert !fails(start);
      RunUnique(fails, start + 1, n - 1, k - 1);
    }
  }

  /** Writing `a` then `b` without stopping in between is the same as
      writing `a + b`: the run over the whole is the run over `a` when that
      stops early, and otherwise continues into `b`. */
  lemma {:induction false} RunAppend(fails: nat -> bool, start: nat, a: nat, b: nat)
    ensures Run(fails, start, a + b)
         == if Run(fails, start, a) < a then Run(fails, start, a)
            else a + Run(fails, start + a, b)
    decreases a
  {
    if a > 0 && !fails(start) {
      RunAppend(fails, start + 1, a - 1, b);
    }
  }

  /** One more attempt after a clean run of `j`: it either extends the run
      or ends every longer run at `j`. */
  lemma RunStep(fails: nat -> bool, start: nat, j: nat, n: nat)
    requires Run(fails, start, j) == j && j < n
    ensures !fails(start + j) ==> Run(fails, start, j + 1) == j + 1
    ensures fails(start + j) ==> Run(fails, start, n) == j
  {
    RunAppend(fails, start, j, 1);
    RunAppend(fails, start, j + 1, n - (j + 1));
  }

  /** The device state (`attempts`, `sent`) after writing `plan` in order
      from (`start`, `before`), stopping at the first write that throws;
      `ok` says whether every write went through. */
  ghost predicate Attempted(fails: nat -> bool, start: nat, before: seq<Packet>, plan: seq<Packet>,
                            ok: bool, attempts: nat, sent: seq<Packet>)
  {
    var k := Run(fails, start, |plan|);
    && ok == (k == |plan|)
    && sent == before + plan[..k]
    && attempts == start + Spent(fails, start, |plan|)
  }

  /** Writing nothing succeeds and changes nothing. */
  lemma AttemptedNone(fails: nat -> bool, start: nat, before: seq<Packet>)
    ensures Attempted(fails, start, before, [], true, start, before)
  {
  }

  /** One `Write` is an attempt of a one-packet plan. */
  lemma AttemptedOne(fails: nat -> bool, start: nat, before: seq<Packet>, p: Packet, sent: seq<Packet>)
    requires sent == if !fails(start) then before + [p] else before
    ensures Attempted(fails, start, before, [p], !fails(start), start + 1, sent)
  {
    assert [p][..1] == [p];
  }

  /** A plan that went through, followed by another plan, is an attempt of
      the two plans joined. */
  lemma AttemptedThen(fails: nat -> bool, s0: nat, b0: seq<Packet>, a: seq<Packet>, s1: nat, b1: seq<Packet>,
                      b: seq<Packet>, ok: bool, s2: nat, b2: seq<Packet>)
    requires Attempted(fails, s0, b0, a, true, s1, b1)
    requires Attempted(fails, s1, b1, b, ok, s2, b2)
    ensures Attempted(fails, s0, b0, a + b, ok, s2, b2)
  {
    var kb := Run(fails, s1, |b|);
    RunAppend(fails, s0, |a|, |b|);
    assert Run(fails, s0, |a + b|) == |a| + kb;
    assert (a + b)[..|a| + kb] == a + b[..kb];
  }

  /** A plan that threw stays a thrown attempt whatever was meant to follow. */
  lemma AttemptedStop(fails: nat -> bool, s0: nat, b0: seq<Packet>, a: seq<Packet>, s1: nat, b1: seq<Packet>,
                      b: seq<Packet>)
    requires Attempted(fails, s0, b0, a, false, s1, b1)
    ensures Attempted(fails, s0, b0, a + b, false, s1, b1)
  {
    RunAppend(fails, s0, |a|, |b|);
    var k := Run(fails, s0, |a|);
    assert (a + b)[..k] == a[..k];
  }

  /** A plan (`body`), then at most one more write (`tail`) made only if
      the whole plan went through: the two together are one attempt of
      `body + tail`, and the plan went through exactly when the run over the
      whole covers it. */
  lemma BodyThenTail(fails: nat -> bool, a0: nat, s0: seq<Packet>, body: seq<Packet>, bodyOk: bool,
                     a1: nat, s1: seq<Packet>, tail: seq<Packet>, ok: bool, attempts: nat, sent: seq<Packet>)
    requires |tail| <= 1
    requires Attempted(fails, a0, s0, body, bodyOk, a1, s1)
    requires bodyOk && |tail| == 1 ==>
               ok == !fails(a1) && attempts == a1 + 1 && sent == (if ok then s1 + tail else s1)
    requires !(bodyOk && |tail| == 1) ==> ok == bodyOk && attempts == a1 && sent == s1
    ensures Attempted(fails, a0, s0, body + tail, ok, attempts, sent)
    ensures bodyOk <==> Run(fails, a0, |body + tail|) >= |body|
  {
    RunAppend(fails, a0, |body|, |tail|);
    if |tail| == 0 {
      assert body + tail == body;
    } else if bodyOk {
      AttemptedOne(fails, a1, s1, tail[0], sent);
      assert [tail[0]] == tail;
      AttemptedThen(fails, a0, s0, body, a1, s1, tail, ok, attempts, sent);
    } else {
      AttemptedStop(fails, a0, s0, body, a1, s1, tail);
    }
  }
}
