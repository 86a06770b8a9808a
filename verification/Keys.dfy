/** The Redis keys of src/lib/lock.ts, src/lib/job-cache.ts and src/lib/leader.ts do not get in each other's way. */
module Keys {
  import opened Domain
  import opened Leader

  function Digit(d: nat): char
    requires d < 10
  {
    "0123456789"[d]
  }

  /** Decimal rendering, as in a template string. */
  function Decimal(n: nat): string {
    if n < 10 then [Digit(n)] else Decimal(n / 10) + [Digit(n % 10)]
  }

  function SlotText(slot: FireSlot): string {
    match slot
    case Manual => "manual"
    case At(ms) => if ms < 0 then "-" + Decimal(-ms) else Decimal(ms)
  }

  function JobLockKey(jobId: JobId, slot: FireSlot): string {
    "lock:job:" + jobId + ":" + SlotText(slot)
  }

  function JobConfigKey(jobId: JobId): string { "job:config:" + jobId }

  lemma {:induction false} DecimalDigits(n: nat)
    ensures Decimal(n) != [] && forall i :: 0 <= i < |Decimal(n)| ==> '0' <= Decimal(n)[i] <= '9'
  {
    if n >= 10 {
      DecimalDigits(n / 10);
    }
  }

  lemma {:induction false} DecimalInjective(m: nat, n: nat)
    requires Decimal(m) == Decimal(n)
    ensures m == n
  {
    DecimalDigits(m / 10);
    DecimalDigits(n / 10);
    if m >= 10 && n >= 10 {
      var a, b := Decimal(m / 10), Decimal(n / 10);
      assert (a + [Digit(m % 10)])[..|a|] == a && (b + [Digit(n % 10)])[..|b|] == b;
      DecimalInjective(m / 10, n / 10);
      assert Decimal(m)[|a|] == Decimal(n)[|b|];
    }
  }

  lemma SlotTextShape(slot: FireSlot)
    ensures SlotText(slot) != [] && ':' !in SlotText(slot)
    ensures slot == Manual <==> SlotText(slot)[0] == 'm'
    ensures (slot.At? && slot.ms < 0) <==> SlotText(slot)[0] == '-'
  {
    if slot.At? {
      DecimalDigits(if slot.ms < 0 then -slot.ms else slot.ms);
    }
  }

  lemma SlotTextInjective(s: FireSlot, t: FireSlot)
    requires SlotText(s) == SlotText(t)
    ensures s == t
  {
    SlotTextShape(s);
    SlotTextShape(t);
    if s.At? {
      if s.ms < 0 {
        assert SlotText(s)[1..] == Decimal(-s.ms) && SlotText(t)[1..] == Decimal(-t.ms);
        DecimalInjective(-s.ms, -t.ms);
      } else {
        DecimalInjective(s.ms, t.ms);
      }
    }
  }

  /** The part after the last colon is determined, whatever the id contains. */
  lemma LastColon(x: string, u: string, y: string, v: string)
    requires ':' !in u && ':' !in v && x + ":" + u == y + ":" + v
    ensures x == y && u == v
  {
    var s := x + ":" + u;
    assert s[|x|] == ':' && s[|y|] == ':';
    assert forall i :: |x| < i < |s| ==> s[i] == u[i - |x| - 1];
    assert forall i :: |y| < i < |s| ==> s[i] == v[i - |y| - 1];
    assert |x| == |y|;
    assert x == s[..|x|] && y == s[..|x|] && u == s[|x| + 1..] && v == s[|x| + 1..];
  }

  /** Two locks share a key exactly if they are for the same job and the same slot. */
  lemma LockKeysInjective(a: JobId, s: FireSlot, b: JobId, t: FireSlot)
    ensures JobLockKey(a, s) == JobLockKey(b, t) <==> a == b && s == t
  {
    if JobLockKey(a, s) == JobLockKey(b, t) {
      SlotTextShape(s);
      SlotTextShape(t);
      LastColon("lock:job:" + a, SlotText(s), "lock:job:" + b, SlotText(t));
      SlotTextInjective(s, t);
      assert a == ("lock:job:" + a)[9..] && b == ("lock:job:" + b)[9..];
    }
  }

  /** The three families of keys are disjoint, and config keys are one per job. */
  lemma KeyFamiliesDisjoint(a: JobId, s: FireSlot, b: JobId, c: JobId)
    ensures JobLockKey(a, s) != JobConfigKey(b) && JobLockKey(a, s) != LEADER_KEY && JobConfigKey(b) != LEADER_KEY
    ensures JobConfigKey(b) == JobConfigKey(c) <==> b == c
  {
    assert JobLockKey(a, s)[0] == 'l' && JobConfigKey(b)[0] == 'j' && LEADER_KEY[0] == 'c';
    assert JobConfigKey(b)[11..] == b && JobConfigKey(c)[11..] == c;
  }
}
