/** The modifiers an `Enter` carries: the last key event's mask, with that key's own modifier put right. */
module KeyLaws {
  import opened Arithmetic
  import opened Wrappers
  import opened MachineInts
  import opened Messages
  import opened Layout
  import Server

  function Pow2(i: nat): (p: int)
    ensures p >= 1
  {
    if i == 0 then 1 else 2 * Pow2(i - 1)
  }

  /** The `i`-th bit, from the lowest. */
  predicate Bit(mask: int, i: nat) {
    mask / Pow2(i) % 2 == 1
  }

  /** The bit that stands for the modifier that a key is. */
  function BitOf(key: u16): Option<nat> {
    if key == 0xEFE1 || key == 0xEFE2 then Some(0)
    else if key == 0xEFE3 || key == 0xEFE4 then Some(1)
    else if key == 0xEFE9 then Some(2)
    else if key == 0xEFE7 || key == 0xEFE8 then Some(3)
    else if key == 0xEFEB || key == 0xEFEC then Some(4)
    else if key == 0xEFEA then Some(5)
    else None
  }

  // --- One bit changed --------------------------------------------------------------------------

  lemma {:induction false} Pow2Splits(i: nat, j: nat)
    requires j < i
    ensures Pow2(i) == Pow2(j) * (2 * Pow2(i - j - 1))
    decreases i
  {
    if j < i - 1 {
      Pow2Splits(i - 1, j);
      Associate(2, Pow2(j), Pow2(i - j - 1));
    }
  }

  lemma QuotientShift(m: int, d: int, q: int)
    requires d > 0
    ensures (m + d * q) / d == m / d + q
  {
    assert m == m / d * d + m % d;
    Distribute(m / d, q, d);
    QuotientUnique(m + d * q, d, m / d + q);
  }

  lemma QuotientTwice(m: int, a: int, b: int)
    requires a > 0 && b > 0
    ensures a * b > 0 && m / (a * b) == m / a / b
  {
    var q := m / a;
    var r := q / b;
    assert m == q * a + m % a && q == r * b + q % b;
    ProductStrict(0, a, b);
    Associate(r, b, a);
    Distribute(r * b, q % b, a);
    ProductMonotone(0, q % b, a);
    ProductMonotone(q % b, b - 1, a);
    Distribute(b, -1, a);
    QuotientUnique(m, a * b, r);
  }

  lemma Parity(x: int, k: int)
    ensures (x + 2 * k) % 2 == x % 2 && (x + 2 * k + 1) % 2 == 1 - x % 2
  {
  }

  lemma Shifted(m: int, d: int, k: int)
    requires d > 0
    ensures (m + d * (2 * k)) / d % 2 == m / d % 2
  {
    QuotientShift(m, d, 2 * k);
    Parity(m / d, k);
  }

  lemma Opposite(d: int, k: int)
    ensures d * (2 * -k) == -(d * (2 * k))
  {
    Distribute(2 * k, 2 * -k, d);
    assert 2 * k + 2 * -k == 0;
  }

  /** Adding or taking away bit `j` leaves the lower bits alone. */
  lemma LowerKept(m: int, i: nat, j: nat)
    requires i < j
    ensures Bit(m + Pow2(j), i) == Bit(m, i) && Bit(m - Pow2(j), i) == Bit(m, i)
  {
    var d, k := Pow2(i), Pow2(j - i - 1);
    Pow2Splits(j, i);
    Shifted(m, d, k);
    Shifted(m, d, -k);
    Opposite(d, k);
  }

  lemma HalfKept(m: int, d: int)
    requires d > 0
    ensures m / d % 2 == 0 ==> (m + d) / (d * 2) == m / (d * 2)
    ensures m / d % 2 == 1 ==> (m - d) / (d * 2) == m / (d * 2)
  {
    QuotientTwice(m, d, 2);
    QuotientTwice(m + d, d, 2);
    QuotientTwice(m - d, d, 2);
    QuotientShift(m, d, 1);
    QuotientShift(m, d, -1);
  }

  /** Adding it where it is clear, or taking it away where it is set, carries into no higher bit. */
  lemma NoCarry(m: int, i: nat, j: nat)
    requires i > j
    ensures !Bit(m, j) ==> (m + Pow2(j)) / Pow2(i) == m / Pow2(i)
    ensures Bit(m, j) ==> (m - Pow2(j)) / Pow2(i) == m / Pow2(i)
  {
    Pow2Splits(i, j);
    var d, k := Pow2(j), Pow2(i - j - 1);
    Associate(d, 2, k);
    HalfKept(m, d);
    QuotientTwice(m, d * 2, k);
    QuotientTwice(m + d, d * 2, k);
    QuotientTwice(m - d, d * 2, k);
  }

  lemma ItselfChanged(m: int, j: nat)
    ensures Bit(m + Pow2(j), j) == !Bit(m, j) && Bit(m - Pow2(j), j) == !Bit(m, j)
  {
    var d := Pow2(j);
    assert d * 1 == d && d * -1 == -d;
    QuotientShift(m, d, 1);
    QuotientShift(m, d, -1);
    Parity(m / d, 0);
    Parity(m / d, -1);
  }

  lemma Pow16()
    ensures Pow2(16) == 0x1_0000
  {
    assert Pow2(8) == 256;
    Pow2Splits(16, 8);
    assert Pow2(7) == 128;
  }

  lemma StaysWithin(mask: u16, j: nat)
    requires j < 16
    ensures !Bit(mask, j) ==> mask + Pow2(j) < 0x1_0000
    ensures Bit(mask, j) ==> mask - Pow2(j) >= 0
  {
    Pow16();
    NoCarry(mask, 16, j);
  }

  lemma WithBitChanges(mask: u16, j: nat, on: bool)
    requires j < 16 && Pow2(j) < 0x1_0000
    ensures Server.WithBit(mask, Pow2(j), on)
         == if on == Bit(mask, j) then mask else if on then mask + Pow2(j) else mask - Pow2(j)
  {
    StaysWithin(mask, j);
  }

  lemma WithBitSets(mask: u16, j: nat, on: bool, i: nat)
    requires j < 16 && Pow2(j) < 0x1_0000
    ensures Bit(Server.WithBit(mask, Pow2(j), on), i) == if i == j then on else Bit(mask, i)
  {
    WithBitChanges(mask, j, on);
    ItselfChanged(mask, j);
    if i < j {
      LowerKept(mask, i, j);
    } else if i > j {
      NoCarry(mask, i, j);
    }
  }

  // --- What is tracked --------------------------------------------------------------------------

  lemma SmallPowers()
    ensures Pow2(0) == 1 && Pow2(1) == 2 && Pow2(2) == 4 && Pow2(3) == 8 && Pow2(4) == 16 && Pow2(5) == 32
  {
  }

  lemma ModifierIsBit(key: u16)
    ensures Server.ModifierBit(key) == match BitOf(key) case Some(j) => Pow2(j) case None => 0
  {
    SmallPowers();
  }

  /** Whether modifier `i` is held down behind this event. */
  predicate HeldAfter(before: u16, ev: LocalEvent, i: nat) {
    if !ev.Key? then Bit(before, i)
    else if BitOf(ev.key) == Some(i) && !ev.action.Repeat? then ev.action.Down?
    else Bit(ev.mask, i)
  }

  /** After any event each modifier is held as the event says: its own key by going down or up, the others by the mask. */
  lemma ModifiersTracked(s: Server.State, ev: LocalEvent, i: nat)
    ensures Bit(Server.Handle(s, ev).0.modifiers, i) == HeldAfter(s.modifiers, ev, i)
  {
    HandleTracks(s, ev);
    if ev.Key? {
      ModifierIsBit(ev.key);
      SmallPowers();
      if BitOf(ev.key).Some? {
        WithBitSets(ev.mask, BitOf(ev.key).value, ev.action.Down?, i);
      }
    }
  }

  lemma HandleTracks(s: Server.State, ev: LocalEvent)
    ensures Server.Handle(s, ev).0.modifiers == Server.TrackModifiers(s.modifiers, ev)
  {
  }
}
