/** Stream identifiers: the two low bits of section 2.1 of RFC 9000 as
    session.go reads and writes them. */
module StreamIds {

  /** Go's uint64 addition and conversion wrap modulo this value. */
  const TWO_64: nat := 0x1_0000_0000_0000_0000

  /** The first value that no RFC 9000 varint can carry. */
  const TWO_62: nat := 0x4000_0000_0000_0000

  /** `uint64(n)` for any Go int or uint64 expression, written out. */
  function Wrap(n: int): nat {
    if 0 <= n < TWO_64 then n else n % TWO_64
  }

  /** `id & 0b10 == 0` */
  predicate IsBidi(id: nat) {
    (id / 2) % 2 == 0
  }

  /** `id & 0b01 == 1` for a server, `== 0` for a client. */
  predicate IsOurs(isServer: bool, id: nat) {
    (id % 2 == 1) == isServer
  }

  /** `x | 0b01` and `x | 0b10` */
  function SetBit0(x: nat): nat {
    if x % 2 == 1 then x else x + 1
  }

  function SetBit1(x: nat): nat {
    if (x / 2) % 2 == 1 then x else x + 2
  }

  /** The ID that `nextStreamID` builds from the counter. */
  function IdFrom(isServer: bool, counter: nat, bidi: bool): nat {
    var base := if bidi then counter else SetBit1(counter);
    if isServer then SetBit0(base) else base
  }

  /** From a counter that is a multiple of four, the ID carries the requested
      direction and the local initiator bit and stays in its block of four. */
  lemma {:induction false} IdFromClassifies(isServer: bool, counter: nat, bidi: bool)
    requires counter % 4 == 0
    ensures var id := IdFrom(isServer, counter, bidi);
            && IsBidi(id) == bidi && IsOurs(isServer, id) && !IsOurs(!isServer, id) && counter <= id < counter + 4
            && id == counter + (if bidi then 0 else 2) + (if isServer then 1 else 0)
  {
    var q := counter / 4;
    assert counter == 4 * q;
    assert (4 * q) / 2 == 2 * q && (4 * q + 1) / 2 == 2 * q;
    assert (4 * q + 2) / 2 == 2 * q + 1 && (4 * q + 3) / 2 == 2 * q + 1;
  }
}
