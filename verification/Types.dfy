/**
 Frames, results and the 64-bit microsecond clock shared by every component.
 */
module Types {

  datatype Option<+T> = None | Some(value: T)

  /** A classic CAN data frame: an 11-bit identifier and at most eight bytes. */
  datatype CanFrame = CanFrame(id: nat, data: seq<bv8>)

  /** A frame that exists on the bus. */
  type DataFrame = f: CanFrame | |f.data| <= 8 witness CanFrame(0, [])

  const MAX_COB_ID: nat := 0x7FF

  /** The constructor of the transport layer: `None` beyond 11 bits or 8 bytes. */
  function NewFrame(id: nat, data: seq<bv8>): Option<CanFrame> {
    if id > MAX_COB_ID || |data| > 8 then None else Some(CanFrame(id, data))
  }

  /** What a transport says about a frame offered to it (`nb::Result`). */
  datatype Verdict = Accepted | WouldBlock | Failed

  /** The number a little-endian byte string denotes. */
  function FromLe(data: seq<bv8>): nat {
    if data == [] then 0 else (data[0] as nat) + 0x100 * FromLe(data[1..])
  }

  /** `u32::to_le_bytes`. */
  function ToLe4(n: nat): (r: seq<bv8>)
    ensures |r| == 4
  {
    [(n % 0x100) as bv8, (n / 0x100 % 0x100) as bv8, (n / 0x1_0000 % 0x100) as bv8, (n / 0x100_0000 % 0x100) as bv8]
  }

  lemma FromLe4(d: seq<bv8>)
    requires |d| == 4
    ensures FromLe(d) == d[0] as nat + 0x100 * d[1] as nat + 0x1_0000 * d[2] as nat + 0x100_0000 * d[3] as nat
  {
    assert FromLe(d[3..]) == d[3] as nat + 0x100 * FromLe(d[3..][1..]);
    assert d[2..][1..] == d[3..] && d[1..][1..] == d[2..];
    assert FromLe(d[2..]) == d[2] as nat + 0x100 * FromLe(d[3..]);
    assert FromLe(d[1..]) == d[1] as nat + 0x100 * FromLe(d[2..]);
  }

  /** `u32::from_le_bytes` inverts `u32::to_le_bytes`. */
  lemma LeRoundTrip(n: nat)
    requires n <= U32_MAX
    ensures FromLe(ToLe4(n)) == n
  {
    var d := ToLe4(n);
    FromLe4(d);
    var b0, b1, b2, b3 := n % 0x100, n / 0x100 % 0x100, n / 0x1_0000 % 0x100, n / 0x100_0000 % 0x100;
    ByteRoundTrip(b0);
    ByteRoundTrip(b1);
    ByteRoundTrip(b2);
    ByteRoundTrip(b3);
    BytesOf(n);
  }

  lemma NextByte(x: bv8)
    requires x as nat < 0xFF
    ensures (x + 1) as nat == x as nat + 1
  {
  }

  lemma {:induction false} ByteExists(b: nat) returns (x: bv8)
    requires b < 0x100
    ensures x as nat == b
  {
    if b == 0 {
      x := 0;
    } else {
      x := ByteExists(b - 1);
      NextByte(x);
      x := x + 1;
    }
  }

  lemma ByteRoundTrip(b: nat)
    requires b < 0x100
    ensures (b as bv8) as nat == b
  {
    var x := ByteExists(b);
  }

  lemma BytesOf(n: nat)
    requires n <= U32_MAX
    ensures n == n % 0x100 + 0x100 * (n / 0x100 % 0x100) + 0x1_0000 * (n / 0x1_0000 % 0x100)
                 + 0x100_0000 * (n / 0x100_0000 % 0x100)
  {
    var q1 := n / 0x100;
    var q2 := q1 / 0x100;
    var q3 := q2 / 0x100;
    assert n / 0x1_0000 == q2 && n / 0x100_0000 == q3 && q3 % 0x100 == q3;
  }

  const U8_MAX: nat := 0xFF
  const U32_MAX: nat := 0xFFFF_FFFF
  const U64_SIZE: nat := 0x1_0000_0000_0000_0000

  type U64 = t: nat | t < U64_SIZE

  /** `now.wrapping_sub(since)` on the `u64` clock. */
  function Elapsed(now: U64, since: U64): (d: U64)
  {
    (now - since) % U64_SIZE
  }

  /** Saturating `u32` addition. */
  function SatAdd(a: nat, b: nat): nat {
    if a + b > U32_MAX then U32_MAX else a + b
  }

  /** Reading of a true (unbounded) time on the wrapping clock. */
  function Reading(t: nat): U64 {
    t % U64_SIZE
  }

  /**
   The wrapping difference never overstates a true span, and equals it while
   the span is shorter than one revolution of the clock.
   */
  lemma ElapsedOfReadings(earlier: nat, later: nat)
    requires earlier <= later
    ensures Elapsed(Reading(later), Reading(earlier)) <= later - earlier
    ensures later - earlier < U64_SIZE ==> Elapsed(Reading(later), Reading(earlier)) == later - earlier
  {
    var q1, q2 := earlier / U64_SIZE, later / U64_SIZE;
    var r1, r2 := earlier % U64_SIZE, later % U64_SIZE;
    assert earlier == q1 * U64_SIZE + r1 && later == q2 * U64_SIZE + r2;
    assert q1 <= q2;
    if r2 >= r1 {
      assert (r2 - r1) % U64_SIZE == r2 - r1;
    } else {
      assert (r2 - r1) % U64_SIZE == r2 - r1 + U64_SIZE;
      assert q1 < q2;
    }
  }
}
