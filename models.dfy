/** Records shared by the repository and the services: object identifiers,
    holdings, snapshots, and the error/result wrappers used for Go's
    `(value, error)` returns. */
module Models {

  newtype byte = x: int | 0 <= x < 256

  /** A BSON object identifier: twelve raw bytes. */
  type ObjectId = s: seq<byte> | |s| == 12 witness [0, 0, 0, 0, 0, 0, 0, 0, 0, 0, 0, 0]

  /** The identifier a record carries before one is assigned: all bytes zero. */
  predicate IsZero(id: ObjectId) {
    forall i | 0 <= i < 12 :: id[i] == 0
  }

  /** Milliseconds since the epoch; 0 stands for "not set". */
  type DateTime = int

  const HexAlphabet: string := "0123456789abcdef"

  function HexDigit(d: int): (c: char)
    requires 0 <= d < 16
    ensures DigitValue(c) == d
  {
    HexAlphabet[d]
  }

  /** Value of a lowercase hexadecimal digit (-1 for any other character). */
  function DigitValue(c: char): int {
    if '0' <= c <= '9' then c as int - '0' as int
    else if 'a' <= c <= 'f' then c as int - 'a' as int + 10
    else -1
  }

  /** Lowercase hexadecimal form of a byte string, two digits per byte,
      most significant nibble first. */
  function HexOf(s: seq<byte>): string {
    if s == [] then []
    else [HexDigit(s[0] as int / 16), HexDigit(s[0] as int % 16)] + HexOf(s[1..])
  }

  /** The key a record is stored under: the 24-character hex form of its id. */
  function Hex(id: ObjectId): (h: string)
    ensures |h| == 24
  {
    HexLength(id);
    HexOf(id)
  }

  lemma {:induction false} HexLength(s: seq<byte>)
    ensures |HexOf(s)| == 2 * |s|
  {
    if s != [] {
      HexLength(s[1..]);
    }
  }

  /** Byte i of s is spelled by characters 2i and 2i+1 of its hex form. */
  lemma {:induction false} HexAt(s: seq<byte>, i: nat)
    requires i < |s|
    ensures |HexOf(s)| == 2 * |s|
    ensures DigitValue(HexOf(s)[2 * i]) == s[i] as int / 16
    ensures DigitValue(HexOf(s)[2 * i + 1]) == s[i] as int % 16
  {
    HexLength(s);
    if i > 0 {
      HexAt(s[1..], i - 1);
      assert HexOf(s)[2 * i] == HexOf(s[1..])[2 * (i - 1)];
      assert HexOf(s)[2 * i + 1] == HexOf(s[1..])[2 * (i - 1) + 1];
    }
  }

  /** Distinct identifiers have distinct keys, so the hex key identifies a record. */
  lemma HexInjective(a: ObjectId, b: ObjectId)
    ensures Hex(a) == Hex(b) ==> a == b
  {
    if Hex(a) == Hex(b) {
      forall i | 0 <= i < 12
        ensures a[i] == b[i]
      {
        HexAt(a, i);
        HexAt(b, i);
        assert a[i] as int == 16 * (a[i] as int / 16) + a[i] as int % 16;
        assert b[i] as int == 16 * (b[i] as int / 16) + b[i] as int % 16;
      }
    }
  }

  /** A user's position in one coin (models.Holding). */
  datatype Holding = Holding(id: ObjectId, userId: string, coinId: string, amount: real)

  /** A recorded total portfolio value (models.Snapshot). */
  datatype Snapshot = Snapshot(id: ObjectId, userId: string, totalValue: real, timestamp: DateTime)

  function HoldingUser(h: Holding): string { h.userId }

  function SnapshotUser(s: Snapshot): string { s.userId }

  /** The error kinds the core can return. */
  datatype Error =
    | InvalidPayload(message: string)
    | Transport(reason: string)
    | UpstreamStatus(status: int, body: seq<byte>)
    | Decode(reason: string)

  datatype Option<+T> = None | Some(value: T)

  datatype Result<+T> = Ok(value: T) | Err(error: Error)
}
