/** CPFP clusters as packed binary records, 44 bytes a transaction. */
module ClusterPacking {
  import opened Collections

  /** A member of a cluster. The identifier is in hexadecimal. */
  datatype Ancestor = Ancestor(txid: string, weight: int, fee: real)

  const RECORD: int := 44
  const TWO32: int := 0x1_0000_0000
  const TWO64: int := 0x1_0000_0000_0000_0000

  // ---------- hexadecimal ----------

  ghost predicate IsHex(c: char) {
    '0' <= c <= '9' || 'a' <= c <= 'f' || 'A' <= c <= 'F'
  }

  ghost predicate IsLowerHex(c: char) {
    '0' <= c <= '9' || 'a' <= c <= 'f'
  }

  function HexValue(c: char): (v: int)
    requires IsHex(c)
    ensures 0 <= v < 16
  {
    if '0' <= c <= '9' then c as int - '0' as int
    else if 'a' <= c <= 'f' then c as int - 'a' as int + 10
    else c as int - 'A' as int + 10
  }

  function HexDigit(v: int): (c: char)
    requires 0 <= v < 16
    ensures IsLowerHex(c) && HexValue(c) == v
  {
    if v < 10 then ('0' as int + v) as char else ('a' as int + v - 10) as char
  }

  /** A digit is printed back as it was read exactly when it is in lower case. */
  lemma DigitBack(c: char)
    requires IsHex(c)
    ensures HexDigit(HexValue(c)) == c <==> IsLowerHex(c)
  {
  }

  ghost predicate IsTxid(s: string) {
    |s| == 64 && forall i :: 0 <= i < 64 ==> IsHex(s[i])
  }

  /** Identifiers as the node prints them. */
  ghost predicate Printed(s: string) {
    |s| == 64 && forall i :: 0 <= i < 64 ==> IsLowerHex(s[i])
  }

  // ---------- bytes ----------

  ghost predicate AreBytes(s: seq<int>) {
    forall i :: 0 <= i < |s| ==> 0 <= s[i] < 256
  }

  ghost function Power(k: nat): int {
    if k == 0 then 1 else 256 * Power(k - 1)
  }

  /** The number a sequence of bytes spells, most significant byte first. */
  function Spelled(s: seq<int>): int {
    if s == [] then 0 else 256 * Spelled(s[..|s| - 1]) + s[|s| - 1]
  }

  /** "k" bytes that spell "n", dropping what does not fit. */
  ghost function Spell(n: int, k: nat): (s: seq<int>)
    ensures |s| == k
    decreases k
  {
    if k == 0 then [] else Spell(n / 256, k - 1) + [n % 256]
  }

  lemma {:induction false} SpellBytes(n: int, k: nat)
    ensures AreBytes(Spell(n, k))
    decreases k
  {
    if k > 0 { SpellBytes(n / 256, k - 1); }
  }

  lemma {:induction false} SpelledBack(n: int, k: nat)
    requires 0 <= n < Power(k)
    ensures Spelled(Spell(n, k)) == n
  {
    if k > 0 {
      assert 0 <= n / 256 < Power(k - 1);
      SpelledBack(n / 256, k - 1);
      var s := Spell(n, k);
      assert s[..k - 1] == Spell(n / 256, k - 1) && s[k - 1] == n % 256;
    }
  }

  lemma {:induction false} SpelledBounds(s: seq<int>)
    requires AreBytes(s)
    ensures 0 <= Spelled(s) < Power(|s|)
  {
    if s != [] { SpelledBounds(s[..|s| - 1]); }
  }

  lemma {:induction false} SpellBack(s: seq<int>)
    requires AreBytes(s)
    ensures Spell(Spelled(s), |s|) == s
  {
    if s != [] {
      var k, n := |s| - 1, Spelled(s);
      SpellBack(s[..k]);
      assert n / 256 == Spelled(s[..k]) && n % 256 == s[k];
      assert s == s[..k] + [s[k]];
    }
  }

  lemma Widths()
    ensures Power(4) == TWO32 && Power(8) == TWO64
  {
    assert Power(1) == 256 && Power(2) == 65536 && Power(3) == 16777216;
    assert Power(4) == TWO32;
    assert Power(5) == 256 * TWO32 && Power(6) == 65536 * TWO32 && Power(7) == 16777216 * TWO32;
  }

  // ---------- records ----------

  /** The identifier's bytes, the last digits first. */
  ghost function IdBytes(txid: string): (s: seq<int>)
    requires IsTxid(txid)
    ensures |s| == 32
  {
    seq(32, k requires 0 <= k < 32 => 16 * HexValue(txid[62 - 2 * k]) + HexValue(txid[63 - 2 * k]))
  }

  function Round(x: real): int {
    (x + 0.5).Floor
  }

  ghost function Record(tx: Ancestor): (s: seq<int>)
    requires IsTxid(tx.txid)
    ensures |s| == RECORD
  {
    IdBytes(tx.txid) + Spell(tx.weight % TWO32, 4) + Spell(Round(tx.fee) % TWO64, 8)
  }

  ghost predicate AllTxids(txs: seq<Ancestor>) {
    forall i :: 0 <= i < |txs| ==> IsTxid(txs[i].txid)
  }

  ghost function Packed(txs: seq<Ancestor>): (s: seq<int>)
    requires AllTxids(txs)
    ensures |s| == RECORD * |txs|
  {
    if txs == [] then [] else Packed(txs[..|txs| - 1]) + Record(txs[|txs| - 1])
  }

  function IdOf(bytes: seq<int>): (s: string)
    requires |bytes| == 32 && forall i :: 0 <= i < 32 ==> 0 <= bytes[i] < 256
    ensures Printed(s)
  {
    seq(64, i requires 0 <= i < 64 => HexDigit(if i % 2 == 0 then bytes[31 - i / 2] / 16 else bytes[31 - i / 2] % 16))
  }

  function Parse(record: seq<int>): (tx: Ancestor)
    requires |record| == RECORD && forall i :: 0 <= i < RECORD ==> 0 <= record[i] < 256
  {
    Ancestor(IdOf(record[..32]), Spelled(record[32..36]), Spelled(record[36..44]) as real)
  }

  /** The transactions a record keeps: an identifier in lower case, a weight of 32 bits, a whole fee of 64 bits. */
  ghost predicate Fits(tx: Ancestor) {
    Printed(tx.txid) && 0 <= tx.weight < TWO32 && tx.fee == tx.fee.Floor as real && 0 <= tx.fee.Floor < TWO64
  }

  lemma IdBytesAre(txid: string)
    requires IsTxid(txid)
    ensures AreBytes(IdBytes(txid))
  {
  }

  lemma IdBack(txid: string)
    requires IsTxid(txid)
    ensures AreBytes(IdBytes(txid)) && (IdOf(IdBytes(txid)) == txid <==> Printed(txid))
  {
    IdBytesAre(txid);
    var back := IdOf(IdBytes(txid));
    forall i | 0 <= i < 64 ensures back[i] == HexDigit(HexValue(txid[i])) {
      DigitAt(txid, i);
    }
    forall i | 0 <= i < 64 ensures back[i] == txid[i] <==> IsLowerHex(txid[i]) {
      DigitBack(txid[i]);
    }
    if Printed(txid) {
      assert back == txid;
    }
    hide IdOf, IdBytes, IsHex, IsLowerHex;
  }

  lemma DigitAt(txid: string, i: int)
    requires IsTxid(txid) && 0 <= i < 64 && AreBytes(IdBytes(txid))
    ensures IdOf(IdBytes(txid))[i] == HexDigit(HexValue(txid[i]))
  {
    var k := 31 - i / 2;
    assert 62 - 2 * k == i - i % 2;
    hide HexDigit, IsHex;
    var hi, lo := HexValue(txid[62 - 2 * k]), HexValue(txid[63 - 2 * k]);
    assert IdBytes(txid)[k] == 16 * hi + lo;
    Nibbles(hi, lo);
    hide HexValue;
  }

  lemma Nibbles(hi: int, lo: int)
    requires 0 <= lo < 16
    ensures (16 * hi + lo) / 16 == hi && (16 * hi + lo) % 16 == lo
  {
  }

  lemma RecordParts(tx: Ancestor)
    requires IsTxid(tx.txid)
    ensures var r := Record(tx);
      && r[..32] == IdBytes(tx.txid) && r[32..36] == Spell(tx.weight % TWO32, 4) && r[36..44] == Spell(Round(tx.fee) % TWO64, 8)
      && AreBytes(r)
  {
    IdBytesAre(tx.txid);
    SpellBytes(tx.weight % TWO32, 4);
    SpellBytes(Round(tx.fee) % TWO64, 8);
    hide IdBytes, Spell, Round;
  }

  lemma SmallRemainder(n: int, m: int)
    requires m > 0
    ensures 0 <= n % m < m && (n % m == n <==> 0 <= n < m)
  {
  }

  lemma WholeFee(fee: real)
    ensures (Round(fee) % TWO64) as real == fee <==> fee == fee.Floor as real && 0 <= fee.Floor < TWO64
  {
    SmallRemainder(Round(fee), TWO64);
    if fee == fee.Floor as real {
      assert Round(fee) == fee.Floor;
    }
  }

  /** A record is read back as the transaction it was written for exactly when the transaction fits. */
  lemma RecordRoundTrip(tx: Ancestor)
    requires IsTxid(tx.txid)
    ensures AreBytes(Record(tx)) && (Parse(Record(tx)) == tx <==> Fits(tx))
  {
    hide *;
    RecordLength();
    RecordParts(tx);
    Widths();
    IdBack(tx.txid);
    SmallRemainder(tx.weight, TWO32);
    SmallRemainder(Round(tx.fee), TWO64);
    SpelledBack(tx.weight % TWO32, 4);
    SpelledBack(Round(tx.fee) % TWO64, 8);
    WholeFee(tx.fee);
    FitsIs(tx);
    ByteBounds(Record(tx));
    ParseIs(Record(tx));
  }

  lemma RecordLength()
    ensures RECORD == 44 && TWO32 > 0 && TWO64 > 0
  {
  }

  lemma ByteBounds(s: seq<int>)
    requires AreBytes(s)
    ensures forall i :: 0 <= i < |s| ==> 0 <= s[i] < 256
  {
  }

  lemma FitsIs(tx: Ancestor)
    ensures Fits(tx) <==> Printed(tx.txid) && 0 <= tx.weight < TWO32 && tx.fee == tx.fee.Floor as real && 0 <= tx.fee.Floor < TWO64
  {
    hide Printed;
  }

  lemma ParseIs(record: seq<int>)
    requires |record| == RECORD && AreBytes(record)
    ensures forall i :: 0 <= i < 32 ==> 0 <= record[..32][i] < 256
    ensures Parse(record) == Ancestor(IdOf(record[..32]), Spelled(record[32..36]), Spelled(record[36..44]) as real)
  {
    hide IdOf, Spelled;
  }

  /** The largest whole number up to which all are exact in the source's number type. */
  const MAX_SAFE_INTEGER: int := 0x1f_ffff_ffff_ffff

  lemma IdForth(bytes: seq<int>)
    requires |bytes| == 32 && AreBytes(bytes)
    ensures IsTxid(IdOf(bytes)) && IdBytes(IdOf(bytes)) == bytes
  {
    var id := IdOf(bytes);
    assert IsTxid(id);
    forall k | 0 <= k < 32 ensures IdBytes(id)[k] == bytes[k] {
      DigitPlaces(bytes, k);
    }
    hide IdOf, HexValue;
  }

  lemma DigitPlaces(bytes: seq<int>, k: int)
    requires |bytes| == 32 && AreBytes(bytes) && 0 <= k < 32
    ensures var id := IdOf(bytes);
      IsHex(id[62 - 2 * k]) && IsHex(id[63 - 2 * k]) && 16 * HexValue(id[62 - 2 * k]) + HexValue(id[63 - 2 * k]) == bytes[k]
  {
    assert (62 - 2 * k) % 2 == 0 && (62 - 2 * k) / 2 == 31 - k && (63 - 2 * k) % 2 == 1 && (63 - 2 * k) / 2 == 31 - k;
    hide HexDigit, HexValue;
  }

  /** Any 44 bytes whose fee is exact as a number are written again just as they were read. */
  lemma BytesRoundTrip(record: seq<int>)
    requires |record| == RECORD && AreBytes(record) && Spelled(record[36..44]) <= MAX_SAFE_INTEGER
    ensures IsTxid(Parse(record).txid) && Record(Parse(record)) == record && Fits(Parse(record))
  {
    hide *;
    RecordLength();
    Widths();
    ByteBounds(record);
    Parts(record);
    ParseIs(record);
    IdForth(record[..32]);
    SpelledBounds(record[32..36]);
    SpelledBounds(record[36..44]);
    SpellBack(record[32..36]);
    SpellBack(record[36..44]);
    SmallRemainder(Spelled(record[32..36]), TWO32);
    SmallRemainder(Spelled(record[36..44]), TWO64);
    WholeNumber(Spelled(record[36..44]));
    RecordIs(Parse(record));
    FitsIs(Parse(record));
    assert record == record[..32] + record[32..36] + record[36..44];
  }

  lemma Parts(record: seq<int>)
    requires |record| == RECORD && AreBytes(record)
    ensures AreBytes(record[..32]) && AreBytes(record[32..36]) && AreBytes(record[36..44])
  {
  }

  lemma WholeNumber(n: int)
    ensures Round(n as real) == n && (n as real).Floor == n
  {
  }

  lemma RecordIs(tx: Ancestor)
    requires IsTxid(tx.txid)
    ensures Record(tx) == IdBytes(tx.txid) + Spell(tx.weight % TWO32, 4) + Spell(Round(tx.fee) % TWO64, 8)
  {
    hide IdBytes, Spell, Round;
  }

  // ---------- whole clusters ----------

  ghost function Parsed(bytes: seq<int>, n: nat): seq<Ancestor>
    requires |bytes| >= RECORD * n && AreBytes(bytes)
  {
    if n == 0 then [] else
    var r := bytes[RECORD * (n - 1)..RECORD * n];
    ByteBounds(bytes);
    Parsed(bytes, n - 1) + [Parse(r)]
  }

  lemma PackedStep(txs: seq<Ancestor>, i: nat)
    requires AllTxids(txs) && i < |txs|
    ensures Packed(txs[..i + 1]) == Packed(txs[..i]) + Record(txs[i])
  {
    assert txs[..i + 1][..i] == txs[..i];
  }

  lemma {:induction false} PackedBytes(txs: seq<Ancestor>)
    requires AllTxids(txs)
    ensures AreBytes(Packed(txs))
  {
    if txs != [] {
      PackedBytes(txs[..|txs| - 1]);
      RecordParts(txs[|txs| - 1]);
      hide Record;
    }
  }

  lemma {:induction false} ParsedPrefix(a: seq<int>, b: seq<int>, n: nat)
    requires |a| >= RECORD * n && AreBytes(a) && AreBytes(a + b)
    ensures Parsed(a + b, n) == Parsed(a, n)
  {
    hide Parse;
    if n > 0 {
      ParsedPrefix(a, b, n - 1);
      assert (a + b)[RECORD * (n - 1)..RECORD * n] == a[RECORD * (n - 1)..RECORD * n];
    }
  }

  /** The last record of a packed cluster is parsed by itself. */
  lemma ParsedStep(before: seq<Ancestor>, last: Ancestor)
    requires AllTxids(before + [last]) && AllTxids(before) && IsTxid(last.txid)
    requires AreBytes(Packed(before)) && AreBytes(Record(last)) && AreBytes(Packed(before + [last]))
    ensures |Packed(before)| == RECORD * |before| && |Record(last)| == RECORD && forall i :: 0 <= i < RECORD ==> 0 <= Record(last)[i] < 256
    ensures Parsed(Packed(before + [last]), |before| + 1) == Parsed(Packed(before), |before|) + [Parse(Record(last))]
  {
    hide Record, Parse, AreBytes, IsTxid;
    ByteBounds(Record(last));
    assert (before + [last])[..|before|] == before;
    ParsedPrefix(Packed(before), Record(last), |before|);
    LastRecord(Packed(before), Record(last), |before|);
  }

  /** Unpacking a packed cluster gives the cluster back exactly when every member fits. */
  lemma {:induction false} RoundTrip(txs: seq<Ancestor>)
    requires AllTxids(txs)
    ensures AreBytes(Packed(txs))
    ensures |Packed(txs)| >= RECORD * |txs| && (Parsed(Packed(txs), |txs|) == txs <==> AllFit(txs))
  {
    hide *;
    PackedBytes(txs);
    if txs == [] {
      NothingPacked();
    } else {
      var n, last := |txs| - 1, txs[|txs| - 1];
      var before := txs[..n];
      assert txs == before + [last];
      SplitTxids(before, last);
      PackedBytes(before);
      RoundTrip(before);
      RecordRoundTrip(last);
      ParsedStep(before, last);
      OneMoreFits(before, last);
      assert Parsed(Packed(before), n) + [Parse(Record(last))] == before + [last] <==> Parsed(Packed(before), n) == before && Parse(Record(last)) == last by {
        SnocInjective(Parsed(Packed(before), n), Parse(Record(last)), before, last);
      }
    }
  }

  lemma NothingPacked()
    ensures Packed([]) == [] && AreBytes([]) && Parsed([], 0) == [] && AllFit([])
  {
  }

  lemma SplitTxids(before: seq<Ancestor>, last: Ancestor)
    requires AllTxids(before + [last])
    ensures AllTxids(before) && IsTxid(last.txid)
  {
    var all := before + [last];
    assert forall i :: 0 <= i < |before| ==> all[i] == before[i];
    assert all[|before|] == last;
    hide IsTxid;
  }

  lemma SnocInjective(s: seq<Ancestor>, x: Ancestor, t: seq<Ancestor>, y: Ancestor)
    ensures s + [x] == t + [y] <==> s == t && x == y
  {
    if s + [x] == t + [y] {
      assert (s + [x])[..|s|] == s && (t + [y])[..|t|] == t;
      assert (s + [x])[|s|] == x && (t + [y])[|t|] == y;
    }
  }

  ghost predicate AllFit(txs: seq<Ancestor>) {
    forall i :: 0 <= i < |txs| ==> Fits(txs[i])
  }

  lemma OneMoreFits(before: seq<Ancestor>, last: Ancestor)
    ensures AllFit(before + [last]) <==> AllFit(before) && Fits(last)
  {
    hide Fits;
    var all := before + [last];
    assert forall i :: 0 <= i < |before| ==> all[i] == before[i];
    assert all[|before|] == last;
  }

  lemma LastRecord(a: seq<int>, r: seq<int>, n: nat)
    requires |a| == RECORD * n && |r| == RECORD
    ensures (a + r)[RECORD * n..RECORD * (n + 1)] == r
  {
  }

  // ---------- the layout, byte by byte ----------

  /** "c" is the hexadecimal digit "v", in either case. */
  ghost predicate IsDigit(c: char, v: int) {
    0 <= v < 16 && (c == "0123456789abcdef"[v] || c == "0123456789ABCDEF"[v])
  }

  /** The first 32 bytes are the identifier's, the last two digits first. */
  ghost predicate NamesId(r: seq<int>, txid: string) {
    |r| == 44 && |txid| == 64 && forall k :: 0 <= k < 32 ==> IsDigit(txid[62 - 2 * k], r[k] / 16) && IsDigit(txid[63 - 2 * k], r[k] % 16)
  }

  /** Bytes 32 to 35, the most significant first. */
  ghost function WeightIn(r: seq<int>): int
    requires |r| == 44
  {
    0x100_0000 * r[32] + 0x1_0000 * r[33] + 0x100 * r[34] + r[35]
  }

  /** Bytes 36 to 43, the most significant first. */
  ghost function FeeIn(r: seq<int>): int
    requires |r| == 44
  {
    0x1_0000_0000 * (0x100_0000 * r[36] + 0x1_0000 * r[37] + 0x100 * r[38] + r[39]) + 0x100_0000 * r[40] + 0x1_0000 * r[41] + 0x100 * r[42] + r[43]
  }

  /** The whole number nearest to "x", the greater of two. */
  ghost predicate NearestTo(x: real, n: int) {
    n as real - 0.5 <= x < n as real + 0.5
  }

  /** The record of a transaction: its identifier, the lower 32 bits of its weight and the lower 64 bits of its rounded fee. */
  ghost predicate IsRecord(r: seq<int>, tx: Ancestor) {
    && AreBytes(r) && NamesId(r, tx.txid) && WeightIn(r) == tx.weight % 0x1_0000_0000
    && exists n: int :: NearestTo(tx.fee, n) && FeeIn(r) == n % 0x1_0000_0000_0000_0000
  }

  /** The transaction of a record, with its identifier in lower case. */
  ghost predicate IsParsed(r: seq<int>, tx: Ancestor) {
    NamesId(r, tx.txid) && Printed(tx.txid) && tx.weight == WeightIn(r) && tx.fee == FeeIn(r) as real
  }

  lemma DigitIs(c: char)
    requires IsHex(c)
    ensures IsDigit(c, HexValue(c))
  {
    var v := HexValue(c);
    if '0' <= c <= '9' {
      LowDigits(v);
      assert c == ('0' as int + v) as char;
    } else {
      HighDigits(v);
      assert c == ('a' as int + v - 10) as char || c == ('A' as int + v - 10) as char;
    }
  }

  lemma LowDigits(v: int)
    requires 0 <= v < 10
    ensures "0123456789abcdef"[v] == ('0' as int + v) as char
  {
  }

  lemma HighDigits(v: int)
    requires 10 <= v < 16
    ensures "0123456789abcdef"[v] == ('a' as int + v - 10) as char && "0123456789ABCDEF"[v] == ('A' as int + v - 10) as char
  {
  }

  lemma Spelled4(s: seq<int>)
    requires |s| == 4
    ensures Spelled(s) == 0x100_0000 * s[0] + 0x1_0000 * s[1] + 0x100 * s[2] + s[3]
  {
    SpelledLast(s);
    SpelledLast(s[..3]);
    SpelledLast(s[..2]);
    SpelledLast(s[..1]);
    hide Spelled;
    assert s[..3][..2] == s[..2] && s[..2][..1] == s[..1] && s[..1][..0] == [];
    assert Spelled([]) == 0 by { NothingSpelled(); }
  }

  lemma NothingSpelled()
    ensures Spelled([]) == 0
  {
  }

  lemma SpelledLast(s: seq<int>)
    requires s != []
    ensures Spelled(s) == 256 * Spelled(s[..|s| - 1]) + s[|s| - 1]
  {
  }

  lemma Spelled8(s: seq<int>)
    requires |s| == 8
    ensures Spelled(s) == 0x1_0000_0000 * Spelled(s[..4]) + Spelled(s[4..])
  {
    hide *;
    SpelledLast(s);
    SpelledLast(s[..7]);
    SpelledLast(s[..6]);
    SpelledLast(s[..5]);
    assert s[..7][..6] == s[..6] && s[..6][..5] == s[..5] && s[..5][..4] == s[..4];
    Spelled4(s[4..]);
  }

  lemma NumbersIn(r: seq<int>)
    requires |r| == 44
    ensures Spelled(r[32..36]) == WeightIn(r) && Spelled(r[36..44]) == FeeIn(r)
  {
    Spelled4(r[32..36]);
    Spelled8(r[36..44]);
    Spelled4(r[36..44][..4]);
    Spelled4(r[36..44][4..]);
    hide Spelled;
  }

  lemma RoundNearest(x: real)
    ensures NearestTo(x, Round(x))
  {
  }

  /** What is written for a transaction is its record. */
  lemma RecordIsRecord(tx: Ancestor)
    requires IsTxid(tx.txid)
    ensures IsRecord(Record(tx), tx)
  {
    hide *;
    var r := Record(tx);
    RecordLength();
    RecordParts(tx);
    NumbersIn(r);
    Widths();
    SmallRemainder(tx.weight, TWO32);
    SmallRemainder(Round(tx.fee), TWO64);
    SpelledBack(tx.weight % TWO32, 4);
    SpelledBack(Round(tx.fee) % TWO64, 8);
    IdNamed(r, tx.txid);
    RoundNearest(tx.fee);
    TwoPowers();
    RecordWhole(r, tx, Round(tx.fee));
  }

  lemma TwoPowers()
    ensures TWO32 == 0x1_0000_0000 && TWO64 == 0x1_0000_0000_0000_0000
  {
  }

  lemma RecordWhole(r: seq<int>, tx: Ancestor, n: int)
    requires |r| == 44 && AreBytes(r) && NamesId(r, tx.txid) && WeightIn(r) == tx.weight % 0x1_0000_0000
    requires NearestTo(tx.fee, n) && FeeIn(r) == n % 0x1_0000_0000_0000_0000
    ensures IsRecord(r, tx)
  {
    hide AreBytes, NamesId, WeightIn, FeeIn, NearestTo;
  }

  lemma IdNamed(r: seq<int>, txid: string)
    requires IsTxid(txid) && |r| == 44 && r[..32] == IdBytes(txid)
    ensures NamesId(r, txid)
  {
    hide IsDigit, IdBytes, IsHex;
    forall k | 0 <= k < 32 ensures IsDigit(txid[62 - 2 * k], r[k] / 16) && IsDigit(txid[63 - 2 * k], r[k] % 16) {
      assert r[..32][k] == r[k];
      ByteNamed(txid, k);
    }
  }

  lemma ByteNamed(txid: string, k: int)
    requires IsTxid(txid) && 0 <= k < 32
    ensures IsDigit(txid[62 - 2 * k], IdBytes(txid)[k] / 16) && IsDigit(txid[63 - 2 * k], IdBytes(txid)[k] % 16)
  {
    hide IsDigit, HexValue, IsHex;
    DigitIs(txid[62 - 2 * k]);
    DigitIs(txid[63 - 2 * k]);
    Nibbles(HexValue(txid[62 - 2 * k]), HexValue(txid[63 - 2 * k]));
  }

  /** What is read from a record is its transaction. */
  lemma ParseIsParsed(r: seq<int>)
    requires |r| == 44 && forall i :: 0 <= i < 44 ==> 0 <= r[i] < 256
    ensures IsParsed(r, Parse(r))
  {
    NumbersIn(r);
    var id := IdOf(r[..32]);
    forall k | 0 <= k < 32 ensures IsDigit(id[62 - 2 * k], r[k] / 16) && IsDigit(id[63 - 2 * k], r[k] % 16) {
      var v := r[k];
      assert (62 - 2 * k) % 2 == 0 && (62 - 2 * k) / 2 == 31 - k && (63 - 2 * k) % 2 == 1 && (63 - 2 * k) / 2 == 31 - k;
      assert id[62 - 2 * k] == HexDigit(v / 16) && id[63 - 2 * k] == HexDigit(v % 16);
      DigitIs(HexDigit(v / 16));
      DigitIs(HexDigit(v % 16));
      hide IsDigit, HexDigit, HexValue;
    }
    hide IsDigit, IdOf, Spelled, WeightIn, FeeIn;
  }

  /** The record of each member is at its place in the buffer. */
  lemma {:induction false} PackedAt(txs: seq<Ancestor>, i: nat)
    requires AllTxids(txs) && i < |txs|
    ensures |Packed(txs)| == 44 * |txs| && Packed(txs)[44 * i..44 * i + 44] == Record(txs[i])
  {
    var n := |txs| - 1;
    hide Record;
    if i < n {
      PackedAt(txs[..n], i);
      assert Packed(txs)[44 * i..44 * i + 44] == Packed(txs[..n])[44 * i..44 * i + 44];
    }
  }

  lemma {:induction false} ParsedAt(bytes: seq<int>, n: nat, i: nat)
    requires |bytes| >= 44 * n && AreBytes(bytes) && i < n
    ensures |Parsed(bytes, n)| == n && IsParsed(bytes[44 * i..44 * i + 44], Parsed(bytes, n)[i])
  {
    hide Parse, IsParsed;
    ParsedLength(bytes, n);
    ParsedLength(bytes, n - 1);
    if i < n - 1 {
      ParsedAt(bytes, n - 1, i);
    } else {
      ParseIsParsed(bytes[44 * i..44 * i + 44]);
    }
  }

  lemma {:induction false} ParsedLength(bytes: seq<int>, n: nat)
    requires |bytes| >= 44 * n && AreBytes(bytes)
    ensures |Parsed(bytes, n)| == n
  {
    if n > 0 { ParsedLength(bytes, n - 1); }
    hide Parse;
  }

  /** The buffer holds the members' records and nothing else. */
  ghost predicate HoldsRecords(bytes: seq<int>, txs: seq<Ancestor>) {
    |bytes| == 44 * |txs| && forall i :: 0 <= i < |txs| ==> IsRecord(bytes[44 * i..44 * i + 44], txs[i])
  }

  /** The transactions are those of the records the buffer consists of. */
  ghost predicate ReadsRecords(bytes: seq<int>, txs: seq<Ancestor>) {
    |bytes| == 44 * |txs| && forall i :: 0 <= i < |txs| ==> IsParsed(bytes[44 * i..44 * i + 44], txs[i])
  }

  lemma PackedHolds(txs: seq<Ancestor>)
    requires AllTxids(txs)
    ensures HoldsRecords(Packed(txs), txs)
  {
    hide Packed, Record, IsRecord;
    forall i | 0 <= i < |txs| ensures IsRecord(Packed(txs)[44 * i..44 * i + 44], txs[i]) {
      PackedAt(txs, i);
      RecordIsRecord(txs[i]);
    }
  }

  lemma ParsedReads(bytes: seq<int>, n: nat)
    requires |bytes| == 44 * n && AreBytes(bytes)
    ensures ReadsRecords(bytes, Parsed(bytes, n))
  {
    ParsedLength(bytes, n);
    hide Parsed, IsParsed;
    forall i | 0 <= i < n ensures IsParsed(bytes[44 * i..44 * i + 44], Parsed(bytes, n)[i]) {
      ParsedAt(bytes, n, i);
    }
  }

  // ---------- the methods ----------

  /** Writes "width" bytes that spell "value", most significant first. */
  method SetUint(buf: array<int>, offset: int, width: int, value: int)
    requires 0 <= width && 0 <= offset && offset + width <= buf.Length
    modifies buf
    ensures buf[..offset] == old(buf[..offset]) && buf[offset..offset + width] == Spell(value, width) && buf[offset + width..] == old(buf[offset + width..])
  {
    var v := value;
    var k := width;
    while k > 0
      invariant 0 <= k <= width && buf[..offset + k] == old(buf[..offset + k]) && buf[offset + width..] == old(buf[offset + width..])
      invariant Spell(value, width) == Spell(v, k) + buf[offset + k..offset + width]
    {
      ghost var tail := buf[offset + k..offset + width];
      k := k - 1;
      buf[offset + k] := v % 256;
      assert buf[offset + k..offset + width] == [v % 256] + tail;
      assert Spell(v, k + 1) == Spell(v / 256, k) + [v % 256];
      v := v / 256;
    }
  }

  /** Writes the identifier's bytes, from the last position down. */
  method SetTxid(buf: array<int>, offset: int, txid: string)
    requires IsTxid(txid) && 0 <= offset && offset + 32 <= buf.Length
    modifies buf
    ensures buf[..offset] == old(buf[..offset]) && buf[offset..offset + 32] == IdBytes(txid) && buf[offset + 32..] == old(buf[offset + 32..])
  {
    hide HexValue;
    for x := 0 to 32
      invariant buf[..offset] == old(buf[..offset]) && buf[offset + 32..] == old(buf[offset + 32..])
      invariant forall k :: 32 - x <= k < 32 ==> buf[offset + k] == IdBytes(txid)[k]
    {
      buf[offset + (31 - x)] := 16 * HexValue(txid[2 * x]) + HexValue(txid[2 * x + 1]);
    }
  }

  method SetRecord(buf: array<int>, offset: int, tx: Ancestor)
    requires IsTxid(tx.txid) && 0 <= offset && offset + RECORD <= buf.Length
    modifies buf
    ensures buf[..offset] == old(buf[..offset]) && buf[offset..offset + RECORD] == Record(tx) && buf[offset + RECORD..] == old(buf[offset + RECORD..])
  {
    hide IdBytes, Spell, IsTxid, Round;
    SetTxid(buf, offset, tx.txid);
    ghost var id := buf[..offset + 32];
    SetUint(buf, offset + 32, 4, tx.weight % TWO32);
    ghost var weight := buf[..offset + 36];
    SetUint(buf, offset + 36, 8, Round(tx.fee) % TWO64);
    assert buf[..offset + 36] == weight && weight[..offset + 32] == id;
    assert buf[offset..offset + RECORD] == id[offset..] + weight[offset + 32..] + buf[offset + 36..offset + 44];
  }

  method Pack(txs: seq<Ancestor>) returns (buf: array<int>)
    requires AllTxids(txs)
    ensures buf[..] == Packed(txs) && HoldsRecords(buf[..], txs)
  {
    hide Record;
    buf := new int[RECORD * |txs|](_ => 0);
    assert txs[..0] == [];
    for i := 0 to |txs|
      invariant buf[..RECORD * i] == Packed(txs[..i])
    {
      PackedStep(txs, i);
      SetRecord(buf, RECORD * i, txs[i]);
      assert buf[..RECORD * (i + 1)] == buf[..RECORD * i] + buf[RECORD * i..RECORD * i + RECORD];
    }
    assert txs[..|txs|] == txs && buf[..] == buf[..RECORD * |txs|];
    PackedHolds(txs);
  }

  /** A missing buffer, or one that ends inside a record, gives nothing. */
  method Unpack(buf: Option<seq<int>>) returns (txs: seq<Ancestor>)
    requires buf.Some? ==> AreBytes(buf.value)
    ensures buf.None? ==> txs == []
    ensures buf.Some? && |buf.value| % 44 != 0 ==> txs == []
    ensures buf.Some? && |buf.value| % 44 == 0 ==> txs == Parsed(buf.value, |buf.value| / 44) && ReadsRecords(buf.value, txs)
  {
    txs := [];
    if buf.None? {
      return;
    }
    var bytes := buf.value;
    var offset := 0;
    ghost var n: nat := 0;
    while offset < |bytes|
      invariant offset == RECORD * n && offset <= |bytes| && txs == Parsed(bytes, n)
      decreases |bytes| - offset
    {
      if offset + RECORD > |bytes| {
        // reading past the end throws, and nothing is returned
        return [];
      }
      ByteBounds(bytes);
      assert bytes[RECORD * n..RECORD * (n + 1)] == bytes[offset..offset + RECORD];
      txs := txs + [Parse(bytes[offset..offset + RECORD])];
      offset := offset + RECORD;
      n := n + 1;
    }
    ParsedReads(bytes, n);
  }
}
