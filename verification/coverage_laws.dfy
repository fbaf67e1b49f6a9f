// What accepted coverage says, field by field.
module CoverageLaws {
  import opened Basics
  import opened Bytes
  import opened Manifest
  import opened Coverage

  // ---------- hashes ----------

  function HexValue(b: Byte): int {
    if b <= 57 then b - 48 else b - 87
  }

  lemma {:induction false} HexAt(d: Text, i: nat)
    requires i < |d|
    ensures |Hex(d)| == 2 * |d| && Hex(d)[2 * i] == HexDigit(d[i] / 16) && Hex(d)[2 * i + 1] == HexDigit(d[i] % 16)
  {
    if |d| > 1 {
      HexAt(d[1..], if i > 0 then i - 1 else 0);
    }
  }

  // A hash is what 32 bytes are written as in lower-case hexadecimal, and nothing else is.
  lemma {:induction false} HashIsHex(d: Text)
    requires |d| == 32
    ensures IsHash(Hex(d))
  {
    HexAt(d, 0);
    forall i | 0 <= i < 64 ensures 48 <= Hex(d)[i] <= 57 || 97 <= Hex(d)[i] <= 102 {
      HexAt(d, i / 2);
      assert i == 2 * (i / 2) || i == 2 * (i / 2) + 1;
    }
  }

  predicate IsHexDigit(b: Byte) {
    48 <= b <= 57 || 97 <= b <= 102
  }

  lemma {:induction false} TwoDigits(a: Byte, b: Byte)
    requires IsHexDigit(a) && IsHexDigit(b)
    ensures var n := 16 * HexValue(a) + HexValue(b);
            0 <= n < 256 && HexDigit(n / 16) == a && HexDigit(n % 16) == b
  {
  }

  // The byte that two digits of a hash stand for.
  function ByteAt(t: Text, k: nat): Byte
    requires IsHash(t) && k < 32
  {
    TwoDigits(t[2 * k], t[2 * k + 1]);
    16 * HexValue(t[2 * k]) + HexValue(t[2 * k + 1])
  }

  lemma {:induction false} HexIsHash(t: Text) returns (d: Text)
    requires IsHash(t)
    ensures |d| == 32 && Hex(d) == t
  {
    hide HexDigit, HexValue;
    d := seq(32, k requires 0 <= k < 32 => ByteAt(t, k));
    HexAt(d, 0);
    forall k | 0 <= k < 32 ensures Hex(d)[2 * k] == t[2 * k] && Hex(d)[2 * k + 1] == t[2 * k + 1] {
      HexAt(d, k);
      TwoDigits(t[2 * k], t[2 * k + 1]);
    }
    forall i | 0 <= i < 64 ensures Hex(d)[i] == t[i] {
      assert i == 2 * (i / 2) || i == 2 * (i / 2) + 1;
    }
  }

  // ---------- rows ----------

  // The offsets are the canonical decimals of the positive numbers up to the largest.
  lemma {:induction false} OffsetsAreDecimal(raw: Text, n: int)
    ensures PositiveDecimal(raw) == Some(n) <==> raw == Decimal(n) && 0 < n <= MAX_OFFSET
  {
    if raw == Decimal(n) && 0 < n <= MAX_OFFSET {
      DecimalOfOffset(n);
    }
  }

  // A complete prefix, field by field.
  lemma {:induction false} CompleteSays(producer: Text, through: int, rows: seq<Row>)
    ensures Complete(producer, through, rows) <==>
              producer != [] && 1 <= through == |rows| <= MAX_OFFSET
              && forall i :: 0 <= i < |rows| ==>
                   var r := rows[i];
                   r.offset == Decimal(i + 1) && r.producer == producer && r.eventId != [] && r.receiptId != []
                   && r.subject.authorityId != [] && r.subject.tenantId != [] && r.subject.subjectId != []
                   && r.inputHash == r.sourceHash && IsHash(r.inputHash) && r.spec != [] && r.intact
  {
    hide IsHash, PositiveDecimal;
    forall i | 0 <= i < |rows|
      ensures PositiveDecimal(rows[i].offset) == Some(i + 1)
              <==> rows[i].offset == Decimal(i + 1) && 0 < i + 1 <= MAX_OFFSET
    {
      OffsetsAreDecimal(rows[i].offset, i + 1);
    }
    if Complete(producer, through, rows) {
      assert RowAt(producer, rows[|rows| - 1], |rows|);
    }
  }
}
