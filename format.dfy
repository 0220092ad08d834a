// The decimal formatting the producers use: "%d" and "%04d" of fmt.Sprintf,
// and the "rec-%04d" record identifiers built from them
// (pkg/pipeline/producer.go, src/main.go).

module Format {
  import opened Types

  predicate IsDigit(c: char) { '0' <= c <= '9' }

  function DigitChar(d: nat): (c: char)
    requires d < 10
    ensures IsDigit(c) && c as int - '0' as int == d
  {
    ['0', '1', '2', '3', '4', '5', '6', '7', '8', '9'][d]
  }

  /** "%d" of a non-negative integer: its decimal digits without leading zeros. */
  function Decimal(n: nat): (s: string)
    ensures 1 <= |s| && forall i :: 0 <= i < |s| ==> IsDigit(s[i])
    ensures n < 10 <==> |s| == 1
  {
    if n < 10 then [DigitChar(n)] else Decimal(n / 10) + [DigitChar(n % 10)]
  }

  /** "%0<width>d": pads with zeros on the left up to the width, never truncates. */
  function ZeroPad(s: string, width: nat): (p: string)
    ensures |p| == if |s| < width then width else |s|
    ensures p[|p| - |s|..] == s
    ensures forall i :: 0 <= i < |p| - |s| ==> p[i] == '0'
  {
    if |s| < width then seq(width - |s|, _ => '0') + s else s
  }

  const RecordIdPrefix := "rec-"

  /** fmt.Sprintf("rec-%04d", i). */
  function RecordId(i: nat): (id: string)
    ensures |id| >= 8 && id[..4] == RecordIdPrefix
  {
    RecordIdPrefix + ZeroPad(Decimal(i), 4)
  }

  /** The value of a string of decimal digits, leading zeros allowed. */
  function DigitsValue(s: string): nat
    requires forall i :: 0 <= i < |s| ==> IsDigit(s[i])
  {
    if s == [] then 0 else 10 * DigitsValue(s[..|s| - 1]) + DigitValue(s[|s| - 1])
  }

  function DigitValue(c: char): nat
    requires IsDigit(c)
  {
    c as int - '0' as int
  }

  /** Reads an identifier back: the prefix, then one or more digits. */
  function ParseRecordId(id: string): Option<nat> {
    if |id| > |RecordIdPrefix| && id[..|RecordIdPrefix|] == RecordIdPrefix
       && forall i :: |RecordIdPrefix| <= i < |id| ==> IsDigit(id[i])
    then Some(DigitsValue(id[|RecordIdPrefix|..]))
    else None
  }

  lemma {:induction false} DecimalValue(n: nat)
    ensures DigitsValue(Decimal(n)) == n
  {
    if n >= 10 {
      var s := Decimal(n);
      assert s[..|s| - 1] == Decimal(n / 10);
      DecimalValue(n / 10);
    }
  }

  /** Leading zeros do not change the value. */
  lemma {:induction false} LeadingZerosValue(z: nat, s: string)
    requires forall i :: 0 <= i < |s| ==> IsDigit(s[i])
    ensures DigitsValue(seq(z, _ => '0') + s) == DigitsValue(s)
  {
    var t := seq(z, _ => '0') + s;
    if s == [] {
      if z > 0 {
        assert t[..|t| - 1] == seq(z - 1, _ => '0') + s;
        LeadingZerosValue(z - 1, s);
      }
    } else {
      assert t[..|t| - 1] == seq(z, _ => '0') + s[..|s| - 1];
      LeadingZerosValue(z, s[..|s| - 1]);
    }
  }

  /** Padding keeps a digit string a digit string of the same value. */
  lemma ZeroPadValue(s: string, width: nat)
    requires forall i :: 0 <= i < |s| ==> IsDigit(s[i])
    ensures forall i :: 0 <= i < |ZeroPad(s, width)| ==> IsDigit(ZeroPad(s, width)[i])
    ensures DigitsValue(ZeroPad(s, width)) == DigitsValue(s)
  {
    if |s| < width {
      LeadingZerosValue(width - |s|, s);
    }
  }

  /** Every identifier reads back as the index it was made from, so no two
      records of one run share an identifier. */
  lemma RecordIdRoundTrip(i: nat)
    ensures ParseRecordId(RecordId(i)) == Some(i)
  {
    var padded := ZeroPad(Decimal(i), 4);
    ZeroPadValue(Decimal(i), 4);
    DecimalValue(i);
    var id := RecordIdPrefix + padded;
    assert id[|RecordIdPrefix|..] == padded;
  }

  lemma RecordIdInjective(i: nat, j: nat)
    requires RecordId(i) == RecordId(j)
    ensures i == j
  {
    RecordIdRoundTrip(i);
    RecordIdRoundTrip(j);
  }
}
