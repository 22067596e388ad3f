/** Decimal text of integers, as Go's strconv prints and parses it, and the two
    encodings the scanner builds from it: the operation id and the checkpoint value. */
module Numerals {
  import opened Wrappers

  const INT64_MIN: int := -0x8000_0000_0000_0000
  const INT64_MAX: int := 0x7FFF_FFFF_FFFF_FFFF
  const UINT32_RANGE: int := 0x1_0000_0000

  predicate IsDigit(c: char) {
    '0' <= c <= '9'
  }

  predicate AllDigits(s: string) {
    forall i :: 0 <= i < |s| ==> IsDigit(s[i])
  }

  function DigitChar(d: nat): char
    requires d < 10
  {
    '0' + d as char
  }

  function DigitValue(c: char): nat
    requires IsDigit(c)
  {
    (c - '0') as nat
  }

  function NatText(n: nat): (s: string)
    ensures s != [] && AllDigits(s)
  {
    if n < 10 then [DigitChar(n)] else NatText(n / 10) + [DigitChar(n % 10)]
  }

  function NatValue(s: string): nat
    requires AllDigits(s)
  {
    if s == [] then 0 else 10 * NatValue(s[..|s| - 1]) + DigitValue(s[|s| - 1])
  }

  /** strconv.Itoa */
  function Itoa(n: int): (s: string)
    ensures s != [] && AllDigits(if s[0] == '-' then s[1..] else s)
  {
    if n < 0 then "-" + NatText(-n) else NatText(n)
  }

  /** strconv.Atoi, which json.Number.Int64 agrees with on a 64-bit machine: an optional
      sign, at least one digit, nothing else, and a value inside int64. */
  function Atoi(s: string): (r: Option<int>)
    ensures r.Some? ==> INT64_MIN <= r.value <= INT64_MAX
  {
    var signed := s != [] && (s[0] == '-' || s[0] == '+');
    var digits := if signed then s[1..] else s;
    if digits == [] || !AllDigits(digits) then None
    else
      var m: int := NatValue(digits);
      var v := if signed && s[0] == '-' then -m else m;
      if INT64_MIN <= v <= INT64_MAX then Some(v) else None
  }

  lemma {:induction false} NatTextValue(n: nat)
    ensures NatValue(NatText(n)) == n
  {
    if n >= 10 {
      NatTextValue(n / 10);
      var s := NatText(n);
      assert s[..|s| - 1] == NatText(n / 10);
    }
  }

  /** What Itoa prints, Atoi reads back: on all of int64 and on nothing else. */
  lemma AtoiItoa(n: int)
    ensures Atoi(Itoa(n)) == if INT64_MIN <= n <= INT64_MAX then Some(n) else None
  {
    if n < 0 {
      NatTextValue(-n);
      assert Itoa(n)[0] == '-' && Itoa(n)[1..] == NatText(-n);
    } else {
      NatTextValue(n);
      var c := NatText(n)[0];
      assert IsDigit(c) && c != '-' && c != '+';
    }
  }

  /** Digits with a sign or none, and their value. */
  predicate Spells(s: string, digits: string, n: int) {
    && digits != [] && AllDigits(digits)
    && var m: int := NatValue(digits);
       (s == digits && n == m) || (s == "+" + digits && n == m) || (s == "-" + digits && n == -m)
  }

  /** Atoi reads exactly these, if int64 holds the value. */
  lemma AtoiExactly(s: string, n: int)
    ensures Atoi(s) == Some(n) <==> INT64_MIN <= n <= INT64_MAX && exists digits :: Spells(s, digits, n)
  {
    if s != [] && (s[0] == '-' || s[0] == '+') {
      assert s == [s[0]] + s[1..];
      assert Atoi(s) == Some(n) ==> Spells(s, s[1..], n);
    } else {
      assert Atoi(s) == Some(n) ==> Spells(s, s, n);
    }
    if digits :| Spells(s, digits, n) {
      assert IsDigit(digits[0]);
      assert s != digits ==> s[1..] == digits;
    }
  }

  // ---- the operation id  blockNum@trxid@opNum ----

  /** GetBaseOperationId */
  function OperationId(blockNum: nat, txid: string, opNum: nat): string {
    Itoa(blockNum) + "@" + txid + "@" + Itoa(opNum)
  }

  function FirstAt(s: string): (i: nat)
    ensures i <= |s|
    ensures forall j :: 0 <= j < i ==> s[j] != '@'
    ensures i < |s| ==> s[i] == '@'
  {
    if s == [] || s[0] == '@' then 0 else 1 + FirstAt(s[1..])
  }

  function LastAt(s: string): (i: int)
    ensures -1 <= i < |s|
    ensures forall j :: i < j < |s| ==> s[j] != '@'
    ensures i >= 0 ==> s[i] == '@'
  {
    if s == [] then -1
    else if s[|s| - 1] == '@' then |s| - 1
    else LastAt(s[..|s| - 1])
  }

  datatype OperationKey = OperationKey(blockNum: int, txid: string, opNum: int)

  /** Reads an operation id back: block number before the first '@', operation number
      after the last one, and whatever lies between is the transaction id. */
  function ParseOperationId(s: string): Option<OperationKey> {
    ParseBetween(s, FirstAt(s), LastAt(s))
  }

  function ParseBetween(s: string, f: nat, l: int): Option<OperationKey>
    requires l < |s|
  {
    if f >= l then None
    else
      var b, o := Atoi(s[..f]), Atoi(s[l + 1..]);
      if b.Some? && o.Some? then Some(OperationKey(b.value, s[f + 1..l], o.value)) else None
  }

  predicate NoAt(s: string) {
    forall i :: 0 <= i < |s| ==> s[i] != '@'
  }

  lemma {:induction false} FirstAtPrefix(b: string, rest: string)
    requires NoAt(b)
    ensures FirstAt(b + ("@" + rest)) == |b|
  {
    var s := b + ("@" + rest);
    if b != [] {
      FirstAtPrefix(b[1..], rest);
      assert s[1..] == b[1..] + ("@" + rest);
      assert s[0] == b[0];
    }
  }

  lemma {:induction false} LastAtSuffix(front: string, o: string)
    requires NoAt(o)
    ensures LastAt(front + "@" + o) == |front|
  {
    var s := front + "@" + o;
    if o != [] {
      LastAtSuffix(front, o[..|o| - 1]);
      assert s[..|s| - 1] == front + "@" + o[..|o| - 1];
      assert s[|s| - 1] == o[|o| - 1];
    }
  }

  lemma IdSlices(b: string, t: string, o: string)
    ensures var s := b + "@" + t + "@" + o;
            && |s| == |b| + |t| + |o| + 2
            && s[..|b|] == b && s[|b| + 1..|b| + 1 + |t|] == t && s[|b| + 1 + |t| + 1..] == o
  {
  }

  /** Where the two outermost '@' of an operation id stand. */
  lemma IdMarks(b: string, t: string, o: string)
    requires NoAt(b) && NoAt(o)
    ensures var s := b + "@" + t + "@" + o;
            FirstAt(s) == |b| && LastAt(s) == |b| + 1 + |t|
  {
    FirstAtPrefix(b, t + "@" + o);
    assert b + ("@" + (t + "@" + o)) == b + "@" + t + "@" + o;
    LastAtSuffix(b + "@" + t, o);
  }

  lemma NatTextNoAt(n: nat)
    ensures NoAt(NatText(n))
  {
    forall i | 0 <= i < |NatText(n)| ensures NatText(n)[i] != '@' {
      assert IsDigit(NatText(n)[i]);
    }
  }

  /** Round trip, whatever characters (also '@') the transaction id holds. */
  lemma OperationIdRoundTrip(blockNum: nat, txid: string, opNum: nat)
    requires blockNum <= INT64_MAX && opNum <= INT64_MAX
    ensures ParseOperationId(OperationId(blockNum, txid, opNum)) == Some(OperationKey(blockNum, txid, opNum))
  {
    NatTextNoAt(blockNum);
    NatTextNoAt(opNum);
    AtoiItoa(blockNum);
    AtoiItoa(opNum);
    ParseParts(Itoa(blockNum), txid, Itoa(opNum), blockNum, opNum);
  }

  lemma ParseParts(b: string, t: string, o: string, bv: int, ov: int)
    requires NoAt(b) && NoAt(o)
    requires Atoi(b) == Some(bv) && Atoi(o) == Some(ov)
    ensures ParseOperationId(b + "@" + t + "@" + o) == Some(OperationKey(bv, t, ov))
  {
    IdMarks(b, t, o);
    IdSlices(b, t, o);
    ParseMarked(b + "@" + t + "@" + o, |b|, |b| + 1 + |t|, b, t, o, bv, ov);
  }

  lemma ParseMarked(s: string, f: nat, l: int, b: string, t: string, o: string, bv: int, ov: int)
    requires f == FirstAt(s) && l == LastAt(s) && f < l < |s|
    requires s[..f] == b && s[f + 1..l] == t && s[l + 1..] == o
    requires Atoi(b) == Some(bv) && Atoi(o) == Some(ov)
    ensures ParseOperationId(s) == Some(OperationKey(bv, t, ov))
  {
    ParseAt(s, f, l, b, t, o, bv, ov);
  }

  lemma ParseAt(s: string, f: nat, l: int, b: string, t: string, o: string, bv: int, ov: int)
    requires f < l < |s|
    requires s[..f] == b && s[f + 1..l] == t && s[l + 1..] == o
    requires Atoi(b) == Some(bv) && Atoi(o) == Some(ov)
    ensures ParseBetween(s, f, l) == Some(OperationKey(bv, t, ov))
  {
  }

  /** Equal id texts have equal parts. */
  lemma IdTextInjective(b1: string, t1: string, o1: string, b2: string, t2: string, o2: string)
    requires NoAt(b1) && NoAt(o1) && NoAt(b2) && NoAt(o2)
    requires b1 + "@" + t1 + "@" + o1 == b2 + "@" + t2 + "@" + o2
    ensures b1 == b2 && t1 == t2 && o1 == o2
  {
    IdMarks(b1, t1, o1);
    IdMarks(b2, t2, o2);
    assert |b1| == |b2| && |t1| == |t2|;
    IdSlices(b1, t1, o1);
    IdSlices(b2, t2, o2);
  }

  /** Two operations share an id only if they are the same operation; no int64 bound. */
  lemma OperationIdInjective(b1: nat, t1: string, o1: nat, b2: nat, t2: string, o2: nat)
    requires OperationId(b1, t1, o1) == OperationId(b2, t2, o2)
    ensures b1 == b2 && t1 == t2 && o1 == o2
  {
    NatTextNoAt(b1);
    NatTextNoAt(o1);
    NatTextNoAt(b2);
    NatTextNoAt(o2);
    IdTextInjective(NatText(b1), t1, NatText(o1), NatText(b2), t2, NatText(o2));
    NatTextValue(b1);
    NatTextValue(b2);
    NatTextValue(o1);
    NatTextValue(o2);
  }

  // ---- the checkpoint value ----

  /** The uint32 conversion of the parsed configuration value: truncation modulo 2^32. */
  function CheckpointOf(text: string): (r: Option<nat>)
    ensures r.Some? ==> r.value < UINT32_RANGE
  {
    match Atoi(text)
    case Some(v) => Some(v % UINT32_RANGE)
    case None => None
  }

  /** Writing v and reading it back gives v exactly for the block numbers a uint32 holds;
      any other value inside int64 is silently reduced modulo 2^32. */
  lemma CheckpointRoundTrip(v: int)
    requires INT64_MIN <= v <= INT64_MAX
    ensures CheckpointOf(Itoa(v)) == Some(v) <==> 0 <= v < UINT32_RANGE
    ensures CheckpointOf(Itoa(v)) == Some(v % UINT32_RANGE)
  {
    AtoiItoa(v);
  }
}
