/** Redis stream entry ids: a pair of unsigned 64-bit numbers (milliseconds,
    sequence), ordered lexicographically, written "ms-seq". This module holds
    how XADD with '*' picks the next id and how commands read an id argument. */
module StreamIds {
  import opened Wrappers
  import opened Decimal

  const U64Max: nat := 0xFFFF_FFFF_FFFF_FFFF

  type U64 = x: int | 0 <= x <= 0xFFFF_FFFF_FFFF_FFFF

  datatype StreamId = StreamId(ms: U64, seqNo: U64)

  /** The smallest id, also what "-" and "0" stand for. */
  const Zero := StreamId(0, 0)

  /** The largest id, what "+" stands for. */
  const Last := StreamId(0xFFFF_FFFF_FFFF_FFFF, 0xFFFF_FFFF_FFFF_FFFF)

  predicate Below(a: StreamId, b: StreamId)
  {
    a.ms < b.ms || (a.ms == b.ms && a.seqNo < b.seqNo)
  }

  predicate AtMost(a: StreamId, b: StreamId)
  {
    a == b || Below(a, b)
  }

  predicate Within(lo: StreamId, id: StreamId, hi: StreamId)
  {
    AtMost(lo, id) && AtMost(id, hi)
  }

  /** The id right after `id`, if there is one. */
  function Incr(id: StreamId): (r: Option<StreamId>)
    ensures r.None? <==> id == Last
    ensures r.Some? ==> Below(id, r.value)
    ensures r.Some? ==> forall x :: Below(id, x) ==> AtMost(r.value, x)
  {
    if id.seqNo < U64Max then Some(StreamId(id.ms, id.seqNo + 1))
    else if id.ms < U64Max then Some(StreamId(id.ms + 1, 0))
    else None
  }

  /** The id right before `id`, if there is one. */
  function Decr(id: StreamId): (r: Option<StreamId>)
    ensures r.None? <==> id == Zero
    ensures r.Some? ==> Below(r.value, id)
    ensures r.Some? ==> forall x :: Below(x, id) ==> AtMost(x, r.value)
  {
    if id.seqNo > 0 then Some(StreamId(id.ms, id.seqNo - 1))
    else if id.ms > 0 then Some(StreamId(id.ms - 1, U64Max))
    else None
  }

  /** The id XADD with '*' gives a new entry when the stream's last id is
      `last` and the server clock reads `nowMs`; None when the stream has
      exhausted the last possible id. */
  function NextId(last: StreamId, nowMs: U64): (r: Option<StreamId>)
    ensures r.None? <==> last == Last
    ensures r.Some? ==> Below(last, r.value) && r.value.ms >= nowMs
    ensures r.Some? ==> forall x :: Below(last, x) && x.ms >= nowMs ==> AtMost(r.value, x)
  {
    if last == Last then None
    else if nowMs > last.ms then Some(StreamId(nowMs, 0))
    else Incr(last)
  }

  /** Only digits and '-', the characters of a numeric id argument. */
  predicate IdChars(s: string)
  {
    forall i :: 0 <= i < |s| ==> IsDigit(s[i]) || s[i] == '-'
  }

  /** How Redis replies with an id: "ms-seq" in decimal, at most 41
      characters, digits around one '-'. */
  function IdToString(id: StreamId): (s: string)
    ensures 3 <= |s| <= 41
    ensures IsDigit(s[0]) && IsDigit(s[|s| - 1]) && IdChars(s)
  {
    U64Digits(id.ms);
    U64Digits(id.seqNo);
    var a, b := NatToString(id.ms), NatToString(id.seqNo);
    assert forall i :: 0 <= i < |a| ==> (a + "-" + b)[i] == a[i];
    assert forall i :: |a| < i < |a| + 1 + |b| ==> (a + "-" + b)[i] == b[i - |a| - 1];
    a + "-" + b
  }

  /** The first position of `c` in `s`. */
  function IndexOf(s: string, c: char): (r: Option<nat>)
    ensures r.Some? ==> r.value < |s| && s[r.value] == c
    ensures r.Some? ==> forall i :: 0 <= i < r.value ==> s[i] != c
    ensures r.None? ==> forall i :: 0 <= i < |s| ==> s[i] != c
  {
    if s == [] then None
    else if s[0] == c then Some(0)
    else match IndexOf(s[1..], c)
      case None => None
      case Some(k) => Some(k + 1)
  }

  /** A decimal digit string whose value fits in 64 bits. */
  function ParseU64(s: string): (r: Option<U64>)
    ensures r.Some? ==> ParseNat(s) == Some(r.value)
    ensures r.None? ==> ParseNat(s).None? || ParseNat(s).value > U64Max
  {
    match ParseNat(s)
    case Some(n) => if n <= U64Max then Some(n) else None
    case None => None
  }

  /** How a command reads an id argument: "-" and "+" (refused when
      `strict`), "ms" (the sequence then is `missingSeq`) and "ms-seq";
      anything else, or an argument of 128 characters or more, is an error. */
  function ParseId(s: string, missingSeq: U64, strict: bool): (r: Option<StreamId>)
    ensures |s| > 127 ==> r.None?
    ensures s == "-" ==> r == if strict then None else Some(Zero)
    ensures s == "+" ==> r == if strict then None else Some(Last)
    ensures r.Some? && s != "-" && s != "+" ==>
              |s| > 0 && IsDigit(s[0]) && IdChars(s)
    ensures r.Some? && AllDigits(s) ==> ParseNat(s) == Some(r.value.ms) && r.value.seqNo == missingSeq
    ensures 0 < |s| <= 127 && AllDigits(s) && DigitsValue(s) <= U64Max ==>
              r == Some(StreamId(DigitsValue(s), missingSeq))
  {
    if |s| > 127 then None
    else if s == "-" then (if strict then None else Some(Zero))
    else if s == "+" then (if strict then None else Some(Last))
    else
      match IndexOf(s, '-')
      case None =>
        assert s != [] ==> s[0] != '-';
        (match ParseU64(s)
         case Some(ms) => Some(StreamId(ms, missingSeq))
         case None => None)
      case Some(d) =>
        (match (ParseU64(s[..d]), ParseU64(s[d + 1..]))
         case (Some(ms), Some(sq)) =>
           assert forall i :: 0 <= i < d ==> s[i] == s[..d][i];
           assert forall i :: d < i < |s| ==> s[i] == s[d + 1..][i - d - 1];
           Some(StreamId(ms, sq))
         case _ => None)
  }

  /** An id argument that must name one id, as XACK and XGROUP CREATE read it:
      "-" and "+" are refused, and an incomplete "ms" is read with sequence 0. */
  function StrictId(s: string): (r: Option<StreamId>)
    ensures s == "-" || s == "+" ==> r.None?
    ensures s != "-" && s != "+" ==> r == ParseId(s, 0, false)
  {
    ParseId(s, 0, true)
  }

  /** The start bound of XRANGE: "(" in front makes it exclusive, so the
      bound is then the first id after the one written; otherwise the
      argument is read as an id, with an incomplete "ms" starting at sequence 0. */
  function IntervalStart(s: string): (r: Option<StreamId>)
    ensures |s| > 1 && s[0] == '(' ==>
              var p := StrictId(s[1..]);
              && (r.Some? <==> p.Some? && p.value != Last)
              && (r.Some? ==> forall x :: AtMost(r.value, x) <==> Below(p.value, x))
    ensures !(|s| > 1 && s[0] == '(') ==> r == ParseId(s, 0, false)
  {
    if |s| > 1 && s[0] == '(' then
      match ParseId(s[1..], 0, true)
      case Some(id) => Incr(id)
      case None => None
    else
      ParseId(s, 0, false)
  }

  /** The end bound of XRANGE: "(" in front makes it exclusive, so the bound
      is then the last id before the one written; an incomplete "ms" reaches
      the largest sequence. */
  function IntervalEnd(s: string): (r: Option<StreamId>)
    ensures |s| > 1 && s[0] == '(' ==>
              var p := ParseId(s[1..], U64Max, true);
              && (r.Some? <==> p.Some? && p.value != Zero)
              && (r.Some? ==> forall x :: AtMost(x, r.value) <==> Below(x, p.value))
    ensures !(|s| > 1 && s[0] == '(') ==> r == ParseId(s, U64Max, false)
  {
    if |s| > 1 && s[0] == '(' then
      match ParseId(s[1..], U64Max, true)
      case Some(id) => Decr(id)
      case None => None
    else
      ParseId(s, U64Max, false)
  }

  /** Whether XRANGE key `query` `query` would include the entry `id`. */
  predicate IdMatches(query: string, id: StreamId)
  {
    match (IntervalStart(query), IntervalEnd(query))
    case (Some(lo), Some(hi)) => Within(lo, id, hi)
    case _ => false
  }

  lemma U64Digits(n: U64)
    ensures |NatToString(n)| <= 20
  {
    // unfolded in steps: the verifier evaluates Pow10 on literals only a few levels deep
    assert Pow10(5) == 100_000;
    assert Pow10(10) == 10_000_000_000;
    assert Pow10(15) == 1_000_000_000_000_000;
    assert Pow10(20) == 100_000_000_000_000_000_000;
    NatToStringLength(n, 20);
  }

  /** An "ms-seq" argument of two digit runs whose values fit in 64 bits is
      read as that id, whatever the argument kind. */
  lemma ParseIdSplit(a: string, b: string, missingSeq: U64, strict: bool)
    requires 0 < |a| && AllDigits(a) && DigitsValue(a) <= U64Max
    requires 0 < |b| && AllDigits(b) && DigitsValue(b) <= U64Max
    requires |a| + 1 + |b| <= 127
    ensures ParseId(a + "-" + b, missingSeq, strict) == Some(StreamId(DigitsValue(a), DigitsValue(b)))
  {
    var s := a + "-" + b;
    IndexOfAfterDigits(a, b);
    assert s[..|a|] == a;
    assert s[|a| + 1..] == b;
  }

  lemma IndexOfAfterDigits(a: string, b: string)
    requires AllDigits(a)
    ensures IndexOf(a + "-" + b, '-') == Some(|a|)
  {
    var s := a + "-" + b;
    assert s[|a|] == '-';
    assert forall i :: 0 <= i < |a| ==> s[i] == a[i];
  }

  /** The string Redis replies with has exactly one '-', strictly inside,
      and digits everywhere else. */
  lemma IdToStringShape(id: StreamId)
    ensures var s := IdToString(id);
            exists k :: 0 < k < |s| - 1 && s[k] == '-' && forall i :: 0 <= i < |s| && i != k ==> IsDigit(s[i])
  {
    var a, b := NatToString(id.ms), NatToString(id.seqNo);
    var s := IdToString(id);
    assert s == a + "-" + b;
    assert s[|a|] == '-';
    assert forall i :: 0 <= i < |a| ==> s[i] == a[i];
    assert forall i :: |a| < i < |s| ==> s[i] == b[i - |a| - 1];
  }

  /** The converse of ParseIdSplit: an accepted argument other than "-",
      "+" and a bare "ms" splits at its first '-' into two non-empty digit
      runs whose values fit in 64 bits, and it reads as the id of those
      values. So "5-", "5-3-2" and a sequence past 2^64-1 are refused. */
  lemma ParseIdDashForm(s: string, missingSeq: U64, strict: bool)
    requires ParseId(s, missingSeq, strict).Some? && s != "-" && s != "+" && !AllDigits(s)
    ensures IndexOf(s, '-').Some?
    ensures var d := IndexOf(s, '-').value;
            && 0 < d < |s| - 1
            && AllDigits(s[..d]) && DigitsValue(s[..d]) <= U64Max
            && AllDigits(s[d + 1..]) && DigitsValue(s[d + 1..]) <= U64Max
            && ParseId(s, missingSeq, strict) == Some(StreamId(DigitsValue(s[..d]), DigitsValue(s[d + 1..])))
  {
  }

  /** Two dash forms Redis refuses: a missing sequence and a second '-'. */
  lemma MalformedDashRefused()
    ensures ParseId("5-", 0, false).None?
    ensures ParseId("5-3-2", 0, false).None?
  {
    assert IndexOf("5-", '-') == Some(1);
    assert "5-"[2..] == [];
    assert IndexOf("5-3-2", '-') == Some(1);
    assert "5-3-2"[2..] == "3-2";
    assert !AllDigits("3-2") by { assert "3-2"[1] == '-'; }
  }

  /** Every id Redis writes reads back as itself, whatever the argument kind. */
  lemma ParseIdRoundTrip(id: StreamId, missingSeq: U64, strict: bool)
    ensures ParseId(IdToString(id), missingSeq, strict) == Some(id)
  {
    U64Digits(id.ms);
    U64Digits(id.seqNo);
    NatToStringRoundTrip(id.ms);
    NatToStringRoundTrip(id.seqNo);
    ParseIdSplit(NatToString(id.ms), NatToString(id.seqNo), missingSeq, strict);
  }

  lemma IdToStringInjective(a: StreamId, b: StreamId)
    ensures IdToString(a) == IdToString(b) <==> a == b
  {
    ParseIdRoundTrip(a, 0, true);
    ParseIdRoundTrip(b, 0, true);
  }

  /** Looking up the written form of an id selects that id and no other. */
  lemma MatchesOwnId(id: StreamId, x: StreamId)
    ensures IdMatches(IdToString(id), x) <==> x == id
  {
    var s := IdToString(id);
    ParseIdRoundTrip(id, 0, false);
    ParseIdRoundTrip(id, U64Max, false);
    assert s[0] != '(' by {
      assert IsDigit(NatToString(id.ms)[0]);
      assert s[0] == NatToString(id.ms)[0];
    }
  }

  /** An id argument with no sequence part, "ms", is read by XRANGE as every
      id with those milliseconds. */
  lemma MatchesMillis(ms: U64, x: StreamId)
    ensures IdMatches(NatToString(ms), x) <==> x.ms == ms
  {
    var s := NatToString(ms);
    U64Digits(ms);
    NatToStringRoundTrip(ms);
    assert IsDigit(s[0]);
    assert s != "-" && s != "+";
  }

  /** XGROUP CREATE reads its start id strictly, and "0" is 0-0. */
  lemma GroupStartIsZero()
    ensures StrictId("0") == Some(Zero)
  {
    assert IndexOf("0", '-') == None;
    assert ParseNat("0") == Some(0) by {
      assert DigitsValue("0") == DigitsValue("0"[..0]) * 10 + DigitValue('0');
      assert "0"[..0] == [];
    }
  }
}
