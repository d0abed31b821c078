/**
 The text form of batch ids and attempt ids: zero-padded decimal numerals, the
 pattern that reads a batch number back, and the dashboard's own way of reading it.
 */
module BatchIds {
  import opened Collections

  predicate IsDigit(c: char) {
    '0' <= c <= '9'
  }

  predicate AllDigits(s: string) {
    forall i :: 0 <= i < |s| ==> IsDigit(s[i])
  }

  /** The decimal numeral of n, without padding. */
  function Decimal(n: nat): (s: string)
    ensures |s| > 0 && AllDigits(s)
  {
    if n < 10 then ["0123456789"[n]] else Decimal(n / 10) + ["0123456789"[n % 10]]
  }

  /** Python's `f"{n:03d}"`. */
  function Pad3(n: nat): (s: string)
    ensures |s| >= 3 && AllDigits(s)
  {
    var d := Decimal(n);
    if |d| == 1 then "00" + d else if |d| == 2 then "0" + d else d
  }

  /** The number a string of decimal digits denotes. */
  function Value(s: string): nat
    requires AllDigits(s)
  {
    if |s| == 0 then 0 else 10 * Value(s[..|s| - 1]) + (s[|s| - 1] as int - '0' as int)
  }

  /** The longest prefix of s that is made of digits. */
  function DigitRun(s: string): (r: string)
    ensures r <= s && AllDigits(r)
    ensures |r| < |s| ==> !IsDigit(s[|r|])
  {
    if |s| == 0 || !IsDigit(s[0]) then "" else [s[0]] + DigitRun(s[1..])
  }

  const PREFIX: string := "batch_"

  /** The id `create_batch` gives to the batch with this sequence number. */
  function BatchId(sequence: nat, suffix: string): string {
    PREFIX + Pad3(sequence) + "_" + suffix
  }

  /** The number found by the regular expression `batch_(\d+)` at the start of an id. */
  function MatchIndex(id: string): Option<nat> {
    if PREFIX <= id && |DigitRun(id[|PREFIX|..])| > 0 then Some(Value(DigitRun(id[|PREFIX|..]))) else None
  }

  /** The settlement service's `batch_index`. */
  function BatchIndex(id: string): nat {
    match MatchIndex(id)
    case Some(n) => n
    case None => 1
  }

  /** The position of the first underscore at or after i, or the length of s. */
  function UnderscoreFrom(s: string, i: nat): (j: nat)
    requires i <= |s|
    ensures i <= j <= |s| && '_' !in s[i..j]
    ensures j < |s| ==> s[j] == '_'
    decreases |s| - i
  {
    if i == |s| || s[i] == '_' then i
    else
      var j := UnderscoreFrom(s, i + 1);
      assert s[i..j] == [s[i]] + s[i + 1..j];
      j
  }

  /** The dashboard's `int(id.split("_")[1])`; None where Python raises an error. */
  function SplitIndex(id: string): Option<nat> {
    var a := UnderscoreFrom(id, 0);
    if a == |id| then None
    else
      var part := id[a + 1..UnderscoreFrom(id, a + 1)];
      if |part| > 0 && AllDigits(part) then Some(Value(part)) else None
  }

  /** The attempt id of a payment's n-th attempt. */
  function AttemptId(paymentId: string, attempt: nat): string {
    paymentId + ":attempt:" + Decimal(attempt)
  }

  lemma {:induction false} ValueOfDecimal(n: nat)
    ensures Value(Decimal(n)) == n
  {
    if n >= 10 {
      ValueOfDecimal(n / 10);
      var d := Decimal(n);
      assert d[..|d| - 1] == Decimal(n / 10);
    } else {
      assert Decimal(n)[..0] == "";
    }
  }

  lemma {:induction false} ValueLeadingZero(s: string)
    requires AllDigits(s)
    ensures AllDigits("0" + s) && Value("0" + s) == Value(s)
  {
    var t := "0" + s;
    assert AllDigits(t);
    if |s| == 0 {
      assert t[..0] == "";
      assert Value(t) == 10 * Value("") + 0;
    } else {
      assert t[..|t| - 1] == "0" + s[..|s| - 1];
      ValueLeadingZero(s[..|s| - 1]);
    }
  }

  lemma {:induction false} ValueOfPad3(n: nat)
    ensures Value(Pad3(n)) == n
  {
    var d := Decimal(n);
    ValueOfDecimal(n);
    ValueLeadingZero(d);
    ValueLeadingZero("0" + d);
    assert "00" + d == "0" + ("0" + d);
  }

  lemma {:induction false} DigitRunStops(d: string, rest: string)
    requires AllDigits(d)
    requires |rest| > 0 ==> !IsDigit(rest[0])
    ensures DigitRun(d + rest) == d
  {
    if |d| == 0 {
      assert d + rest == rest;
    } else {
      assert (d + rest)[1..] == d[1..] + rest;
      DigitRunStops(d[1..], rest);
    }
  }

  lemma {:induction false} UnderscoreAt(s: string, i: nat, k: nat)
    requires i <= k < |s| && s[k] == '_'
    requires forall j :: i <= j < k ==> s[j] != '_'
    ensures UnderscoreFrom(s, i) == k
    decreases k - i
  {
    if i < k {
      UnderscoreAt(s, i + 1, k);
    }
  }

  lemma NoUnderscore(s: string, i: nat)
    requires i <= |s| && forall j :: i <= j < |s| ==> s[j] != '_'
    ensures UnderscoreFrom(s, i) == |s|
    decreases |s| - i
  {
    if i < |s| {
      NoUnderscore(s, i + 1);
    }
  }

  lemma BehindUnderscore(head: string, part: string, tail: string)
    ensures (head + "_" + part + tail)[|head| + 1..|head| + 1 + |part|] == part
  {
  }

  lemma PlainPart(prefix: string, part: string, tail: string)
    requires '_' !in part
    ensures forall i :: |prefix| <= i < |prefix| + |part| ==> (prefix + part + tail)[i] != '_'
    ensures |tail| > 0 ==> (prefix + part + tail)[|prefix| + |part|] == tail[0]
    ensures |prefix + part + tail| == |prefix| + |part| + |tail|
  {
    var s := prefix + part + tail;
    assert forall i :: |prefix| <= i < |prefix| + |part| ==> s[i] == part[i - |prefix|] && s[i] in part;
  }

  lemma EndOfPart(prefix: string, part: string, tail: string)
    requires '_' !in part && (|tail| > 0 ==> tail[0] == '_')
    ensures UnderscoreFrom(prefix + part + tail, |prefix|) == |prefix| + |part|
  {
    hide UnderscoreFrom;
    PlainPart(prefix, part, tail);
    if |tail| > 0 {
      UnderscoreAt(prefix + part + tail, |prefix|, |prefix| + |part|);
    } else {
      NoUnderscore(prefix + part + tail, |prefix|);
    }
  }

  lemma Associates(head: string, part: string, tail: string)
    ensures "" + head + ("_" + part + tail) == head + "_" + part + tail
  {
    assert "" + head == head;
    assert head + ("_" + part + tail) == head + ("_" + part) + tail;
    assert head + ("_" + part) == head + "_" + part;
  }

  lemma FirstUnderscores(head: string, part: string, tail: string)
    requires '_' !in head && '_' !in part && (|tail| > 0 ==> tail[0] == '_')
    ensures UnderscoreFrom(head + "_" + part + tail, 0) == |head|
    ensures UnderscoreFrom(head + "_" + part + tail, |head| + 1) == |head| + 1 + |part|
  {
    hide *;
    EndOfPart(head + "_", part, tail);
    EndOfPart("", head, "_" + part + tail);
    Associates(head, part, tail);
  }

  lemma SplitIndexAt(id: string, h: nat, k: nat)
    requires h < |id| && UnderscoreFrom(id, 0) == h && UnderscoreFrom(id, h + 1) == k
    ensures h < k <= |id|
    ensures SplitIndex(id) ==
            if k > h + 1 && AllDigits(id[h + 1..k]) then Some(Value(id[h + 1..k])) else None
  {
    hide Value, AllDigits, UnderscoreFrom;
  }

  /**
   The dashboard reads what stands between the first underscore and the second one or the end. It
   raises an error for an id without an underscore, and where that part is not made of digits.
   */
  lemma SplitIndexIff(head: string, part: string, tail: string)
    requires '_' !in head && '_' !in part && (|tail| > 0 ==> tail[0] == '_')
    ensures SplitIndex(head) == None
    ensures SplitIndex(head + "_" + part + tail) == if |part| > 0 && AllDigits(part) then Some(Value(part)) else None
  {
    assert SplitIndex(head) == None by {
      NoUnderscore(head, 0);
    }
    hide *;
    FirstUnderscores(head, part, tail);
    BehindUnderscore(head, part, tail);
    SplitIndexAt(head + "_" + part + tail, |head|, |head| + 1 + |part|);
  }

  lemma StripPrefix(prefix: string, rest: string)
    ensures prefix <= prefix + rest && (prefix + rest)[|prefix|..] == rest
  {
  }

  lemma MatchIndexOf(digits: string, rest: string)
    requires |digits| > 0 && AllDigits(digits)
    requires |rest| > 0 ==> !IsDigit(rest[0])
    ensures MatchIndex(PREFIX + (digits + rest)) == Some(Value(digits))
  {
    hide DigitRun, Value;
    StripPrefix(PREFIX, digits + rest);
    DigitRunStops(digits, rest);
  }

  /**
   Reading a batch id gives back the sequence number it was made from, whatever the
   suffix, both for the service and for the dashboard.
   */
  lemma BatchIdRoundTrip(n: nat, suffix: string)
    ensures MatchIndex(BatchId(n, suffix)) == Some(n)
    ensures BatchIndex(BatchId(n, suffix)) == n
    ensures SplitIndex(BatchId(n, suffix)) == Some(n)
  {
    hide Decimal, Pad3, Value, DigitRun, UnderscoreFrom, MatchIndex, SplitIndex;
    MatchIndexOf(Pad3(n), "_" + suffix);
    ValueOfPad3(n);
    SplitIndexIff("batch", Pad3(n), "_" + suffix);
    assert BatchId(n, suffix) == PREFIX + (Pad3(n) + ("_" + suffix));
    assert BatchId(n, suffix) == "batch" + "_" + Pad3(n) + ("_" + suffix);
  }

  /**
   The service finds the number of an id in the digits right behind its first six characters; an id
   without any there counts as number 1.
   */
  lemma BatchIndexIff(id: string)
    ensures MatchIndex(id).Some? <==> |id| >= 7 && id[..6] == "batch_" && '0' <= id[6] <= '9'
    ensures MatchIndex(id).None? ==> BatchIndex(id) == 1
    ensures MatchIndex(id).Some? ==>
              exists n :: 7 <= n <= |id| && AllDigits(id[6..n]) && (n < |id| ==> !('0' <= id[n] <= '9'))
                          && BatchIndex(id) == Value(id[6..n])
  {
    hide Value;
    assert |PREFIX| == 6;
    if MatchIndex(id).Some? {
      var run := DigitRun(id[6..]);
      assert id[6..6 + |run|] == run && (|run| < |id| - 6 ==> id[6..][|run|] == id[6 + |run|]);
    }
  }

  /** Different attempt numbers of one payment have different attempt ids. */
  lemma AttemptIdsDiffer(paymentId: string, m: nat, n: nat)
    requires m != n
    ensures AttemptId(paymentId, m) != AttemptId(paymentId, n)
  {
    ValueOfDecimal(m);
    ValueOfDecimal(n);
    var prefix := paymentId + ":attempt:";
    assert AttemptId(paymentId, m)[|prefix|..] == Decimal(m);
    assert AttemptId(paymentId, n)[|prefix|..] == Decimal(n);
  }

  /** The order in which Python sorts strings. */
  predicate TextBefore(s: string, t: string) {
    if |t| == 0 then false
    else if |s| == 0 then true
    else s[0] < t[0] || (s[0] == t[0] && TextBefore(s[1..], t[1..]))
  }

  lemma {:induction false} TextTotal(s: string, t: string)
    ensures s == t || TextBefore(s, t) || TextBefore(t, s)
    ensures !(TextBefore(s, t) && TextBefore(t, s)) && !TextBefore(s, s)
  {
    if |s| > 0 {
      TextTotal(s[1..], s[1..]);
    }
    if |s| > 0 && |t| > 0 && s[0] == t[0] {
      TextTotal(s[1..], t[1..]);
      assert s == [s[0]] + s[1..] && t == [t[0]] + t[1..];
    }
  }

  lemma {:induction false} TextTransitive(s: string, t: string, u: string)
    requires TextBefore(s, t) && TextBefore(t, u)
    ensures TextBefore(s, u)
  {
    if |s| > 0 && s[0] == t[0] == u[0] {
      TextTransitive(s[1..], t[1..], u[1..]);
    }
  }

  function Power10(k: nat): (p: nat)
    ensures p > 0
  {
    if k == 0 then 1 else 10 * Power10(k - 1)
  }
}
