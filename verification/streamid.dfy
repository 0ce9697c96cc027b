/** Stream identifiers, their order, and what comparing them as text gives. */
module StreamIds {
  import opened Board
  import opened Text

  /** A Redis stream id: milliseconds and a sequence number within the millisecond. */
  datatype StreamId = StreamId(ms: nat, seqNo: nat)

  predicate IdLess(a: StreamId, b: StreamId) {
    a.ms < b.ms || (a.ms == b.ms && a.seqNo < b.seqNo)
  }

  function IdText(id: StreamId): string { Itoa(id.ms) + "-" + Itoa(id.seqNo) }

  /** Go's `<` on strings. */
  predicate TextLess(a: string, b: string) {
    if b == "" then false
    else if a == "" then true
    else a[0] < b[0] || (a[0] == b[0] && TextLess(a[1..], b[1..]))
  }

  lemma {:induction false} TextLessAsym(a: string, b: string)
    ensures TextLess(a, b) ==> !TextLess(b, a)
    ensures !TextLess(a, b) && !TextLess(b, a) ==> a == b
    ensures !TextLess(a, a)
  {
    if a != "" && b != "" {
      TextLessAsym(a[1..], b[1..]);
      if a[0] == b[0] && a[1..] == b[1..] {
        assert a == [a[0]] + a[1..] && b == [b[0]] + b[1..];
      }
    }
    if a != "" {
      TextLessAsym(a[1..], a[1..]);
    }
  }

  /** A common prefix does not matter. */
  lemma {:induction false} TextLessPrefix(p: string, a: string, b: string)
    ensures TextLess(p + a, p + b) <==> TextLess(a, b)
  {
    if p == "" {
      assert p + a == a && p + b == b;
    } else {
      TextLessPrefix(p[1..], a, b);
      assert (p + a)[1..] == p[1..] + a && (p + b)[1..] == p[1..] + b;
    }
  }

  // ---- Digits ----

  function Width(n: nat): nat { |Itoa(n)| }

  lemma WidthMonotone(x: nat, y: nat)
    requires x <= y
    ensures Width(x) <= Width(y)
  {
    if x >= 10 {
      WidthMonotone(x / 10, y / 10);
    }
  }

  /** Numbers of one width compare as text as they do as numbers, whatever follows. */
  lemma {:induction false} SameWidthOrder(x: nat, y: nat, s: string, t: string)
    requires Width(x) == Width(y) && x < y
    ensures TextLess(Itoa(x) + s, Itoa(y) + t)
  {
    if x < 10 {
      assert Itoa(x) == [DigitChar(x)] && Width(y) == 1;
      assert y < 10;
      assert (Itoa(x) + s)[0] == DigitChar(x) && (Itoa(y) + t)[0] == DigitChar(y);
    } else {
      var s', t' := [DigitChar(x % 10)] + s, [DigitChar(y % 10)] + t;
      assert Itoa(x) + s == Itoa(x / 10) + s' && Itoa(y) + t == Itoa(y / 10) + t';
      if x / 10 < y / 10 {
        SameWidthOrder(x / 10, y / 10, s', t');
      } else {
        TextLessPrefix(Itoa(x / 10), s', t');
      }
    }
  }

  /** The number formed by the first `w` digits of `n`. */
  function Leading(n: nat, w: nat): nat
    requires 1 <= w <= Width(n)
    decreases n
  {
    if w == Width(n) then n else Leading(n / 10, w)
  }

  lemma {:induction false} LeadingDigits(n: nat, w: nat)
    requires 1 <= w <= Width(n)
    ensures Itoa(n)[..w] == Itoa(Leading(n, w)) && Width(Leading(n, w)) == w
    decreases n
  {
    if w < Width(n) {
      LeadingDigits(n / 10, w);
      assert Itoa(n)[..w] == Itoa(n / 10)[..w];
    }
  }

  /** Where a number ends in an id's text: at the end, or before the dash. */
  predicate Ends(s: string) { s == "" || s[0] == '-' }

  /** A number's text split after its first `w` digits. */
  lemma SplitDigits(y: nat, w: nat, t: string) returns (rest: string)
    requires 1 <= w <= Width(y)
    ensures Itoa(y) + t == Itoa(Leading(y, w)) + rest
    ensures w < Width(y) ==> rest != "" && IsDigit(rest[0])
  {
    LeadingDigits(y, w);
    rest := Itoa(y)[w..] + t;
    assert Itoa(y) == Itoa(y)[..w] + Itoa(y)[w..];
  }

  lemma {:induction false} EndBeforeDigit(s: string, rest: string)
    requires Ends(s) && rest != "" && IsDigit(rest[0])
    ensures TextLess(s, rest)
  {}

  lemma {:induction false} LeadingLess(x: nat, y: nat, s: string, t: string)
    requires x < y && Ends(s) && Width(x) <= Width(y) && x <= Leading(y, Width(x))
    ensures TextLess(Itoa(x) + s, Itoa(y) + t)
  {
    var w := Width(x);
    var rest := SplitDigits(y, w, t);
    LeadingDigits(y, w);
    if x < Leading(y, w) {
      SameWidthOrder(x, Leading(y, w), s, rest);
    } else {
      EndBeforeDigit(s, rest);
      TextLessPrefix(Itoa(x), s, rest);
    }
  }

  lemma {:induction false} LeadingGreater(x: nat, y: nat, s: string, t: string)
    requires Width(x) <= Width(y) && x > Leading(y, Width(x))
    ensures TextLess(Itoa(y) + t, Itoa(x) + s)
  {
    var w := Width(x);
    var rest := SplitDigits(y, w, t);
    LeadingDigits(y, w);
    SameWidthOrder(Leading(y, w), x, rest, s);
  }

  /** For x < y, text order agrees with number order exactly when x does not exceed the number
      formed by the first digits of y, as many as x has. */
  lemma {:induction false} NumberTextOrder(x: nat, y: nat, s: string, t: string)
    requires x < y && Ends(s)
    ensures Width(x) <= Width(y)
    ensures TextLess(Itoa(x) + s, Itoa(y) + t) <==> x <= Leading(y, Width(x))
    ensures TextLess(Itoa(y) + t, Itoa(x) + s) <==> x > Leading(y, Width(x))
  {
    WidthMonotone(x, y);
    TextLessAsym(Itoa(x) + s, Itoa(y) + t);
    if x <= Leading(y, Width(x)) {
      LeadingLess(x, y, s, t);
    } else {
      LeadingGreater(x, y, s, t);
    }
  }

  /** For ids a before b: what the leading digits must satisfy for the texts to sort the same way. */
  predicate DigitsAgree(a: StreamId, b: StreamId) {
    if a.ms < b.ms then Width(a.ms) <= Width(b.ms) && a.ms <= Leading(b.ms, Width(a.ms))
    else Width(a.seqNo) <= Width(b.seqNo) && a.seqNo <= Leading(b.seqNo, Width(a.seqNo))
  }

  /** Comparing two ids as text agrees with their order exactly under that condition. */
  lemma TextOrderExact(a: StreamId, b: StreamId)
    requires IdLess(a, b)
    ensures TextLess(IdText(a), IdText(b)) <==> DigitsAgree(a, b)
    ensures TextLess(IdText(b), IdText(a)) <==> !DigitsAgree(a, b)
  {
    assert IdText(a) == Itoa(a.ms) + ("-" + Itoa(a.seqNo)) && IdText(b) == Itoa(b.ms) + ("-" + Itoa(b.seqNo));
    if a.ms < b.ms {
      NumberTextOrder(a.ms, b.ms, "-" + Itoa(a.seqNo), "-" + Itoa(b.seqNo));
    } else {
      NumberTextOrder(a.seqNo, b.seqNo, "", "");
      assert Itoa(a.seqNo) + "" == Itoa(a.seqNo) && Itoa(b.seqNo) + "" == Itoa(b.seqNo);
      TextLessPrefix(Itoa(a.ms) + "-", Itoa(a.seqNo), Itoa(b.seqNo));
      TextLessPrefix(Itoa(a.ms) + "-", Itoa(b.seqNo), Itoa(a.seqNo));
    }
  }

  predicate SameWidths(a: StreamId, b: StreamId) {
    Width(a.ms) == Width(b.ms) && Width(a.seqNo) == Width(b.seqNo)
  }

  /** Ids whose parts have equally many digits always sort the same way as text. */
  lemma SameWidthsAgree(a: StreamId, b: StreamId)
    requires SameWidths(a, b) && IdLess(a, b)
    ensures DigitsAgree(a, b)
  {}

  /** Text order is not stream order: the tenth and eleventh entries of any millisecond. */
  lemma TextOrderFails(ms: nat)
    ensures IdLess(StreamId(ms, 9), StreamId(ms, 10)) && TextLess(IdText(StreamId(ms, 10)), IdText(StreamId(ms, 9)))
  {
    TextOrderExact(StreamId(ms, 9), StreamId(ms, 10));
    assert Itoa(10) == Itoa(1) + [DigitChar(0)];
    assert Width(9) == 1 && Width(10) == 2 && Leading(10, 1) == 1;
  }

  lemma IdTextInjective(a: StreamId, b: StreamId)
    requires IdText(a) == IdText(b)
    ensures a == b
  {
    TextLessAsym(IdText(a), IdText(b));
    if IdLess(a, b) {
      TextOrderExact(a, b);
    } else if IdLess(b, a) {
      TextOrderExact(b, a);
    }
  }

  // ---- Reading an id back ----

  const ZERO: StreamId := StreamId(0, 0)

  predicate AllDigits(s: string) { s != "" && forall i :: 0 <= i < |s| ==> IsDigit(s[i]) }

  /** The id a text denotes to the stream server; a missing sequence number is zero. */
  function ParseId(s: string): Option<StreamId> {
    var parts := Split(s, '-');
    if |parts| == 1 && AllDigits(parts[0]) then Some(StreamId(DigitsValue(parts[0]), 0))
    else if |parts| == 2 && AllDigits(parts[0]) && AllDigits(parts[1]) then
      Some(StreamId(DigitsValue(parts[0]), DigitsValue(parts[1])))
    else None
  }

  lemma IdRoundTrip(id: StreamId)
    ensures ParseId(IdText(id)) == Some(id)
  {
    var parts := [Itoa(id.ms), Itoa(id.seqNo)];
    assert JoinWith(parts, '-') == IdText(id);
    SplitOfJoin(parts, '-');
    DigitsOfItoa(id.ms);
    DigitsOfItoa(id.seqNo);
  }

  lemma ZeroText()
    ensures ParseId("0") == Some(ZERO)
  {
    assert Itoa(0) == "0";
    SplitOfJoin(["0"], '-');
    DigitsOfItoa(0);
  }
}
