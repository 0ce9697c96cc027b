/** Splitting, joining and number printing as the Go standard library does them. */
module Text {
  import opened Board

  /** White space in the sense of `unicode.IsSpace`. */
  predicate IsSpace(c: char) {
    var n := c as int;
    9 <= n <= 13 || n == 0x20 || n == 0x85 || n == 0xA0 || n == 0x1680 || 0x2000 <= n <= 0x200A
    || n == 0x2028 || n == 0x2029 || n == 0x202F || n == 0x205F || n == 0x3000
  }

  /** A word is a non-empty stretch without white space. */
  predicate IsWord(w: string) {
    w != "" && forall i :: 0 <= i < |w| ==> !IsSpace(w[i])
  }

  ghost predicate AllWords(ws: seq<string>) {
    forall i :: 0 <= i < |ws| ==> IsWord(ws[i])
  }

  /** The length of the leading stretch without white space. */
  function WordLength(s: string): (n: nat)
    ensures n <= |s| && (forall i :: 0 <= i < n ==> !IsSpace(s[i])) && (n < |s| ==> IsSpace(s[n]))
  {
    if s == "" || IsSpace(s[0]) then 0 else 1 + WordLength(s[1..])
  }

  /** `strings.Fields`: the words of a text, in order. */
  function Fields(s: string): seq<string> {
    if s == "" then []
    else if IsSpace(s[0]) then Fields(s[1..])
    else [s[..WordLength(s)]] + Fields(s[WordLength(s)..])
  }

  lemma {:induction false} WordLengthOf(w: string, rest: string)
    requires (forall i :: 0 <= i < |w| ==> !IsSpace(w[i])) && (rest == "" || IsSpace(rest[0]))
    ensures WordLength(w + rest) == |w|
  {
    var s := w + rest;
    assert forall i :: 0 <= i < |w| ==> s[i] == w[i];
    assert rest != "" ==> s[|w|] == rest[0];
  }

  /** A word followed by white space, or by nothing, is the first field. */
  lemma {:induction false} FieldsOfWord(w: string, rest: string)
    requires IsWord(w) && (rest == "" || IsSpace(rest[0]))
    ensures Fields(w + rest) == [w] + Fields(rest)
  {
    WordLengthOf(w, rest);
    assert (w + rest)[..|w|] == w && (w + rest)[|w|..] == rest;
    assert (w + rest)[0] == w[0];
  }

  lemma {:induction false} FieldsOfSpace(c: char, rest: string)
    requires IsSpace(c)
    ensures Fields([c] + rest) == Fields(rest)
  {}

  /** Every field is a word. */
  lemma {:induction false} FieldsAreWords(s: string)
    ensures AllWords(Fields(s))
    decreases |s|
  {
    if s == "" {
    } else if IsSpace(s[0]) {
      FieldsAreWords(s[1..]);
    } else {
      FieldsAreWords(s[WordLength(s)..]);
      assert IsWord(s[..WordLength(s)]);
    }
  }

  /** The words joined by single spaces. */
  function Join(ws: seq<string>): string {
    if ws == [] then "" else if |ws| == 1 then ws[0] else ws[0] + " " + Join(ws[1..])
  }

  lemma {:induction false} FieldsOfJoin(ws: seq<string>)
    requires AllWords(ws)
    ensures Fields(Join(ws)) == ws
  {
    if |ws| == 1 {
      FieldsOfWord(ws[0], "");
      assert ws[0] + "" == ws[0];
    } else if |ws| > 1 {
      FieldsOfJoin(ws[1..]);
      FieldsOfSpace(' ', Join(ws[1..]));
      FieldsOfWord(ws[0], " " + Join(ws[1..]));
      assert Join(ws) == ws[0] + (" " + Join(ws[1..]));
    }
  }

  /** `strings.TrimSpace`. */
  function Trim(s: string): string
    decreases |s|
  {
    if s == "" then ""
    else if IsSpace(s[0]) then Trim(s[1..])
    else if IsSpace(s[|s| - 1]) then Trim(s[..|s| - 1])
    else s
  }

  lemma {:induction false} FieldsBeforeSpace(a: string, c: char)
    requires IsSpace(c)
    ensures Fields(a + [c]) == Fields(a)
    decreases |a|
  {
    var s := a + [c];
    if a == "" {
      assert s[1..] == "";
    } else if IsSpace(a[0]) {
      FieldsBeforeSpace(a[1..], c);
      assert s[1..] == a[1..] + [c];
    } else {
      var n := WordLength(a);
      assert s == a[..n] + (a[n..] + [c]);
      FieldsOfWord(a[..n], a[n..] + [c]);
      FieldsBeforeSpace(a[n..], c);
    }
  }

  lemma {:induction false} FieldsOfTrim(s: string)
    ensures Fields(Trim(s)) == Fields(s)
    decreases |s|
  {
    if s == "" {
    } else if IsSpace(s[0]) {
      FieldsOfTrim(s[1..]);
    } else if IsSpace(s[|s| - 1]) {
      FieldsOfTrim(s[..|s| - 1]);
      FieldsBeforeSpace(s[..|s| - 1], s[|s| - 1]);
      assert s == s[..|s| - 1] + [s[|s| - 1]];
    }
  }

  /** The fields of two texts with white space between them. */
  lemma {:induction false} FieldsConcat(a: string, c: char, b: string)
    requires IsSpace(c)
    ensures Fields(a + [c] + b) == Fields(a) + Fields(b)
    decreases |a|
  {
    Regroup(a, c, b);
    if a == "" {
      FieldsOfSpace(c, b);
    } else if IsSpace(a[0]) {
      FieldsConcat(a[1..], c, b);
    } else {
      var rest := a[WordLength(a)..];
      FieldsConcat(rest, c, b);
      Regroup(rest, c, b);
      FieldsOfHead(a, [c] + b);
    }
  }

  lemma {:induction false} FieldsOfOne(w: string)
    requires IsWord(w)
    ensures Fields(w) == [w]
  {
    FieldsOfWord(w, "");
    assert w + "" == w;
  }

  lemma {:induction false} FieldsSnoc(a: string, c: char, w: string)
    requires IsSpace(c) && IsWord(w)
    ensures Fields(a + [c] + w) == Fields(a) + [w]
  {
    FieldsConcat(a, c, w);
    FieldsOfOne(w);
  }

  lemma Regroup(a: string, c: char, w: string)
    ensures a + [c] + w == a + ([c] + w) && (a == "" ==> a + [c] + w == [c] + w)
    ensures a != "" ==> (a + [c] + w)[1..] == a[1..] + [c] + w && (a + [c] + w)[0] == a[0]
  {}

  /** The first word of a text is also the first word of a longer text that goes on with a space. */
  lemma {:induction false} FieldsOfHead(a: string, more: string)
    requires a != "" && !IsSpace(a[0]) && more != "" && IsSpace(more[0])
    ensures Fields(a + more) == [a[..WordLength(a)]] + Fields(a[WordLength(a)..] + more)
    ensures Fields(a) == [a[..WordLength(a)]] + Fields(a[WordLength(a)..])
  {
    var n := WordLength(a);
    HeadWord(a);
    StartsWithSpace(a, more);
    FieldsOfWord(a[..n], a[n..] + more);
    SplitAt(a, n, more);
  }

  lemma SplitAt(a: string, n: nat, more: string)
    requires n <= |a|
    ensures a + more == a[..n] + (a[n..] + more)
  {}

  lemma {:induction false} HeadWord(a: string)
    requires a != "" && !IsSpace(a[0])
    ensures IsWord(a[..WordLength(a)])
  {}

  lemma {:induction false} StartsWithSpace(a: string, more: string)
    requires more != "" && IsSpace(more[0])
    ensures a[WordLength(a)..] + more != "" && IsSpace((a[WordLength(a)..] + more)[0])
  {}

  // ---- Splitting at a separator ----

  /** The index of the first `c`, or the length of the text. */
  function IndexOf(s: string, c: char): (n: nat)
    ensures n <= |s| && (forall i :: 0 <= i < n ==> s[i] != c) && (n < |s| ==> s[n] == c)
  {
    if s == "" || s[0] == c then 0 else 1 + IndexOf(s[1..], c)
  }

  /** `strings.Split` at a one-character separator. */
  function Split(s: string, c: char): (parts: seq<string>)
    ensures |parts| >= 1
    decreases |s|
  {
    var n := IndexOf(s, c);
    if n == |s| then [s] else [s[..n]] + Split(s[n + 1..], c)
  }

  function JoinWith(parts: seq<string>, c: char): string
    requires |parts| >= 1
  {
    if |parts| == 1 then parts[0] else parts[0] + [c] + JoinWith(parts[1..], c)
  }

  lemma {:induction false} IndexOfFirst(head: string, rest: string, c: char)
    requires c !in head && (rest == "" || rest[0] == c)
    ensures IndexOf(head + rest, c) == |head|
  {
    var s := head + rest;
    assert forall i :: 0 <= i < |head| ==> s[i] == head[i];
    assert rest != "" ==> s[|head|] == c;
  }

  lemma {:induction false} SplitOfJoin(parts: seq<string>, c: char)
    requires |parts| >= 1 && forall i :: 0 <= i < |parts| ==> c !in parts[i]
    ensures Split(JoinWith(parts, c), c) == parts
  {
    var head := parts[0];
    if |parts| == 1 {
      IndexOfFirst(head, "", c);
      assert head + "" == head;
    } else {
      var tail := JoinWith(parts[1..], c);
      IndexOfFirst(head, [c] + tail, c);
      var s := head + ([c] + tail);
      assert JoinWith(parts, c) == s;
      assert s[..|head|] == head && s[|head| + 1..] == tail;
      SplitOfJoin(parts[1..], c);
    }
  }

  // ---- Numbers ----

  const MAX_INT: int := 0x7FFF_FFFF_FFFF_FFFF

  predicate IsDigit(c: char) { '0' <= c <= '9' }

  function DigitChar(d: int): (c: char)
    requires 0 <= d < 10
    ensures IsDigit(c)
  {
    '0' + d as char
  }

  /** `strconv.Itoa` on the numbers the program prints, none of which is negative. */
  function Itoa(n: nat): (s: string)
    ensures |s| >= 1 && forall i :: 0 <= i < |s| ==> IsDigit(s[i])
  {
    if n < 10 then [DigitChar(n)] else Itoa(n / 10) + [DigitChar(n % 10)]
  }

  function Digit(c: char): nat
    requires IsDigit(c)
  {
    c as int - '0' as int
  }

  /** The value of a string of digits. */
  function DigitsValue(s: string): nat
    requires forall i :: 0 <= i < |s| ==> IsDigit(s[i])
  {
    if s == "" then 0 else DigitsValue(s[..|s| - 1]) * 10 + Digit(s[|s| - 1])
  }

  /** `strconv.Atoi`: an optional sign, then digits, within the range of a 64-bit integer. */
  function Atoi(s: string): (n: Option<int>)
    ensures n.Some? ==> -MAX_INT - 1 <= n.value <= MAX_INT
  {
    var signed := s != "" && (s[0] == '+' || s[0] == '-');
    var digits := if signed then s[1..] else s;
    if digits == "" || exists i :: 0 <= i < |digits| && !IsDigit(digits[i]) then None
    else
      var n: int := DigitsValue(digits);
      if s[0] == '-' then (if n <= MAX_INT + 1 then Some(0 - n) else None)
      else if n <= MAX_INT then Some(n) else None
  }

  lemma {:induction false} DigitsOfItoa(n: nat)
    ensures DigitsValue(Itoa(n)) == n
  {
    if n >= 10 {
      DigitsOfItoa(n / 10);
      var s := Itoa(n);
      assert s[..|s| - 1] == Itoa(n / 10);
    } else {
      assert Itoa(n)[..0] == "";
    }
  }

  lemma {:induction false} AtoiOfItoa(n: nat)
    requires n <= MAX_INT
    ensures Atoi(Itoa(n)) == Some(n)
  {
    DigitsOfItoa(n);
    assert IsDigit(Itoa(n)[0]);
  }

  /** A number out of the range of 64 bits is not read. */
  lemma {:induction false} AtoiTooLarge(n: nat)
    ensures Atoi(Itoa(n)) == None <==> n > 0x7FFF_FFFF_FFFF_FFFF
  {
    DigitsOfItoa(n);
    assert IsDigit(Itoa(n)[0]);
  }

  /** A sign is. */
  lemma {:induction false} AtoiOfSigned(n: nat, sign: char)
    requires sign == '+' || sign == '-'
    ensures Atoi([sign] + Itoa(n)) ==
      if n > (if sign == '-' then MAX_INT + 1 else MAX_INT) then None else Some(if sign == '-' then 0 - n else n)
  {
    DigitsOfItoa(n);
    assert ([sign] + Itoa(n))[1..] == Itoa(n);
  }
}
