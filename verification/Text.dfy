/** Strings as the operator builds and reads them: decimal numbers, the timestamp suffix of
    backup names, `strings.TrimSpace`, `strings.TrimPrefix` and `strconv.Atoi`. */
module Text {

  function Digit(d: nat): char
    requires d < 10
  {
    '0' + d as char
  }

  predicate IsDigit(ch: char) {
    '0' <= ch <= '9'
  }

  /** `%d` of a number that is not negative. */
  function Dec(n: nat): string {
    if n < 10 then [Digit(n)] else Dec(n / 10) + [Digit(n % 10)]
  }

  /** The suffix `-<milliseconds>` that backups get. */
  function Stamp(t: nat): string {
    "-" + Dec(t)
  }

  lemma {:induction false} DecLast(n: nat)
    ensures |Dec(n)| > 0
    ensures Dec(n)[|Dec(n)| - 1] == Digit(n % 10)
    ensures IsDigit(Dec(n)[|Dec(n)| - 1])
  {
  }

  /** In a stamped name the last but one character tells one digit from several. */
  lemma {:induction false} StampLength(a: string, t: nat)
    ensures var x := a + Stamp(t); |x| >= 2 && (x[|x| - 2] == '-' <==> t < 10)
  {
    var x := a + Stamp(t);
    if t >= 10 {
      DecLast(t / 10);
      assert x[..|x| - 1] == a + Stamp(t / 10);
      assert IsDigit(x[|x| - 2]);
    }
  }

  /** A stamped name determines both the name and the time: no two different copies of data taken
      at different times, or of differently named objects, can share a name. */
  lemma {:induction false} StampedNameInjective(a: string, t: nat, b: string, u: nat)
    requires a + Stamp(t) == b + Stamp(u)
    ensures a == b && t == u
    decreases t
  {
    var x, y := a + Stamp(t), b + Stamp(u);
    DecLast(t);
    DecLast(u);
    StampLength(a, t);
    StampLength(b, u);
    assert x[|x| - 1] == Digit(t % 10) && y[|y| - 1] == Digit(u % 10);
    if t < 10 {
      assert x[..|x| - 2] == a && y[..|y| - 2] == b;
    } else {
      assert x[..|x| - 1] == a + Stamp(t / 10) && y[..|y| - 1] == b + Stamp(u / 10);
      StampedNameInjective(a, t / 10, b, u / 10);
    }
  }

  /** A stamped name ends in a digit, so it never ends in "-entrypoint". */
  lemma {:induction false} StampedNameIsNoEntrypoint(a: string, t: nat, op: string)
    ensures a + Stamp(t) != op + "-entrypoint"
  {
    var x, y := a + Stamp(t), op + "-entrypoint";
    DecLast(t);
    assert IsDigit(x[|x| - 1]);
    assert y[|y| - 1] == 't';
  }

  /** `unicode.IsSpace`. */
  predicate IsSpace(ch: char) {
    || '\t' <= ch <= '\r'
    || ch == ' ' || ch == '\U{85}' || ch == '\U{A0}' || ch == '\U{1680}'
    || '\U{2000}' <= ch <= '\U{200A}'
    || ch == '\U{2028}' || ch == '\U{2029}' || ch == '\U{202F}' || ch == '\U{205F}' || ch == '\U{3000}'
  }

  function TrimLeft(s: string): string {
    if s != "" && IsSpace(s[0]) then TrimLeft(s[1..]) else s
  }

  function TrimRight(s: string): string {
    if s != "" && IsSpace(s[|s| - 1]) then TrimRight(s[..|s| - 1]) else s
  }

  function TrimSpace(s: string): string {
    TrimRight(TrimLeft(s))
  }

  /** The spaces of ASCII: tab, the four line and page breaks, and the space. */
  lemma SpaceIs(ch: char)
    requires ch < '\U{80}'
    ensures IsSpace(ch) <==> ch as int in {9, 10, 11, 12, 13, 32}
  {
    assert '\t' as int == 9 && '\r' as int == 13 && ' ' as int == 32;
  }

  predicate AllSpace(s: string) {
    forall i | 0 <= i < |s| :: IsSpace(s[i])
  }

  /** Neither the first nor the last character is a space. */
  predicate Trimmed(s: string) {
    s != "" ==> !IsSpace(s[0]) && !IsSpace(s[|s| - 1])
  }

  lemma {:induction false} TrimLeftIs(s: string) returns (front: string)
    ensures s == front + TrimLeft(s) && AllSpace(front)
    ensures TrimLeft(s) != "" ==> !IsSpace(TrimLeft(s)[0])
  {
    front := "";
    if s != "" && IsSpace(s[0]) {
      var rest := TrimLeftIs(s[1..]);
      front := [s[0]] + rest;
      assert s == [s[0]] + s[1..];
    }
  }

  lemma {:induction false} TrimRightIs(s: string) returns (back: string)
    ensures s == TrimRight(s) + back && AllSpace(back)
    ensures TrimRight(s) != "" ==> !IsSpace(TrimRight(s)[|TrimRight(s)| - 1])
  {
    back := "";
    if s != "" && IsSpace(s[|s| - 1]) {
      var rest := TrimRightIs(s[..|s| - 1]);
      back := rest + [s[|s| - 1]];
      assert s == s[..|s| - 1] + [s[|s| - 1]];
    }
  }

  /** Trimming takes the spaces at both ends away, and only these. */
  lemma TrimSpaceIs(s: string) returns (front: string, back: string)
    ensures s == front + TrimSpace(s) + back && AllSpace(front) && AllSpace(back) && Trimmed(TrimSpace(s))
  {
    front := TrimLeftIs(s);
    back := TrimRightIs(TrimLeft(s));
    assert front + (TrimSpace(s) + back) == front + TrimSpace(s) + back;
    if TrimSpace(s) != "" {
      assert TrimSpace(s)[0] == TrimLeft(s)[0];
    }
  }

  /** `strings.TrimPrefix(s, "v")`: at most one letter goes. */
  function TrimV(s: string): string {
    if s != "" && s[0] == 'v' then s[1..] else s
  }

  lemma TrimVIs(s: string)
    ensures TrimV("v" + s) == s
    ensures s == "" || s[0] != 'v' ==> TrimV(s) == s
  {
    assert ("v" + s)[1..] == s;
  }

  const MAX_INT: int := 0x7FFF_FFFF_FFFF_FFFF

  predicate AllDigits(s: string) {
    forall i | 0 <= i < |s| :: IsDigit(s[i])
  }

  function Number(s: string): (n: int)
    requires AllDigits(s)
    ensures n >= 0
  {
    if s == "" then 0 else Number(s[..|s| - 1]) * 10 + (s[|s| - 1] - '0') as int
  }

  /** Reading a number gives the number that was written. */
  lemma {:induction false} NumberDec(n: nat)
    ensures Dec(n) != "" && AllDigits(Dec(n)) && Number(Dec(n)) == n
  {
    if n >= 10 {
      NumberDec(n / 10);
      assert Dec(n)[..|Dec(n)| - 1] == Dec(n / 10);
    }
  }

  /** The value and the error flag of `strconv.Atoi`: 0 for text that is no number, the nearest
      64-bit value for a number out of range. */
  function Atoi(s: string): (int, bool) {
    var negative := s != "" && s[0] == '-';
    var digits := if s != "" && (s[0] == '-' || s[0] == '+') then s[1..] else s;
    if digits == "" || !AllDigits(digits) then (0, true)
    else
      var value: int := if negative then -Number(digits) else Number(digits);
      if value > MAX_INT then (MAX_INT, true)
      else if value < -MAX_INT - 1 then (-MAX_INT - 1, true)
      else (value, false)
  }

  /** Text that is no number: no digit, or something else than digits behind an optional sign. */
  predicate IsNumeral(s: string) {
    if s != "" && (s[0] == '-' || s[0] == '+') then |s| > 1 && AllDigits(s[1..]) else s != "" && AllDigits(s)
  }

  lemma AtoiUnsigned(n: nat)
    ensures Atoi(Dec(n)) == if n <= MAX_INT then (n as int, false) else (MAX_INT, true)
  {
    NumberDec(n);
    assert IsDigit(Dec(n)[0]);
  }

  lemma AtoiSigned(n: nat)
    ensures Atoi("+" + Dec(n)) == if n <= MAX_INT then (n as int, false) else (MAX_INT, true)
    ensures Atoi("-" + Dec(n)) == if n <= MAX_INT + 1 then (0 - n as int, false) else (-MAX_INT - 1, true)
  {
    NumberDec(n);
    assert ("-" + Dec(n))[1..] == Dec(n) && ("+" + Dec(n))[1..] == Dec(n);
  }

  /** What is read from written numbers, up to the largest and the smallest one, and from other text. */
  lemma AtoiMeans(text: string, n: nat)
    ensures Atoi(Dec(n)) == if n <= MAX_INT then (n as int, false) else (MAX_INT, true)
    ensures Atoi("+" + Dec(n)) == if n <= MAX_INT then (n as int, false) else (MAX_INT, true)
    ensures Atoi("-" + Dec(n)) == if n <= MAX_INT + 1 then (0 - n as int, false) else (-MAX_INT - 1, true)
    ensures !IsNumeral(text) ==> Atoi(text) == (0, true)
  {
    hide Dec;
    AtoiUnsigned(n);
    AtoiSigned(n);
  }
}
