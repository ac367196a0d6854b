/** Printing signed decimal numbers with _doprnt, and reading them back with strtol. */
module Numbers {
  import opened Texts

  const MAXBUF := 32
  const LONG_LIMIT := 0x8000_0000

  /** What a conversion asks for: width and precision (negative when absent), and the flags '-', '0' and '+' or ' '. */
  datatype Conversion = Conversion(width: int, prec: int, ladjust: bool, zero: bool, plus: PlusSign)

  datatype PlusSign = NoSign | PlusChar | BlankChar

  function Max(a: int, b: int): int { if a < b then b else a }

  function Abs(n: int): nat { if n < 0 then -n else n }

  function DigitChar(d: nat): char
    requires d < 10
  {
    (d + '0' as int) as char
  }

  predicate IsAlnum(c: char) { '0' <= c <= '9' || 'a' <= c <= 'z' || 'A' <= c <= 'Z' }

  /** What a character counts for as a digit; letters come after the decimal digits. */
  function DigitOf(c: char): nat
    requires IsAlnum(c)
  {
    if '0' <= c <= '9' then c as int - '0' as int
    else if 'a' <= c <= 'z' then c as int - 'a' as int + 10
    else c as int - 'A' as int + 10
  }

  predicate IsDigit(c: char, base: nat) { IsAlnum(c) && DigitOf(c) < base }

  predicate IsSpace(c: char) { c == ' ' || c == '\U{c}' || c == '\n' || c == '\r' || c == '\t' || c == '\U{b}' }

  predicate AllDigits(s: string, base: nat) { forall i :: 0 <= i < |s| ==> IsDigit(s[i], base) }

  // ----- numerals -----

  function Numeral(u: nat): (s: string)
    ensures s != "" && AllDigits(s, 10) && (s[0] == '0' <==> u == 0) && (u == 0 ==> |s| == 1)
  {
    if u < 10 then [DigitChar(u)] else Numeral(u / 10) + [DigitChar(u % 10)]
  }

  lemma PrefixDigits(s: string, base: nat)
    requires AllDigits(s, base) && s != ""
    ensures AllDigits(s[..|s| - 1], base) && IsAlnum(s[|s| - 1])
  {
    hide DigitOf;
  }

  function Value(s: string, base: nat): nat
    requires AllDigits(s, base)
  {
    if s == "" then 0 else PrefixDigits(s, base); Value(s[..|s| - 1], base) * base + DigitOf(s[|s| - 1])
  }

  lemma {:induction false} ValueOfNumeral(u: nat)
    ensures Value(Numeral(u), 10) == u
  {
    if u >= 10 {
      ValueOfNumeral(u / 10);
      assert Numeral(u)[..|Numeral(u)| - 1] == Numeral(u / 10);
    }
  }

  lemma {:induction false} NumeralLength(u: nat, k: nat, bound: nat)
    requires k > 0 && u < bound && bound == Power10(k)
    ensures |Numeral(u)| <= k
  {
    if u >= 10 {
      NumeralLength(u / 10, k - 1, Power10(k - 1));
    }
  }

  function Power10(k: nat): nat { if k == 0 then 1 else 10 * Power10(k - 1) }

  lemma {:induction false} LeadingZeros(k: int, s: string)
    requires AllDigits(s, 10)
    ensures AllDigits(Repeat('0', k) + s, 10) && Value(Repeat('0', k) + s, 10) == Value(s, 10)
    decreases |s|, Max(k, 0)
  {
    var z := Repeat('0', k);
    if s == "" {
      assert z + s == z;
      if k > 0 {
        assert z[..|z| - 1] == Repeat('0', k - 1) + "";
        LeadingZeros(k - 1, "");
      }
    } else {
      var r := s[..|s| - 1];
      assert (z + s)[..|z + s| - 1] == z + r;
      LeadingZeros(k, r);
    }
  }

  // ----- printing -----

  function SignString(n: int, plus: PlusSign): string {
    if n < 0 then "-" else if plus == PlusChar then "+" else if plus == BlankChar then " " else ""
  }

  /** What a %d conversion emits. */
  function Printed(n: int, c: Conversion): string {
    var digits, sign := Numeral(Abs(n)), SignString(n, c.plus);
    var zeros := Max(c.prec - |digits|, 0);
    var pad := c.width - |digits| - |sign| - zeros;
    if c.zero then sign + Repeat('0', zeros) + Repeat('0', pad) + digits
    else if c.ladjust then sign + Repeat('0', zeros) + digits + Repeat(' ', pad)
    else Repeat(' ', pad) + sign + Repeat('0', zeros) + digits
  }

  /** As many characters as the width, or as the number needs with its sign and precision. */
  lemma EmittedLength(n: int, c: Conversion)
    ensures |Printed(n, c)| == Max(c.width, |SignString(n, c.plus)| + Max(|Numeral(Abs(n))|, c.prec))
  {
  }

  /** Blanks, the sign, digits of the right value, blanks: how many of each, and on which side. Zeros fill the width
      with the flag '0', which overrides '-'; blanks do otherwise, behind the number with '-' and before it without. */
  lemma PrintedShape(n: int, c: Conversion) returns (front: nat, sign: string, digits: string, back: nat)
    ensures Printed(n, c) == Repeat(' ', front) + sign + digits + Repeat(' ', back)
    ensures (sign == "-" <==> n < 0) && (sign == "+" <==> n >= 0 && c.plus == PlusChar)
    ensures (sign == " " <==> n >= 0 && c.plus == BlankChar) && (sign == "" <==> n >= 0 && c.plus == NoSign)
    ensures sign == SignString(n, c.plus) && AllDigits(digits, 10) && Value(digits, 10) == Abs(n)
    ensures EndsWith(digits, Numeral(Abs(n)))
    ensures var plain := Max(|Numeral(Abs(n))|, c.prec);
            |digits| == if c.zero then Max(plain, c.width - |sign|) else plain
    ensures front == if c.zero || c.ladjust then 0 else Max(c.width - |sign| - |digits|, 0)
    ensures back == if c.zero || !c.ladjust then 0 else Max(c.width - |sign| - |digits|, 0)
  {
    var numeral, zeros;
    sign, numeral := SignString(n, c.plus), Numeral(Abs(n));
    front, zeros, back := PrintedForm(n, c);
    ValueOfNumeral(Abs(n));
    LeadingZeros(zeros, numeral);
    digits := Repeat('0', zeros) + numeral;
    assert digits[zeros..] == numeral;
    hide Printed, Numeral, Value, Abs, AllDigits, Repeat;
    Regrouped(Repeat(' ', front), sign, digits, Repeat(' ', back));
  }

  lemma Regrouped(a: string, b: string, c: string, d: string)
    ensures a + (b + (c + d)) == a + b + c + d
  {
  }

  predicate EndsWith(s: string, t: string) { |t| <= |s| && s[|s| - |t|..] == t }

  /** The sign, and then a digit. */
  predicate StartsNumber(s: string, sign: string) { sign <= s && |sign| < |s| && IsDigit(s[|sign|], 10) }

  /** With the flag '0' the only blank is the sign. Otherwise every blank that is not the sign stands before the
      number or behind it, as the flag '-' says; a numeral without leading zeros ends the text when no blanks follow,
      and the sign or a digit begins it when no blanks precede. */
  lemma BlanksAside(n: int, c: Conversion)
    ensures var s, numeral := Printed(n, c), Numeral(Abs(n));
            && (c.zero ==> forall i :: 1 <= i < |s| ==> s[i] != ' ')
            && (c.zero ==> (s[0] == ' ' <==> n >= 0 && c.plus == BlankChar))
            && (c.zero || !c.ladjust ==> EndsWith(s, numeral))
            && (c.zero || c.ladjust ==> StartsNumber(s, SignString(n, c.plus)))
            && (c.ladjust ==> forall i, j :: 1 <= i < j < |s| && s[i] == ' ' ==> s[j] == ' ')
            && (!c.ladjust ==> forall i, j :: 0 <= i < j < |s| && s[j] == ' ' ==> s[i] == ' ')
  {
    var front, sign, digits, back := PrintedShape(n, c);
    hide Printed, Numeral, Value, SignString;
  }

  /** The loops of _doprnt for %d: digits into a buffer from its end, then padding, sign and digits through putc. */
  method PrintSigned(n: int, c: Conversion) returns (out: string)
    requires -LONG_LIMIT <= n < LONG_LIMIT
    ensures out == Printed(n, c)
  {
    hide Numeral, Repeat, Abs, SignString, Printed, Assembled;
    SignIsOne(n, c.plus);
    AbsSmall(n);
    var buf := new char[MAXBUF];
    var u, signChar := Abs(n), SignString(n, c.plus);
    var p, prec := PutDigits(buf, u, c.prec);
    var length := c.width - (MAXBUF - 1 - p);
    if signChar != "" {
      length := length - 1;
    }
    if prec > 0 {
      length := length - prec;
    }
    AssembledIsPrinted(n, c, prec, length, buf[p + 1..]);
    out := Assemble(signChar, prec, length, buf, p, c.zero, c.ladjust);
  }

  lemma AbsSmall(n: int)
    requires -LONG_LIMIT <= n < LONG_LIMIT
    ensures Abs(n) <= LONG_LIMIT
  {
  }

  /** The output part of print_num. */
  method Assemble(signChar: string, prec: int, length0: int, buf: array<char>, p: int, zero: bool,
      ladjust: bool) returns (out: string)
    requires buf.Length == MAXBUF && -1 <= p < MAXBUF
    ensures out == Assembled(signChar, prec, length0, buf[p + 1..], zero, ladjust)
  {
    hide Repeat;
    var length, rest := length0, 0;
    out := "";
    if !zero && !ladjust {
      out, length := PadWith(out, ' ', length);
    }
    out := out + signChar;
    out, rest := PadWith(out, '0', prec);
    if zero {
      out, length := PadWith(out, '0', length);
    }
    out := PutBuffer(buf, p, out);
    if ladjust {
      ghost var before := out;
      out, length := PadWith(out, ' ', length);
      NoneRepeated(before);
    }
  }

  /** The pieces in the order they are put out. */
  function Assembled(sign: string, prec: int, length: int, digits: string, zero: bool, ladjust: bool): string {
    var front := if !zero && !ladjust then "" + Repeat(' ', length) else "";
    var zeros := front + sign + Repeat('0', prec);
    var all := (if zero then zeros + Repeat('0', length) else zeros) + digits;
    if ladjust && !zero then all + Repeat(' ', length) else all
  }

  lemma NoneRepeated(s: string)
    ensures forall k :: k <= 0 ==> s + Repeat(' ', k) == s
  {
  }

  lemma SignIsOne(n: int, plus: PlusSign)
    ensures SignString(n, plus) != "" ==> |SignString(n, plus)| == 1
  {
  }

  lemma AssembledIsPrinted(n: int, c: Conversion, prec: int, length: int, digits: string)
    requires digits == Numeral(Abs(n)) && prec == c.prec - |digits|
    requires length == c.width - |digits| - |SignString(n, c.plus)| - (if prec > 0 then prec else 0)
    ensures Assembled(SignString(n, c.plus), prec, length, digits, c.zero, c.ladjust) == Printed(n, c)
  {
    hide Numeral, SignString, Abs;
    SameRepeat('0', prec);
    hide Repeat;
    assert "" + SignString(n, c.plus) == SignString(n, c.plus);
    assert "" + Repeat(' ', length) == Repeat(' ', length);
  }

  lemma SameRepeat(c: char, k: int)
    ensures Repeat(c, k) == Repeat(c, Max(k, 0))
  {
  }

  /** The digits go out in order. */
  method PutBuffer(buf: array<char>, p0: int, out0: string) returns (out: string)
    requires buf.Length == MAXBUF && -1 <= p0 < MAXBUF
    ensures out == out0 + buf[p0 + 1..]
  {
    var p := p0 + 1;
    out := out0;
    while p != MAXBUF
      invariant p0 + 1 <= p <= MAXBUF && out == out0 + buf[p0 + 1..p]
      decreases MAXBUF - p
    {
      out := out + [buf[p]];
      p := p + 1;
    }
  }

  /** The digits, last one first, down from the end of the buffer; the precision they leave. */
  method PutDigits(buf: array<char>, u0: nat, prec0: int) returns (p: int, prec: int)
    requires buf.Length == MAXBUF && u0 <= LONG_LIMIT
    modifies buf
    ensures 0 <= p < MAXBUF - 1 && buf[p + 1..] == Numeral(u0) && prec == prec0 - |Numeral(u0)|
    ensures |Numeral(u0)| == MAXBUF - 1 - p
  {
    NumeralLength(u0, 10, Power10(10));
    p, prec := MAXBUF - 1, prec0;
    var u := u0;
    buf[p] := DigitChar(u % 10);
    p, u, prec := p - 1, u / 10, prec - 1;
    assert buf[p + 1..] == [DigitChar(u0 % 10)];
    while u != 0
      invariant 0 <= p < MAXBUF - 1 && prec == prec0 - (MAXBUF - 1 - p)
      invariant Numeral(u0) == (if u == 0 then "" else Numeral(u)) + buf[p + 1..]
    {
      ghost var done := buf[p + 1..];
      assert |Numeral(u0)| == |Numeral(u)| + (MAXBUF - 1 - p);
      buf[p] := DigitChar(u % 10);
      assert buf[p..] == [DigitChar(u % 10)] + done;
      p, u, prec := p - 1, u / 10, prec - 1;
    }
  }

  /** while (--length >= 0) putc(c). */
  method PadWith(out0: string, c: char, length0: int) returns (out: string, length: int)
    ensures out == out0 + Repeat(c, length0) && length < 0
  {
    out, length := out0, length0 - 1;
    while length >= 0
      invariant length < length0 && (length0 <= 0 ==> length == length0 - 1) && (length0 > 0 ==> length >= -1)
      invariant out == out0 + Repeat(c, length0 - 1 - length)
      decreases length + 1
    {
      out := out + [c];
      length := length - 1;
    }
  }

  // ----- reading -----

  function SkipSpaces(s: string): string { if s != "" && IsSpace(s[0]) then SkipSpaces(s[1..]) else s }

  function TakeDigits(s: string, base: nat): (d: string)
    ensures AllDigits(d, base) && d <= s && (|d| < |s| ==> !IsDigit(s[|d|], base))
  {
    if s != "" && IsDigit(s[0], base) then [s[0]] + TakeDigits(s[1..], base) else ""
  }

  /** What strtol knows before the digits: the sign, the base, and the text from there on. A plus sign is not
      skipped. */
  datatype Start = Start(neg: bool, base: nat, rest: string)

  predicate HexPrefix(s: string) { |s| >= 2 && s[0] == '0' && (s[1] == 'x' || s[1] == 'X') }

  function Begin(s: string, base: nat): Start { BeginAt(SkipSpaces(s), base) }

  function BeginAt(t: string, base: nat): Start {
    if t != "" && t[0] == '-' then Based(true, t[1..], base) else Based(false, t, base)
  }

  /** Base 16 may be announced by 0x or 0X; base 0 stands for the base that the number announces. */
  function Based(neg: bool, u: string, base: nat): Start {
    if (base == 16 || base == 0) && HexPrefix(u) then Start(neg, 16, u[2..])
    else if base == 0 then Start(neg, if u != "" && u[0] == '0' then 8 else 10, u)
    else Start(neg, base, u)
  }

  /** The number that strtol reads. */
  function Parsed(s: string, base: nat): int {
    var b := Begin(s, base);
    var v := Value(TakeDigits(b.rest, b.base), b.base);
    if b.neg then -(v as int) else v
  }

  /** The text that it leaves: what follows the digits. */
  function Unread(s: string, base: nat): string {
    var b := Begin(s, base);
    b.rest[|TakeDigits(b.rest, b.base)|..]
  }

  /** The number fits in a long. */
  predicate FitsLong(s: string, base: nat) { Abs(Parsed(s, base)) < LONG_LIMIT }

  /** strtol on a string that ends where the NUL is; no intermediate value exceeds the result. */
  method Strtol(s: string, base0: nat) returns (v: int, end: nat)
    requires FitsLong(s, base0)
    ensures v == Parsed(s, base0) && end <= |s| && s[end..] == Unread(s, base0)
  {
    var p := SkipBlanks(s);
    var base := base0;
    hide SkipSpaces, TakeDigits, Value, HexPrefix;
    ghost var t := s[p..];
    var isNeg := false;
    if p < |s| && s[p] == '-' {
      isNeg := true;
      p := p + 1;
    }
    ghost var u := s[p..];
    assert u == if isNeg then t[1..] else t;
    assert isNeg <==> t != "" && t[0] == '-';
    PrefixAt(s, p);
    if (base == 16 || base == 0) && p + 1 < |s| && s[p] == '0' && (s[p + 1] == 'x' || s[p + 1] == 'X') {
      p := p + 2;
      base := 16;
    }
    if base == 0 {
      if p < |s| && s[p] == '0' {
        base := 8;
      } else {
        base := 10;
      }
    }
    assert Begin(s, base0) == Start(isNeg, base, s[p..]);
    v, end := ReadDigits(s, p, base);
    if isNeg {
      v := -v;
    }
  }

  lemma PrefixAt(s: string, p: nat)
    requires p <= |s|
    ensures HexPrefix(s[p..]) <==> p + 1 < |s| && s[p] == '0' && (s[p + 1] == 'x' || s[p + 1] == 'X')
    ensures p + 1 < |s| ==> s[p..][2..] == s[p + 2..]
    ensures p < |s| ==> s[p..][0] == s[p]
  {
  }

  method SkipBlanks(s: string) returns (p: nat)
    ensures p <= |s| && s[p..] == SkipSpaces(s)
  {
    p := 0;
    while p < |s| && IsSpace(s[p])
      invariant 0 <= p <= |s| && SkipSpaces(s) == SkipSpaces(s[p..])
    {
      assert s[p..][1..] == s[p + 1..];
      p := p + 1;
    }
    assert p < |s| ==> s[p..][0] == s[p];
  }

  method ReadDigits(s: string, from: nat, base: nat) returns (v: nat, p: nat)
    requires from <= |s|
    ensures v == Value(TakeDigits(s[from..], base), base) && p == from + |TakeDigits(s[from..], base)| <= |s|
    ensures s[p..] == s[from..][|TakeDigits(s[from..], base)|..]
  {
    hide *;
    ReadBegins(s, from, base);
    v, p := 0, from;
    while p < |s| && IsDigit(s[p], base)
      invariant ReadUpTo(s, from, base, p, v)
    {
      ReadNext(s, from, base, p, v);
      v := v * base + DigitOf(s[p]);
      p := p + 1;
    }
    ReadEnds(s, from, base, p, v);
  }

  /** The digits up to p are read, and v is their value. */
  ghost predicate ReadUpTo(s: string, from: nat, base: nat, p: nat, v: nat) {
    && from <= p <= |s| && AllDigits(s[from..p], base) && v == Value(s[from..p], base)
    && TakeDigits(s[from..], base) == s[from..p] + TakeDigits(s[p..], base)
  }

  lemma ReadBegins(s: string, from: nat, base: nat)
    requires from <= |s|
    ensures ReadUpTo(s, from, base, from, 0)
  {
    hide TakeDigits, IsDigit;
    assert s[from..from] == "";
  }

  lemma ReadNext(s: string, from: nat, base: nat, p: nat, v: nat)
    requires ReadUpTo(s, from, base, p, v) && p < |s| && IsDigit(s[p], base)
    ensures IsAlnum(s[p]) && ReadUpTo(s, from, base, p + 1, v * base + DigitOf(s[p]))
  {
    hide TakeDigits, Value, AllDigits, DigitOf;
    assert s[from..p] + [s[p]] == s[from..p + 1];
    TakeOne(s, p, s[from..p], base);
  }

  lemma ReadEnds(s: string, from: nat, base: nat, p: nat, v: nat)
    requires ReadUpTo(s, from, base, p, v) && (p < |s| ==> !IsDigit(s[p], base))
    ensures from <= |s| && v == Value(TakeDigits(s[from..], base), base)
    ensures p == from + |TakeDigits(s[from..], base)| <= |s| && s[p..] == s[from..][|TakeDigits(s[from..], base)|..]
  {
    hide Value, AllDigits, IsDigit, TakeDigits;
    TakeNone(s, p, base);
    assert s[from..p] + "" == s[from..p];
    assert s[from..][p - from..] == s[p..];
  }

  lemma TakeOne(s: string, p: nat, taken: string, base: nat)
    requires p < |s| && IsDigit(s[p], base) && AllDigits(taken, base)
    ensures taken + TakeDigits(s[p..], base) == (taken + [s[p]]) + TakeDigits(s[p + 1..], base)
    ensures AllDigits(taken + [s[p]], base)
    ensures Value(taken + [s[p]], base) == Value(taken, base) * base + DigitOf(s[p])
  {
    hide TakeDigits, Value, IsDigit, AllDigits, DigitOf;
    TakeFirst(s, p, base);
    OneMoreDigit(taken, s[p], base);
    Joined(taken, [s[p]], TakeDigits(s[p + 1..], base));
  }

  lemma Joined(a: string, b: string, c: string)
    ensures a + (b + c) == (a + b) + c
  {
  }

  lemma TakeFirst(s: string, p: nat, base: nat)
    requires p < |s| && IsDigit(s[p], base)
    ensures TakeDigits(s[p..], base) == [s[p]] + TakeDigits(s[p + 1..], base)
  {
    hide IsAlnum, DigitOf;
    assert s[p..][1..] == s[p + 1..] && s[p..][0] == s[p];
  }

  lemma OneMoreDigit(taken: string, c: char, base: nat)
    requires IsDigit(c, base) && AllDigits(taken, base)
    ensures AllDigits(taken + [c], base) && Value(taken + [c], base) == Value(taken, base) * base + DigitOf(c)
  {
    hide IsAlnum, DigitOf;
    assert (taken + [c])[..|taken|] == taken;
  }

  lemma TakeNone(s: string, p: nat, base: nat)
    requires p <= |s| && (p < |s| ==> !IsDigit(s[p], base))
    ensures TakeDigits(s[p..], base) == ""
  {
    assert p < |s| ==> s[p..][0] == s[p];
  }

  // ----- the round trip -----

  predicate AllSpaces(s: string) { forall i :: 0 <= i < |s| ==> IsSpace(s[i]) }

  lemma {:induction false} SpacesSkipped(b: string, t: string)
    requires AllSpaces(b) && t != "" && !IsSpace(t[0])
    ensures SkipSpaces(b + t) == t
  {
    if b != "" {
      assert (b + t)[1..] == b[1..] + t;
      SpacesSkipped(b[1..], t);
    } else {
      assert b + t == t;
    }
  }

  lemma {:induction false} DigitsTaken(a: string, b: string, base: nat)
    requires AllDigits(a, base) && (b == "" || !IsDigit(b[0], base))
    ensures TakeDigits(a + b, base) == a
  {
    if a == "" {
      assert a + b == b;
    } else {
      assert (a + b)[1..] == a[1..] + b;
      DigitsTaken(a[1..], b, base);
    }
  }

  /** What may stand in front of the digits for strtol to read them in a base: nothing when that base is asked for,
      0x or 0X before hexadecimal digits, and for base 0 what the number begins with decides. */
  predicate Announces(mark: string, s: string, asked: nat, base: nat) {
    if mark == "0x" || mark == "0X" then base == 16 && (asked == 16 || asked == 0)
    else
      && mark == ""
      && (asked == 16 || asked == 0 ==> !HexPrefix(s))
      && base == (if asked != 0 then asked else if s != "" && s[0] == '0' then 8 else 10)
  }

  function Signed(minus: bool, v: nat): int { if minus then -(v as int) else v }

  /** Digits of a base, after white space, a minus sign and the mark of the base, and before other characters, are
      read as the number they stand for, and the text behind them is left. */
  lemma ReadInBase(blanks: string, minus: bool, mark: string, digits: string, tail: string, asked: nat, base: nat)
    requires AllSpaces(blanks) && digits != "" && AllDigits(digits, base)
    requires tail == "" || !IsDigit(tail[0], base)
    requires Announces(mark, digits + tail, asked, base)
    ensures var s := (if minus then "-" else "") + (mark + (digits + tail));
            && Parsed(blanks + s, asked) == Signed(minus, Value(digits, base))
            && Unread(blanks + s, asked) == tail
  {
    hide TakeDigits, Value, SkipSpaces, IsDigit, HexPrefix;
    DigitsTaken(digits, tail, base);
    var u := mark + (digits + tail);
    var s := (if minus then "-" else "") + u;
    BeginIs(blanks, minus, mark, digits, tail, asked, base);
    TailLeft(digits, tail);
  }

  lemma BeginIs(blanks: string, minus: bool, mark: string, digits: string, tail: string, asked: nat, base: nat)
    requires AllSpaces(blanks) && digits != "" && AllDigits(digits, base)
    requires Announces(mark, digits + tail, asked, base)
    ensures Begin(blanks + ((if minus then "-" else "") + (mark + (digits + tail))), asked) ==
        Start(minus, base, digits + tail)
  {
    hide IsDigit, HexPrefix, IsSpace, AllSpaces, AllDigits, SkipSpaces, BeginAt, Based, Announces;
    var u := mark + (digits + tail);
    var s := (if minus then "-" else "") + u;
    MarkKnown(mark, digits + tail, asked, base);
    FirstOfNumber(mark, digits, tail, base);
    MinusNoSpace();
    SpacesSkipped(blanks, s);
    SignRead(minus, u, asked);
    MarkRead(minus, mark, digits + tail, asked, base);
  }

  lemma MarkKnown(mark: string, rest: string, asked: nat, base: nat)
    requires Announces(mark, rest, asked, base)
    ensures mark in {"", "0x", "0X"}
  {
    hide HexPrefix;
  }

  lemma SignRead(minus: bool, u: string, asked: nat)
    requires u != "" && u[0] != '-'
    ensures BeginAt((if minus then "-" else "") + u, asked) == Based(minus, u, asked)
  {
    hide Based;
    assert ("-" + u)[1..] == u && "" + u == u;
  }

  lemma MarkRead(minus: bool, mark: string, rest: string, asked: nat, base: nat)
    requires Announces(mark, rest, asked, base) && rest != ""
    ensures Based(minus, mark + rest, asked) == Start(minus, base, rest)
  {
    if mark == "" {
      assert mark + rest == rest;
    } else {
      assert HexPrefix(mark + rest) && (mark + rest)[2..] == rest;
    }
  }

  lemma MinusNoSpace()
    ensures !IsSpace('-')
  {
  }

  lemma TailLeft(digits: string, tail: string)
    ensures (digits + tail)[|digits|..] == tail
  {
  }

  lemma FirstOfNumber(mark: string, digits: string, tail: string, base: nat)
    requires digits != "" && AllDigits(digits, base) && mark in {"", "0x", "0X"}
    ensures var u := mark + (digits + tail); u != "" && !IsSpace(u[0]) && u[0] != '-'
  {
  }

  const LOWER := "0123456789abcdefghijklmnopqrstuvwxyz"
  const UPPER := "0123456789ABCDEFGHIJKLMNOPQRSTUVWXYZ"

  /** The digits of every base up to 36, in both cases. */
  lemma DigitOrder(d: nat)
    requires d < 36
    ensures IsAlnum(LOWER[d]) && DigitOf(LOWER[d]) == d && IsAlnum(UPPER[d]) && DigitOf(UPPER[d]) == d
  {
    hide IsAlnum, DigitOf;
    InOrder(d);
    LetterValue(d);
  }

  lemma InOrder(d: nat)
    requires d < 36
    ensures LOWER[d] == Shifted(d, 'a') && UPPER[d] == Shifted(d, 'A')
  {
  }

  function Shifted(d: nat, first: char): char
    requires d < 36 && first <= 'a'
  {
    (if d < 10 then d + '0' as int else d - 10 + first as int) as char
  }

  lemma LetterValue(d: nat)
    requires d < 36
    ensures IsAlnum(Shifted(d, 'a')) && DigitOf(Shifted(d, 'a')) == d
    ensures IsAlnum(Shifted(d, 'A')) && DigitOf(Shifted(d, 'A')) == d
  {
  }

  lemma OnlyDigits(c: char, base: nat)
    requires base <= 36
    ensures IsDigit(c, base) <==> c in LOWER[..base] || c in UPPER[..base]
  {
    if IsAlnum(c) {
      var d := DigitOf(c);
      assert c == Shifted(d, 'a') || c == Shifted(d, 'A');
      InOrder(d);
      if d < base {
        assert LOWER[..base][d] == LOWER[d] && UPPER[..base][d] == UPPER[d];
      }
    }
    hide IsAlnum, DigitOf;
    forall d: nat | d < base ensures IsDigit(LOWER[..base][d], base) && IsDigit(UPPER[..base][d], base) {
      DigitOrder(d);
    }
  }

  /** Decimal digits, with zeros in front. */
  lemma ReadBack(blanks: int, n: int, zeros: int, tail: string)
    requires tail == "" || !IsDigit(tail[0], 10)
    ensures var s := (if n < 0 then "-" else "") + (Repeat('0', zeros) + Numeral(Abs(n)) + tail);
            Parsed(Repeat(' ', blanks) + s, 10) == n && Unread(Repeat(' ', blanks) + s, 10) == tail
  {
    hide Numeral, TakeDigits, Value, SkipSpaces, IsDigit, Parsed, Unread;
    var digits := Repeat('0', zeros) + Numeral(Abs(n));
    LeadingZeros(zeros, Numeral(Abs(n)));
    ValueOfNumeral(Abs(n));
    ReadInBase(Repeat(' ', blanks), n < 0, "", digits, tail, 10, 10);
    assert "" + (digits + tail) == digits + tail;
  }

  lemma PlusStops(blanks: int, t: string)
    ensures Parsed(Repeat(' ', blanks) + ("+" + t), 10) == 0
  {
    SpacesSkipped(Repeat(' ', blanks), "+" + t);
  }

  /** What is printed, as blanks, sign, zeros, digits and blanks. */
  lemma PrintedForm(n: int, c: Conversion) returns (front: nat, zeros: nat, back: nat)
    ensures var u := |Numeral(Abs(n))|;
            && var pad := Max(c.width - |SignString(n, c.plus)| - Max(u, c.prec), 0);
            && front == (if c.zero || c.ladjust then 0 else pad)
            && back == (if c.zero || !c.ladjust then 0 else pad)
            && zeros == Max(c.prec - u, 0) + if c.zero then pad else 0
    ensures Printed(n, c) ==
        Repeat(' ', front) + (SignString(n, c.plus) + (Repeat('0', zeros) + Numeral(Abs(n)) + Repeat(' ', back)))
  {
    hide Numeral, Abs;
    var digits, sign := Numeral(Abs(n)), SignString(n, c.plus);
    var z := Max(c.prec - |digits|, 0);
    var pad := Max(c.width - |digits| - |sign| - z, 0);
    SameRepeat('0', c.width - |digits| - |sign| - z);
    SameRepeat(' ', c.width - |digits| - |sign| - z);
    front, zeros, back := 0, z, 0;
    assert Repeat(' ', 0) == "";
    if c.zero {
      zeros := z + pad;
      assert Repeat('0', zeros) == Repeat('0', z) + Repeat('0', pad);
      hide *;
      ZeroForm(sign, Repeat('0', z), Repeat('0', pad), digits);
    } else if c.ladjust {
      back := pad;
      hide *;
      LeftForm(sign, Repeat('0', z), digits, Repeat(' ', pad));
    } else {
      front := pad;
      hide *;
      RightForm(Repeat(' ', pad), sign, Repeat('0', z), digits);
    }
  }

  lemma ZeroForm(sign: string, a: string, b: string, digits: string)
    ensures sign + a + b + digits == "" + (sign + ((a + b) + digits + ""))
  {
  }

  lemma LeftForm(sign: string, a: string, digits: string, b: string)
    ensures sign + a + digits + b == "" + (sign + (a + digits + b))
  {
  }

  lemma RightForm(b: string, sign: string, a: string, digits: string)
    ensures b + sign + a + digits == b + (sign + (a + digits + ""))
  {
  }

  /** Reading back what was printed gives the number, for every width, precision and flags, exactly when no plus sign
      was printed in front of a number other than zero. */
  lemma RoundTrip(n: int, c: Conversion)
    requires -LONG_LIMIT < n < LONG_LIMIT
    ensures Parsed(Printed(n, c), 10) == n <==> !(c.plus == PlusChar && n > 0)
    ensures FitsLong(Printed(n, c), 10)
  {
    hide Parsed, Unread, Numeral, Printed;
    var front, zeros, back := PrintedForm(n, c);
    var tail := Repeat(' ', back);
    if n >= 0 && c.plus == PlusChar {
      PlusStops(front, Repeat('0', zeros) + Numeral(Abs(n)) + tail);
    } else if n >= 0 && c.plus == BlankChar {
      ReadBack(Max(front, 0) + 1, n, zeros, tail);
      assert Repeat(' ', front) + " " == Repeat(' ', Max(front, 0) + 1);
      assert Printed(n, c) == Repeat(' ', Max(front, 0) + 1) + ("" + (Repeat('0', zeros) + Numeral(Abs(n)) + tail));
    } else {
      ReadBack(front, n, zeros, tail);
    }
  }

  /** Printing and reading, as a program would do it. */
  method PrintAndRead(n: int, c: Conversion) returns (v: int)
    requires -LONG_LIMIT < n < LONG_LIMIT
    ensures v == n <==> !(c.plus == PlusChar && n > 0)
  {
    var s := PrintSigned(n, c);
    RoundTrip(n, c);
    var end;
    v, end := Strtol(s, 10);
  }
}
