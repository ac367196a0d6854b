/** The packets of the GDB stub: bytes as hexadecimal digits, runs of equal digits encoded, and what the reader makes
    of them. */
module RunLength {
  import opened Options
  import opened Texts

  type Byte = x: int | 0 <= x < 256 witness 0

  function HexChar(d: nat): (c: char)
    requires d < 16
    ensures c != '*' && HexValue(c) == d
  {
    if d < 10 then ('0' as int + d) as char else ('a' as int + (d - 10)) as char
  }

  /** hex: the value of a digit, -1 for any other character. */
  function HexValue(ch: char): int {
    if '0' <= ch <= '9' then ch as int - '0' as int
    else if 'a' <= ch <= 'f' then ch as int - 'a' as int + 10
    else if 'A' <= ch <= 'F' then ch as int - 'A' as int + 10
    else -1
  }

  /** Two digits for each byte. */
  function Hex(data: seq<Byte>): string {
    if data == [] then "" else [HexChar(data[0] / 16), HexChar(data[0] % 16)] + Hex(data[1..])
  }

  lemma {:induction false} HexAppend(a: seq<Byte>, b: seq<Byte>)
    ensures Hex(a + b) == Hex(a) + Hex(b)
  {
    if a == [] {
      assert a + b == b;
    } else {
      assert (a + b)[1..] == a[1..] + b;
      HexAppend(a[1..], b);
    }
  }

  lemma {:induction false} HexLength(data: seq<Byte>)
    ensures |Hex(data)| == 2 * |data|
  {
    if data != [] {
      HexLength(data[1..]);
    }
  }

  // ----- what the receiver does -----

  /** A character, a star and a count stand for that character and count - 29 more of it. */
  function Expand(s: string): string {
    if s == "" then ""
    else if |s| >= 3 && s[1] == '*' && s[2] as int >= 29 then Repeat(s[0], s[2] as int - 28) + Expand(s[3..])
    else [s[0]] + Expand(s[1..])
  }

  /** A packet body that ends between two units, with printable counts. */
  ghost predicate Whole(s: string) {
    if s == "" then true
    else if |s| >= 2 && s[1] == '*' then |s| >= 3 && s[0] != '*' && 32 <= s[2] as int <= 126 && Whole(s[3..])
    else s[0] != '*' && Whole(s[1..])
  }

  lemma {:induction false} WholeAppend(a: string, b: string)
    requires Whole(a) && Whole(b)
    ensures Whole(a + b) && Expand(a + b) == Expand(a) + Expand(b)
    decreases |a|
  {
    if a != "" {
      WholeCases(a);
    }
    if b != "" {
      WholeCases(b);
    }
    EmptyWhole();
    hide Whole, Expand, Repeat;
    if a == "" {
      assert a + b == b;
      assert Expand(a) + Expand(b) == Expand(b);
    } else if |a| >= 2 && a[1] == '*' {
      WholeAppend(a[3..], b);
      RunAppend(a, b);
    } else {
      WholeAppend(a[1..], b);
      OneAppend(a, b);
    }
  }

  lemma RunAppend(a: string, b: string)
    requires |a| >= 3 && a[1] == '*' && a[0] != '*' && 32 <= a[2] as int <= 126
    requires Whole(a[3..] + b) && Expand(a[3..] + b) == Expand(a[3..]) + Expand(b)
    ensures Whole(a + b) && Expand(a + b) == Expand(a) + Expand(b)
  {
    assert (a + b)[3..] == a[3..] + b;
    RunFirst(a);
    RunFirst(a + b);
    hide *;
    ThreeParts(Repeat(a[0], a[2] as int - 28), Expand(a[3..]), Expand(b));
  }

  lemma OneAppend(a: string, b: string)
    requires a != "" && a[0] != '*' && (|a| >= 2 ==> a[1] != '*') && (b != "" ==> b[0] != '*')
    requires Whole(a[1..] + b) && Expand(a[1..] + b) == Expand(a[1..]) + Expand(b)
    ensures Whole(a + b) && Expand(a + b) == Expand(a) + Expand(b)
  {
    hide *;
    var s := a + b;
    assert s[1..] == a[1..] + b && s[0] == a[0];
    assert |s| >= 2 ==> s[1] == if |a| >= 2 then a[1] else b[0];
    OneFirst(a);
    OneFirst(s);
    ThreeParts([a[0]], Expand(a[1..]), Expand(b));
  }

  lemma ThreeParts(a: string, b: string, c: string)
    ensures a + (b + c) == (a + b) + c
  {
  }

  lemma EmptyWhole()
    ensures Whole("") && Expand("") == ""
  {
  }

  /** A packet body starts with a run or with a character. */
  lemma WholeCases(s: string)
    requires Whole(s) && s != ""
    ensures s[0] != '*'
    ensures if |s| >= 2 && s[1] == '*' then |s| >= 3 && 32 <= s[2] as int <= 126 && Whole(s[3..]) else Whole(s[1..])
  {
  }

  lemma RunFirst(s: string)
    requires |s| >= 3 && s[1] == '*' && s[0] != '*' && 32 <= s[2] as int <= 126
    ensures Whole(s) == Whole(s[3..]) && Expand(s) == Repeat(s[0], s[2] as int - 28) + Expand(s[3..])
  {
  }

  lemma OneFirst(s: string)
    requires s != "" && s[0] != '*' && (|s| >= 2 ==> s[1] != '*')
    ensures Whole(s) == Whole(s[1..]) && Expand(s) == [s[0]] + Expand(s[1..])
  {
  }

  // ----- putfrags -----

  /** How many bytes at the front are equal. */
  function LeadingRun(data: seq<Byte>): nat {
    if |data| <= 1 then |data| else if data[1] == data[0] then LeadingRun(data[1..]) + 1 else 1
  }

  const MAX_RUN := 49

  /** How many bytes at the front go into one unit: a run of at most MAX_RUN when their digits are equal, or one
      byte. */
  function UnitOf(data: seq<Byte>): (n: nat)
    ensures data != [] ==> 0 < n <= |data|
  {
    if |data| <= 1 || data[1] != data[0] || data[0] / 16 != data[0] % 16 then if data == [] then 0 else 1
    else RunWithin(data); if LeadingRun(data) <= MAX_RUN then LeadingRun(data) else MAX_RUN
  }

  /** What putfrags sends for some bytes: each run in one unit, as far as one unit reaches. */
  function Encode(data: seq<Byte>): string {
    if data == [] then ""
    else var n := UnitOf(data);
      if n == 1 then [HexChar(data[0] / 16), HexChar(data[0] % 16)] + Encode(data[1..])
      else [HexChar(data[0] % 16), '*', (28 + 2 * n) as char] + Encode(data[n..])
  }

  lemma {:induction false} RunWithin(data: seq<Byte>)
    ensures LeadingRun(data) <= |data| && (data != [] ==> LeadingRun(data) > 0)
    ensures |data| > 1 && data[1] == data[0] ==> LeadingRun(data) > 1
    ensures forall i :: 0 <= i < LeadingRun(data) ==> data[i] == data[0]
  {
    if |data| > 1 && data[1] == data[0] {
      RunWithin(data[1..]);
      forall i | 0 <= i < LeadingRun(data)
        ensures data[i] == data[0]
      {
        assert i > 0 ==> data[i] == data[1..][i - 1];
      }
    }
  }

  /** Equal bytes at the front are in the run, which ends where another byte comes. */
  lemma {:induction false} RunIs(data: seq<Byte>, n: nat)
    requires 0 < n <= |data| && forall i :: 0 <= i < n ==> data[i] == data[0]
    ensures LeadingRun(data) >= n && (n == |data| || data[n] != data[0] ==> LeadingRun(data) == n)
  {
    RunWithin(data);
    if n > 1 {
      assert forall i :: 0 <= i < n - 1 ==> data[1..][i] == data[i + 1];
      RunIs(data[1..], n - 1);
    }
  }

  /** Two equal bytes side by side whose digits are equal. */
  ghost predicate Squeezes(data: seq<Byte>, i: int) {
    0 <= i < |data| - 1 && data[i + 1] == data[i] && data[i] / 16 == data[i] % 16
  }

  /** The encoding is never longer than two digits a byte, and shorter exactly when such a pair is there. */
  lemma {:induction false} EncodeShorter(data: seq<Byte>)
    ensures |Encode(data)| <= 2 * |data|
    ensures |Encode(data)| < 2 * |data| <==> exists i :: Squeezes(data, i)
  {
    if data != [] {
      var n := UnitOf(data);
      if n == 1 {
        EncodeShorter(data[1..]);
        NoSqueeze(data);
      } else {
        EncodeShorter(data[n..]);
        assert Squeezes(data, 0);
      }
    }
  }

  lemma NoSqueeze(data: seq<Byte>)
    requires data != [] && UnitOf(data) == 1
    ensures (exists i :: Squeezes(data, i)) <==> exists i :: Squeezes(data[1..], i)
  {
    RunWithin(data);
    if i :| Squeezes(data, i) {
      assert Squeezes(data[1..], i - 1);
    }
    if i :| Squeezes(data[1..], i) {
      assert Squeezes(data, i + 1);
    }
  }

  /** A unit and the encoding of what follows. */
  lemma UnitEncoded(data: seq<Byte>, p: nat, q: nat)
    requires p < q <= |data| && forall k :: p <= k < q ==> data[k] == data[p]
    requires if p + 1 < |data| && data[p + 1] == data[p] && data[p] / 16 == data[p] % 16
             then 2 <= q - p <= MAX_RUN && (q == |data| || q - p == MAX_RUN || data[q] != data[p]) else q == p + 1
    ensures var unit := if q == p + 1 then [HexChar(data[p] / 16), HexChar(data[p] % 16)]
                        else [HexChar(data[p] % 16), '*', (28 + 2 * (q - p)) as char];
            Encode(data[p..]) == unit + Encode(data[q..])
  {
    var d := data[p..];
    assert forall i :: 0 <= i < q - p ==> d[i] == data[p + i];
    assert d[q - p..] == data[q..];
    RunIs(d, q - p);
  }

  ghost function Sum(s: string): nat { if s == "" then 0 else Sum(s[..|s| - 1]) + s[|s| - 1] as int }

  /** A run of equal bytes with two equal digits is that digit, twice as often. */
  lemma {:induction false} HexOfRun(data: seq<Byte>, d: nat)
    requires d < 16 && forall i :: 0 <= i < |data| ==> data[i] == 17 * d
    ensures Hex(data) == Repeat(HexChar(d), 2 * |data|)
  {
    if data != [] {
      HexOfRun(data[1..], d);
      assert (17 * d) / 16 == d && (17 * d) % 16 == d;
      assert Repeat(HexChar(d), 2 * |data|) == [HexChar(d), HexChar(d)] + Repeat(HexChar(d), 2 * (|data| - 1));
    }
  }

  lemma SameNibbles(b: Byte)
    requires b / 16 == b % 16
    ensures b == 17 * (b % 16)
  {
  }

  /** The encoding of a run of bytes expands to its digits. */
  lemma RunUnit(data: seq<Byte>, i: nat, q: nat)
    requires i + 2 <= q <= |data| && q - i <= 49 && data[i] / 16 == data[i] % 16
    requires forall k :: i <= k < q ==> data[k] == data[i]
    ensures var unit := [HexChar(data[i] % 16), '*', (29 + 2 * (q - i) - 1) as char];
            Whole(unit) && Expand(unit) == Hex(data[i..q])
  {
    SameNibbles(data[i]);
    var run := data[i..q];
    assert forall k :: 0 <= k < |run| ==> run[k] == data[i + k];
    HexOfRun(run, data[i] % 16);
    var unit := [HexChar(data[i] % 16), '*', (29 + 2 * (q - i) - 1) as char];
    assert unit[3..] == "";
    assert Whole(unit[3..]) && Expand(unit[3..]) == "";
    assert Repeat(unit[0], 2 * (q - i)) + "" == Repeat(unit[0], 2 * (q - i));
  }

  lemma PairUnit(data: seq<Byte>, i: nat)
    requires i < |data|
    ensures var unit := [HexChar(data[i] / 16), HexChar(data[i] % 16)];
            Whole(unit) && Expand(unit) == Hex(data[i..i + 1])
  {
    var unit := [HexChar(data[i] / 16), HexChar(data[i] % 16)];
    assert data[i..i + 1] == [data[i]] && [data[i]][1..] == [] && Hex([data[i]]) == unit + "";
    OneFirst(unit);
    assert unit[1..] == [HexChar(data[i] % 16)] && unit[1..][1..] == "";
    OneFirst(unit[1..]);
  }

  /** One more unit of a fragment. */
  lemma UnitSent(data: seq<Byte>, out: string, i: nat, q: nat, unit: string)
    requires i <= q <= |data| && Whole(out) && Expand(out) == Hex(data[..i]) && Whole(unit)
    requires Expand(unit) == Hex(data[i..q])
    ensures Whole(out + unit) && Expand(out + unit) == Hex(data[..q])
  {
    hide Whole, Expand, Hex;
    WholeAppend(out, unit);
    HexAppend(data[..i], data[i..q]);
    assert data[..i] + data[i..q] == data[..q];
  }

  lemma {:induction false} SumAppend(a: string, b: string)
    ensures Sum(a + b) == Sum(a) + Sum(b)
    decreases |b|
  {
    if b == "" {
      assert a + b == a;
    } else {
      assert (a + b)[..|a + b| - 1] == a + b[..|b| - 1];
      SumAppend(a, b[..|b| - 1]);
    }
  }

  lemma ModAdd(a: nat, b: nat)
    ensures (a % 256 + b) % 256 == (a + b) % 256
  {
  }

  lemma SumOne(c: char)
    ensures Sum([c]) == c as int
  {
    assert [c][..0] == "";
  }

  lemma SumStep(s: string, c: char, checksum: int)
    requires checksum == Sum(s) % 256
    ensures (checksum + c as int) % 256 == Sum(s + [c]) % 256
  {
    SumAppend(s, [c]);
    SumOne(c);
    ModAdd(Sum(s), c as int);
  }

  /** The characters sent so far, and their sum modulo 256. */
  class Line {
    var sent: string
    var checksum: int

    ghost predicate Valid()
      reads this
    {
      checksum == Sum(sent) % 256
    }

    constructor ()
      ensures Valid() && sent == ""
    {
      sent, checksum := "", 0;
    }

    /** SEND. */
    method Send(ch: char)
      requires Valid()
      modifies this
      ensures Valid() && sent == old(sent) + [ch]
    {
      SumStep(sent, ch, checksum);
      hide Sum;
      sent := sent + [ch];
      checksum := (checksum + ch as int) % 256;
    }

    /** The loop of putfrags over one fragment of fixed length that is sent as hexadecimal digits. */
    method PutFrag(data: seq<Byte>)
      requires Valid() && data != []
      modifies this
      ensures Valid() && Carries(old(sent), sent, Encode(data), data)
    {
      var p := 0;
      ghost var before, body := sent, "";
      EmptyWhole();
      hide Sum, Whole, Expand;
      assert data[..0] == [] && Hex([]) == "" && data[0..] == data && Encode([]) == "";
      hide Hex, Encode;
      while p < |data|
        invariant 0 <= p <= |data| && Valid() && sent == before + body && Whole(body) && Expand(body) == Hex(data[..p])
        invariant body + Encode(data[p..]) == Encode(data)
      {
        ghost var unit;
        ghost var from := p;
        p, unit := PutUnit(data, p);
        UnitSent(data, body, from, p, unit);
        ThreeParts(before, body, unit);
        ThreeParts(body, unit, Encode(data[p..]));
        body := body + unit;
      }
      assert data[..p] == data && data[p..] == [] && body + "" == body;
      assert Carries(before, sent, body, data);
    }

    /** One step of it: a run of bytes whose digits are all equal, or one byte. */
    method PutUnit(data: seq<Byte>, p: nat) returns (q: nat, ghost unit: string)
      requires Valid() && p < |data|
      modifies this
      ensures Valid() && p < q <= |data| && sent == old(sent) + unit && Whole(unit) && Expand(unit) == Hex(data[p..q])
      ensures Encode(data[p..]) == unit + Encode(data[q..])
    {
      hide Sum, Whole, Expand, Hex, Encode;
      if p + 1 < |data| && data[p + 1] == data[p] && data[p] / 16 == data[p] % 16 {
        var limit := p + 98 / 2;
        q := p + 2;
        if limit > |data| {
          limit := |data|;
        }
        while q < limit && data[q] == data[p]
          invariant p + 2 <= q <= limit && forall k :: p <= k < q ==> data[k] == data[p]
        {
          q := q + 1;
        }
        var rl := (q - p) * 2;
        Send(HexChar(data[p] % 16));
        Send('*');
        Send((29 + rl - 1) as char);
        unit := [HexChar(data[p] % 16), '*', (29 + rl - 1) as char];
        RunUnit(data, p, q);
        UnitEncoded(data, p, q);
      } else {
        Send(HexChar(data[p] / 16));
        Send(HexChar(data[p] % 16));
        unit := [HexChar(data[p] / 16), HexChar(data[p] % 16)];
        q := p + 1;
        PairUnit(data, p);
        UnitEncoded(data, p, q);
      }
    }
  }

  /** What was sent is a packet body that expands to the digits of the data. */
  ghost predicate Carries(before: string, after: string, body: string, data: seq<Byte>) {
    after == before + body && Whole(body) && Expand(body) == Hex(data)
  }

  // ----- hex2bin -----

  /** hex2bin of len bytes; it fails on a character that is not a digit. */
  method Hex2Bin(input: string, len: nat) returns (out: Option<seq<Byte>>)
    requires 2 * len <= |input|
    ensures forall data: seq<Byte> :: |data| == len && input[..2 * len] == Hex(data) ==> out == Some(data)
    ensures out == None <==> exists i :: 0 <= i < 2 * len && HexValue(input[i]) < 0
  {
    var bytes: seq<Byte> := [];
    var k := 0;
    while k < len
      invariant 0 <= k <= len && |bytes| == k
      invariant forall i :: 0 <= i < 2 * k ==> HexValue(input[i]) >= 0
      invariant forall i :: 0 <= i < k ==> bytes[i] == HexValue(input[2 * i]) * 16 + HexValue(input[2 * i + 1])
    {
      var hi, lo := HexValue(input[2 * k]), HexValue(input[2 * k + 1]);
      if hi < 0 || lo < 0 {
        assert HexValue(input[if hi < 0 then 2 * k else 2 * k + 1]) < 0;
        forall data: seq<Byte> | |data| == len
          ensures input[..2 * len] != Hex(data)
        {
          HexAt(data, k);
        }
        return None;
      }
      bytes := bytes + [hi * 16 + lo];
      k := k + 1;
    }
    out := Some(bytes);
    forall data: seq<Byte> | |data| == len && input[..2 * len] == Hex(data)
      ensures bytes == data
    {
      forall i | 0 <= i < len
        ensures bytes[i] == data[i]
      {
        HexAt(data, i);
        assert input[2 * i] == input[..2 * len][2 * i] && input[2 * i + 1] == input[..2 * len][2 * i + 1];
      }
    }
  }

  lemma {:induction false} HexAt(data: seq<Byte>, i: nat)
    requires i < |data|
    ensures |Hex(data)| == 2 * |data|
    ensures Hex(data)[2 * i] == HexChar(data[i] / 16) && Hex(data)[2 * i + 1] == HexChar(data[i] % 16)
  {
    HexLength(data);
    if i > 0 {
      HexAt(data[1..], i - 1);
      assert Hex(data)[2..] == Hex(data[1..]);
    }
  }

  /** A fragment that was sent, expanded and decoded is the fragment. */
  method SendAndDecode(data: seq<Byte>) returns (back: Option<seq<Byte>>, ghost packet: string)
    requires data != []
    ensures packet == Encode(data) && Whole(packet) && back == Some(data)
  {
    var line := new Line();
    line.PutFrag(data);
    ghost var body := Encode(data);
    assert line.sent == body;
    packet := line.sent;
    HexLength(data);
    back := Hex2Bin(Expand(line.sent), |data|);
    assert Expand(body)[..2 * |data|] == Hex(data);
  }
}
