/** Text forms of addresses, and what parsing one means (section 2.2 of RFC 4291). */
module InetText {
  import opened Common

  // ---- Numbers, as sprintf prints them -----------------------------------------------------

  function Digit(d: nat): char
    requires d < 16
  {
    if d < 10 then '0' + d as char else 'a' + (d - 10) as char
  }

  /** %u for base 10, %x for base 16. */
  function Print(n: nat, base: nat): string
    requires 2 <= base <= 16
    decreases n
  {
    if n < base then [Digit(n)] else Print(n / base, base) + [Digit(n % base)]
  }

  function Dec(n: nat): string {
    Print(n, 10)
  }

  function Hex(n: nat): string {
    Print(n, 16)
  }

  function HexDigitValue(c: char): int {
    if '0' <= c <= '9' then c as int - '0' as int
    else if 'a' <= c <= 'f' then c as int - 'a' as int + 10
    else if 'A' <= c <= 'F' then c as int - 'A' as int + 10
    else -1
  }

  lemma DigitValue(d: nat)
    requires d < 16
    ensures HexDigitValue(Digit(d)) == d && Digit(d) != ':' && Digit(d) != '.'
    ensures d < 10 ==> '0' <= Digit(d) <= '9' && Digit(d) as int - '0' as int == d
  {
  }

  // ---- Dotted quads ---------------------------------------------------------------------------

  predicate DecDigit(c: char) {
    '0' <= c <= '9'
  }

  /** inet_pton4 from one character on: octets finished, the current one, and whether it has a digit. */
  function Scan4(s: string, done: seq<Byte>, cur: Byte, saw: bool): Option<seq<Byte>>
    decreases |s|
  {
    var octets := |done| + if saw then 1 else 0;
    if s == [] then (if octets < 4 then None else Some(done + [cur]))
    else
      var c := s[0];
      if DecDigit(c) then
        var n := cur * 10 + (c as int - '0' as int);
        if saw && cur == 0 then None
        else if n > 255 then None
        else if !saw && octets + 1 > 4 then None
        else Scan4(s[1..], done, n, true)
      else if c == '.' && saw then
        (if octets == 4 then None else Scan4(s[1..], done + [cur], 0, false))
      else None
  }

  function Parse4(s: string): Option<seq<Byte>> {
    Scan4(s, [], 0, false)
  }

  /** "%u.%u.%u.%u" */
  function Quad(b: seq<Byte>): string
    requires |b| == 4
  {
    Dec(b[0]) + "." + (Dec(b[1]) + "." + (Dec(b[2]) + "." + Dec(b[3])))
  }

  /** What is left to print of a quad. */
  function QuadRest(b: seq<Byte>): string
    requires 1 <= |b| <= 4
  {
    if |b| == 1 then Dec(b[0]) else Dec(b[0]) + "." + QuadRest(b[1..])
  }

  lemma QuadIsRest(b: seq<Byte>)
    requires |b| == 4
    ensures Quad(b) == QuadRest(b)
  {
    var c := b[1..];
    var d := c[1..];
    var e := d[1..];
    assert QuadRest(e) == Dec(b[3]);
    assert QuadRest(d) == Dec(b[2]) + "." + QuadRest(e);
    assert QuadRest(c) == Dec(b[1]) + "." + QuadRest(d);
  }

  /** Reading a printed octet. */
  lemma {:induction false} Scan4Dec(n: Byte, rest: string, done: seq<Byte>)
    requires |done| < 4
    ensures Scan4(Dec(n) + rest, done, 0, false) == Scan4(rest, done, n, true)
    decreases n
  {
    DigitValue(n % 10);
    if n < 10 {
      DigitValue(n);
      assert (Dec(n) + rest)[1..] == rest;
    } else {
      var tail := [Digit(n % 10)] + rest;
      assert Dec(n) + rest == Dec(n / 10) + tail;
      Scan4Dec(n / 10, tail, done);
      assert tail[1..] == rest;
    }
  }

  lemma {:induction false} Scan4Rest(b: seq<Byte>, done: seq<Byte>)
    requires 1 <= |b| && |done| + |b| == 4
    ensures Scan4(QuadRest(b), done, 0, false) == Some(done + b)
    decreases |b|
  {
    if |b| == 1 {
      Scan4Dec(b[0], [], done);
      assert Dec(b[0]) + [] == QuadRest(b);
      assert b == [b[0]];
    } else {
      var tail := "." + QuadRest(b[1..]);
      assert QuadRest(b) == Dec(b[0]) + tail;
      Scan4Dec(b[0], tail, done);
      assert tail[1..] == QuadRest(b[1..]);
      Scan4Rest(b[1..], done + [b[0]]);
      assert done + [b[0]] + b[1..] == done + b;
    }
  }

  /** What was consumed so far of a quad. */
  function QuadPart(done: seq<Byte>, cur: Byte, saw: bool): string {
    (if done == [] then "" else QuadPart(done[..|done| - 1], done[|done| - 1], true) + ".") + if saw then Dec(cur) else ""
  }

  lemma DecGrows(cur: Byte, d: nat)
    requires d < 10 && 1 <= cur && cur * 10 + d <= 255
    ensures Dec(cur * 10 + d) == Dec(cur) + [Digit(d)]
  {
  }

  lemma PartDigit(done: seq<Byte>, cur: Byte, saw: bool, d: nat)
    requires d < 10 && (if saw then cur >= 1 else cur == 0) && cur * 10 + d <= 255
    ensures QuadPart(done, cur * 10 + d, true) == QuadPart(done, cur, saw) + [Digit(d)]
  {
    if saw {
      DecGrows(cur, d);
    }
  }

  lemma PartDot(done: seq<Byte>, cur: Byte)
    ensures QuadPart(done + [cur], 0, false) == QuadPart(done, cur, true) + "."
  {
    assert (done + [cur])[..|done|] == done;
  }

  lemma Next(a: string, c: char, s: string)
    ensures a + ([c] + s) == (a + [c]) + s
  {
  }

  lemma DigitOf(c: char)
    requires DecDigit(c)
    ensures var d := c as int - '0' as int; 0 <= d < 10 && Digit(d) == c
  {
  }

  lemma {:induction false} Scan4Sound(s: string, done: seq<Byte>, cur: Byte, saw: bool)
    requires |done| <= 3 && (!saw ==> cur == 0) && Scan4(s, done, cur, saw).Some?
    ensures var b := Scan4(s, done, cur, saw).value; |b| == 4 && QuadPart(done, cur, saw) + s == QuadPart(b[..3], b[3], true)
    decreases |s|
  {
    if s == [] {
      assert (done + [cur])[..3] == done;
      assert QuadPart(done, cur, saw) + s == QuadPart(done, cur, saw);
    } else {
      var c := s[0];
      assert s == [c] + s[1..];
      hide QuadPart, Digit;
      if DecDigit(c) {
        var d := c as int - '0' as int;
        DigitOf(c);
        PartDigit(done, cur, saw, d);
        Scan4Sound(s[1..], done, cur * 10 + d, true);
        Next(QuadPart(done, cur, saw), c, s[1..]);
      } else {
        PartDot(done, cur);
        Scan4Sound(s[1..], done + [cur], 0, false);
        Next(QuadPart(done, cur, saw), c, s[1..]);
      }
    }
  }

  lemma QuadPartWhole(b: seq<Byte>)
    requires |b| == 4
    ensures QuadPart(b[..3], b[3], true) == Quad(b)
  {
    assert b[..3][..2] == b[..2] && b[..2][..1] == b[..1] && b[..1][..0] == [];
    assert QuadPart(b[..1], b[1], true) == Dec(b[0]) + "." + Dec(b[1]);
    assert QuadPart(b[..2], b[2], true) == Dec(b[0]) + "." + Dec(b[1]) + "." + Dec(b[2]);
  }

  /** inet_pton4 accepts exactly what inet_ntop4 prints, and gives back the same octets. */
  lemma Parse4Exact(s: string, b: seq<Byte>)
    ensures Parse4(s) == Some(b) <==> |b| == 4 && s == Quad(b)
  {
    if |b| == 4 && s == Quad(b) {
      QuadIsRest(b);
      Scan4Rest(b, []);
      assert [] + b == b;
    }
    if Parse4(s) == Some(b) {
      Scan4Sound(s, [], 0, false);
      QuadPartWhole(b);
      assert "" + s == s;
    }
  }
}
