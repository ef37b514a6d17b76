/** The printers and parsers of net/inet.c. */
module Inet {
  import opened Common
  import opened InetText
  import opened Inet6Text

  // ---- What inet_ntop6 has to print ---------------------------------------------------------

  function Word(src: seq<Byte>, i: nat): nat
    requires 2 * i + 1 < |src|
  {
    var high: int, low: int := src[2 * i], src[2 * i + 1];
    high * 256 + low
  }

  function Words(src: seq<Byte>): seq<nat>
    requires |src| == 16
  {
    seq(8, i requires 0 <= i < 8 => Word(src, i))
  }

  /** A run of zero groups. */
  predicate ZeroRun(ws: seq<nat>, b: int, l: int) {
    0 <= b && 1 <= l && b + l <= |ws| && forall i :: b <= i < b + l ==> ws[i] == 0
  }

  /** The leftmost of the longest runs before `lim`; -1 when there is none. */
  ghost predicate Leading(ws: seq<nat>, lim: int, b: int, l: int) {
    if b == -1 then forall c, m :: ZeroRun(ws, c, m) ==> c + m > lim
    else ZeroRun(ws, b, l) && b + l <= lim && forall c, m :: ZeroRun(ws, c, m) && c + m <= lim ==> m < l || (m == l && c >= b)
  }

  /** Section 4.2 of RFC 5952: the leftmost of the longest runs of two or more, or none. */
  ghost predicate Best(ws: seq<nat>, b: int, l: int) {
    if b == -1 then forall c, m :: ZeroRun(ws, c, m) ==> m < 2
    else l >= 2 && ZeroRun(ws, b, l) && forall c, m :: ZeroRun(ws, c, m) ==> m < l || (m == l && c >= b)
  }

  lemma BestUnique(ws: seq<nat>, b: int, l: int, b': int, l': int)
    requires Best(ws, b, l) && Best(ws, b', l')
    ensures b == b' && (b != -1 ==> l == l')
  {
  }

  function HexAll(ws: seq<nat>): seq<string> {
    seq(|ws|, i requires 0 <= i < |ws| => Hex(ws[i]))
  }

  /** The last four bytes are shown as IPv4: compatible and mapped addresses. */
  predicate ShowsQuad(ws: seq<nat>, b: int, l: int)
    requires |ws| == 8
  {
    b == 0 && (l == 6 || (l == 5 && ws[5] == 0xffff))
  }

  function Canon(src: seq<Byte>, b: int, l: int): Addr
    requires |src| == 16 && (b == -1 || ZeroRun(Words(src), b, l))
  {
    var ws := Words(src);
    if b == -1 then Addr(HexAll(ws), false, [], None)
    else if ShowsQuad(ws, b, l) then Addr([], true, HexAll(ws[l..6]), Some(src[12..]))
    else Addr(HexAll(ws[..b]), true, HexAll(ws[b + l..]), None)
  }

  /** `text` is the printed form of `src`. */
  ghost predicate Prints(src: seq<Byte>, text: string)
    requires |src| == 16
  {
    exists b, l :: Best(Words(src), b, l) && Well(Canon(src, b, l)) && text == Show(Canon(src, b, l))
  }

  lemma {:induction false} HexFacts(n: nat)
    ensures |Hex(n)| >= 1 && (forall i :: 0 <= i < |Hex(n)| ==> HexDigitValue(Hex(n)[i]) >= 0) && HexVal(Hex(n)) == n
    ensures (n < 16 ==> |Hex(n)| == 1) && (n < 256 ==> |Hex(n)| <= 2) && (n < 4096 ==> |Hex(n)| <= 3) && (n < 65536 ==> |Hex(n)| <= 4)
  {
    if n >= 16 {
      HexFacts(n / 16);
      DigitValue(n % 16);
      HexFoldMore(0, Hex(n / 16), Digit(n % 16));
    } else {
      DigitValue(n);
      assert HexFold(0, Hex(n)) == HexFold(HexDigitValue(Hex(n)[0]), Hex(n)[1..]);
    }
  }

  lemma HexGroups(ws: seq<nat>)
    requires forall i :: 0 <= i < |ws| ==> ws[i] < 65536
    ensures forall i :: 0 <= i < |HexAll(ws)| ==> IsGroup(HexAll(ws)[i])
  {
    forall i | 0 <= i < |ws| ensures IsGroup(HexAll(ws)[i]) {
      HexFacts(ws[i]);
    }
  }

  lemma WordBytes(src: seq<Byte>, a: nat)
    requires 2 * a + 1 < |src|
    ensures Two(HexVal(Hex(Word(src, a)))) == [src[2 * a], src[2 * a + 1]]
  {
    HexFacts(Word(src, a));
    hide Hex, HexVal;
  }

  /** The bytes of a stretch of groups. */
  lemma {:induction false} HexBytes(src: seq<Byte>, a: nat, z: nat)
    requires |src| == 16 && a <= z <= 8
    ensures GroupBytes(HexAll(Words(src)[a..z])) == src[2 * a..2 * z]
    decreases z - a
  {
    if a < z {
      var ws := Words(src);
      var gs := HexAll(ws[a..z]);
      assert gs[1..] == HexAll(ws[a + 1..z]);
      assert gs[0] == Hex(Word(src, a));
      WordBytes(src, a);
      HexBytes(src, a + 1, z);
      hide HexAll, Words, Word, Hex, HexVal, Two;
      assert src[2 * a..2 * z] == [src[2 * a], src[2 * a + 1]] + src[2 * (a + 1)..2 * z];
    }
  }

  lemma WordsSmall(src: seq<Byte>)
    requires |src| == 16
    ensures forall i :: 0 <= i < 8 ==> Words(src)[i] < 65536
  {
  }

  lemma ZeroBytes(src: seq<Byte>, b: nat, l: nat)
    requires |src| == 16 && ZeroRun(Words(src), b, l)
    ensures src[2 * b..2 * (b + l)] == Zeros(2 * l)
  {
    forall k | 2 * b <= k < 2 * (b + l) ensures src[k] == 0 {
      assert Words(src)[k / 2] == 0;
      assert Word(src, k / 2) == 0;
      assert k == 2 * (k / 2) || k == 2 * (k / 2) + 1;
    }
  }

  lemma CanonFull(src: seq<Byte>)
    requires |src| == 16
    ensures var a := Addr(HexAll(Words(src)), false, [], None); Well(a) && Value(a) == src
  {
    var ws := Words(src);
    WordsSmall(src);
    HexGroups(ws);
    HexBytes(src, 0, 8);
    assert ws[0..8] == ws && src[0..16] == src;
    assert src + [] == src;
  }

  lemma CanonQuad(src: seq<Byte>, l: nat)
    requires |src| == 16 && 2 <= l <= 6 && ZeroRun(Words(src), 0, l)
    ensures var a := Addr([], true, HexAll(Words(src)[l..6]), Some(src[12..])); Well(a) && Value(a) == src
  {
    var ws := Words(src);
    WordsSmall(src);
    ZeroBytes(src, 0, l);
    HexGroups(ws[l..6]);
    HexBytes(src, l, 6);
    hide Words, Word, ZeroRun, IsGroup, Zeros;
    var gs := HexAll(ws[l..6]);
    assert |gs| == 6 - l;
    hide HexAll;
    assert GroupBytes([]) == [];
    assert src == src[0..2 * l] + (src[2 * l..12] + src[12..]);
    assert [] + src[0..2 * l] == src[0..2 * l];
  }

  lemma ThreeParts(src: seq<Byte>, a: nat, z: nat)
    requires a <= z <= |src|
    ensures src[0..a] + src[a..z] + (src[z..|src|] + []) == src
  {
  }

  /** The value of a short form, from the bytes of its sides. */
  lemma ShortValue(a: Addr, src: seq<Byte>, b: nat, l: nat)
    requires a.gap && a.quad.None? && Well(a) && |src| == 16 && |a.head| == b && |a.tail| == 8 - b - l && b + l <= 8
    requires GroupBytes(a.head) == src[0..2 * b] && GroupBytes(a.tail) == src[2 * (b + l)..16] && src[2 * b..2 * (b + l)] == Zeros(2 * l)
    ensures Value(a) == src
  {
    assert 16 - Size(a) == 2 * l;
    ThreeParts(src, 2 * b, 2 * (b + l));
    hide Zeros, GroupBytes, Well, Size;
  }

  lemma CanonShort(src: seq<Byte>, b: nat, l: nat)
    requires |src| == 16 && ZeroRun(Words(src), b, l) && l >= 2
    ensures var a := Addr(HexAll(Words(src)[..b]), true, HexAll(Words(src)[b + l..]), None); Well(a) && Value(a) == src
  {
    var ws := Words(src);
    assert b + l <= 8 && |ws| == 8;
    WordsSmall(src);
    ZeroBytes(src, b, l);
    hide Words, ZeroRun, Zeros, GroupBytes, Value;
    HexGroups(ws[..b]);
    HexGroups(ws[b + l..]);
    HexBytes(src, 0, b);
    HexBytes(src, b + l, 8);
    assert ws[0..b] == ws[..b] && ws[b + l..8] == ws[b + l..];
    assert |HexAll(ws[..b])| == b && |HexAll(ws[b + l..])| == 8 - b - l;
    hide IsGroup, HexAll;
    ShortValue(Addr(HexAll(ws[..b]), true, HexAll(ws[b + l..]), None), src, b, l);
  }

  /** What is printed is in the grammar and stands for the address. */
  lemma CanonValue(src: seq<Byte>, b: int, l: int)
    requires |src| == 16 && Best(Words(src), b, l)
    ensures Well(Canon(src, b, l)) && Value(Canon(src, b, l)) == src
  {
    assert |Words(src)| == 8;
    hide Well, Value, Words, HexAll;
    if b == -1 {
      CanonFull(src);
    } else if ShowsQuad(Words(src), b, l) {
      CanonQuad(src, l);
    } else {
      CanonShort(src, b, l);
    }
  }

  /** Parsing the printed form of any address gives the address back. */
  lemma RoundTrip6(src: seq<Byte>, text: string)
    requires |src| == 16 && Prints(src, text)
    ensures Parse6(text) == Some(src)
  {
    var b, l :| Best(Words(src), b, l) && Well(Canon(src, b, l)) && text == Show(Canon(src, b, l));
    CanonValue(src, b, l);
    Complete(Canon(src, b, l));
  }

  // ---- Printing --------------------------------------------------------------------------------

  /** inet_ntop4; `size` is the room in the caller's buffer, the final NUL included. */
  method Ntop4(src: seq<Byte>, size: nat) returns (r: Option<string>)
    requires |src| == 4
    ensures r.Some? ==> Parse4(r.value) == Some(src) && |r.value| < size
    ensures r.None? ==> forall text :: Parse4(text) == Some(src) ==> |text| >= size
  {
    var tmp := Quad(src);
    forall text ensures Parse4(text) == Some(src) <==> text == tmp {
      Parse4Exact(text, src);
    }
    if |tmp| >= size {
      return None;
    }
    return Some(tmp);
  }

  /** Two runs that both lie before `i` but for the group at `i - 1`. */
  lemma RunSplits(ws: seq<nat>, at: int, b: int, l: int)
    requires ZeroRun(ws, b, l) && 0 <= at < |ws| && ws[at] != 0
    ensures b + l <= at || b > at
  {
  }

  /** The current run ends at `i`: compare it with the best one before it. */
  lemma Closed(ws: seq<nat>, cb: int, i: int, b: int, l: int)
    requires 0 <= cb < i <= |ws| && ZeroRun(ws, cb, i - cb) && (cb == 0 || ws[cb - 1] != 0) && Leading(ws, cb, b, l)
    ensures if b == -1 || i - cb > l then Leading(ws, i, cb, i - cb) else Leading(ws, i, b, l)
  {
    forall c, m | ZeroRun(ws, c, m) && c + m <= i ensures c + m <= cb || (c >= cb && m <= i - cb) {
      if cb > 0 {
        RunSplits(ws, cb - 1, c, m);
      }
    }
  }

  lemma Skipped(ws: seq<nat>, i: int, b: int, l: int)
    requires 0 <= i < |ws| && ws[i] != 0 && Leading(ws, i, b, l)
    ensures Leading(ws, i + 1, b, l)
  {
    forall c, m | ZeroRun(ws, c, m) && c + m <= i + 1 ensures c + m <= i {
      RunSplits(ws, i, c, m);
    }
  }

  /** The first loop of inet_ntop6 and the tests after it. */
  method FindRun(ws: seq<nat>) returns (base: int, len: int)
    ensures base == -1 || 0 <= base < |ws|
    ensures Best(ws, base, len)
  {
    var curBase, curLen := -1, 0;
    base, len := -1, 0;
    var i := 0;
    while i < |ws|
      invariant 0 <= i <= |ws|
      invariant curBase == -1 || (0 <= curBase < i && curLen == i - curBase && ZeroRun(ws, curBase, curLen) && (curBase == 0 || ws[curBase - 1] != 0))
      invariant curBase == -1 ==> i == 0 || ws[i - 1] != 0
      invariant base == -1 || 0 <= base < |ws|
      invariant Leading(ws, if curBase == -1 then i else curBase, base, len)
    {
      if ws[i] == 0 {
        if curBase == -1 {
          curBase, curLen := i, 1;
        } else {
          curLen := curLen + 1;
        }
      } else {
        if curBase != -1 {
          Closed(ws, curBase, i, base, len);
          if base == -1 || curLen > len {
            base, len := curBase, curLen;
          }
          curBase := -1;
        }
        Skipped(ws, i, base, len);
      }
      i := i + 1;
    }
    if curBase != -1 {
      Closed(ws, curBase, i, base, len);
      if base == -1 || curLen > len {
        base, len := curBase, curLen;
      }
    }
    if base != -1 && len < 2 {
      base := -1;
    }
  }

  /** Groups, each after its colon. */
  function Post(groups: seq<string>): string {
    if groups == [] then "" else Post(groups[..|groups| - 1]) + ":" + groups[|groups| - 1]
  }

  lemma {:induction false} JoinPost(g: string, groups: seq<string>)
    ensures Join([g] + groups) == g + Post(groups)
    decreases |groups|
  {
    if groups == [] {
      assert [g] + groups == [g];
      assert g + "" == g;
    } else {
      var init, last := groups[..|groups| - 1], groups[|groups| - 1];
      JoinPost(g, init);
      assert [g] + groups == ([g] + init) + [last];
      JoinPre([g] + init, last);
      JoinColon([g] + init);
      assert g + Post(init) + ":" + last == g + Post(groups);
    }
  }

  lemma PostJoin(groups: seq<string>)
    requires groups != []
    ensures Post(groups) == ":" + Join(groups)
  {
    JoinPost("", groups);
    assert [""] + groups != [] && ([""] + groups)[1..] == groups;
    assert "" + Post(groups) == Post(groups);
    assert Join([""] + groups) == "" + ":" + Join(groups);
  }

  lemma PostMore(groups: seq<string>, g: string)
    ensures Post(groups + [g]) == Post(groups) + ":" + g
  {
    assert (groups + [g])[..|groups|] == groups;
  }

  lemma JoinMore(groups: seq<string>, g: string)
    ensures Join(groups + [g]) == Join(groups) + (if groups == [] then "" else ":") + g
  {
    JoinPre(groups, g);
    if groups != [] {
      JoinColon(groups);
    }
  }

  /** What the printing loop has written before group `i`. */
  function Printed(ws: seq<nat>, b: int, l: int, i: nat): string
    requires i <= |ws|
  {
    if b == -1 || i <= b || b < 0 then Join(HexAll(ws[..i]))
    else Join(HexAll(ws[..b])) + ":" + (if i <= b + l || b + l < 0 then "" else Post(HexAll(ws[b + l..i])))
  }

  lemma HexAllMore(ws: seq<nat>, a: nat, i: nat)
    requires a <= i < |ws|
    ensures HexAll(ws[a..i + 1]) == HexAll(ws[a..i]) + [Hex(ws[i])]
  {
  }

  lemma GroupBefore(ws: seq<nat>, b: int, l: int, i: nat)
    requires i < |ws| && (b == -1 || i < b)
    ensures Printed(ws, b, l, i + 1) == Printed(ws, b, l, i) + (if i != 0 then ":" else "") + Hex(ws[i])
  {
    HexAllMore(ws, 0, i);
    assert ws[0..i] == ws[..i] && ws[0..i + 1] == ws[..i + 1];
    JoinMore(HexAll(ws[..i]), Hex(ws[i]));
    assert |HexAll(ws[..i])| == i;
    hide Join, Hex, HexAll;
  }

  lemma PrintedAfter(ws: seq<nat>, b: int, l: int, i: nat)
    requires i <= |ws| && 0 <= b && l >= 1 && b + l <= i
    ensures Printed(ws, b, l, i) == Join(HexAll(ws[..b])) + ":" + Post(HexAll(ws[b + l..i]))
  {
    EmptyPost(ws, i);
    hide Join, Post, HexAll;
  }

  lemma Regroup(a: string, b: string, c: string)
    ensures a + ":" + (b + ":" + c) == a + ":" + b + ":" + c
  {
  }

  lemma PostNext(ws: seq<nat>, a: nat, i: nat)
    requires a <= i < |ws|
    ensures Post(HexAll(ws[a..i + 1])) == Post(HexAll(ws[a..i])) + ":" + Hex(ws[i])
  {
    HexAllMore(ws, a, i);
    hide HexAll, Hex, Post;
    PostMore(HexAll(ws[a..i]), Hex(ws[i]));
  }

  lemma GroupAfter(ws: seq<nat>, b: int, l: int, i: nat)
    requires i < |ws| && 0 <= b && l >= 1 && b + l <= i
    ensures Printed(ws, b, l, i + 1) == Printed(ws, b, l, i) + ":" + Hex(ws[i])
  {
    hide Join, Post, Hex, HexAll, Printed;
    PostNext(ws, b + l, i);
    PrintedAfter(ws, b, l, i);
    PrintedAfter(ws, b, l, i + 1);
    Regroup(Join(HexAll(ws[..b])), Post(HexAll(ws[b + l..i])), Hex(ws[i]));
  }

  /** One turn of the loop that prints a group. */
  lemma PrintedGroup(ws: seq<nat>, b: int, l: int, i: nat)
    requires i < |ws| && (b == -1 || (0 <= b && l >= 1)) && !(b != -1 && b <= i < b + l)
    ensures Printed(ws, b, l, i + 1) == Printed(ws, b, l, i) + (if i != 0 then ":" else "") + Hex(ws[i])
  {
    hide Printed, Hex;
    if b == -1 || i < b {
      GroupBefore(ws, b, l, i);
    } else {
      GroupAfter(ws, b, l, i);
    }
  }

  /** One turn inside the run. */
  lemma PrintedGap(ws: seq<nat>, b: int, l: int, i: nat)
    requires i < |ws| && 0 <= b <= i < b + l
    ensures Printed(ws, b, l, i + 1) == if i == b then Printed(ws, b, l, i) + ":" else Printed(ws, b, l, i)
  {
    assert i == b ==> ws[..i] == ws[..b];
    hide Join, HexAll;
  }

  lemma EmptyPost(ws: seq<nat>, i: nat)
    requires i <= |ws|
    ensures Post(HexAll(ws[i..i])) == ""
  {
    assert HexAll(ws[i..i]) == [];
  }

  lemma TailShown(head: string, tail: seq<string>)
    ensures head + "::" + Join(tail) == head + ":" + Post(tail) + if tail == [] then ":" else ""
  {
    if tail == [] {
      assert head + "::" + "" == head + ":" + "" + ":";
    } else {
      PostJoin(tail);
      hide Join, Post;
      assert head + "::" + Join(tail) == head + ":" + (":" + Join(tail));
    }
  }

  /** What is written when the loop is over. */
  lemma PrintedAll(src: seq<Byte>, b: int, l: int)
    requires |src| == 16 && Best(Words(src), b, l) && !(b != -1 && ShowsQuad(Words(src), b, l))
    ensures Well(Canon(src, b, l))
    ensures Show(Canon(src, b, l)) == Printed(Words(src), b, l, 8) + if b != -1 && b + l == 8 then ":" else ""
  {
    var ws := Words(src);
    CanonValue(src, b, l);
    assert ws[..8] == ws;
    if b != -1 {
      var tail := HexAll(ws[b + l..]);
      assert ws[b + l..8] == ws[b + l..] && |tail| == 8 - b - l;
      hide Words, HexAll, Well, Best;
      PrintedAfter(ws, b, l, 8);
      hide Printed, Join, Post;
      TailShown(Join(HexAll(ws[..b])), tail);
    }
  }

  lemma PrintedSix(src: seq<Byte>)
    requires |src| == 16
    ensures var tail, quad := HexAll(Words(src)[6..6]), Quad(src[12..]);
      Printed(Words(src), 0, 6, 6) == ":" && Join([]) + "::" + Join(tail + [quad]) == ":" + ":" + quad
  {
    var ws := Words(src);
    var tail, quad := HexAll(ws[6..6]), Quad(src[12..]);
    assert HexAll(ws[..0]) == [] && tail == [];
    assert Join([]) == "" && Pre([]) == "";
    hide Quad, HexAll, Words, Join, Pre;
    JoinPre([], quad);
    assert [] + [quad] == [quad];
    Colons(quad);
  }

  lemma Colons(quad: string)
    ensures "" + quad == quad && "" + "::" + quad == ":" + ":" + quad
  {
  }

  lemma PrintedFive(src: seq<Byte>)
    requires |src| == 16 && Words(src)[5] == 0xffff
    ensures var tail, quad := HexAll(Words(src)[5..6]), Quad(src[12..]);
      && |Printed(Words(src), 0, 5, 6)| <= 6
      && Join([]) + "::" + Join(tail + [quad]) == Printed(Words(src), 0, 5, 6) + ":" + quad
  {
    var ws := Words(src);
    var tail, quad := HexAll(ws[5..6]), Quad(src[12..]);
    var g := Hex(0xffff);
    assert HexAll(ws[..0]) == [] && tail == [g];
    HexFacts(0xffff);
    hide Quad, HexAll, Words, Hex;
    JoinPre(tail, quad);
    assert Pre([g]) == g + ":" + Pre([]) == g + ":";
    assert Post([g]) == "" + ":" + g == ":" + g;
    assert Printed(ws, 0, 5, 6) == "" + ":" + (":" + g) == "::" + g;
    assert "" + "::" + (g + ":" + quad) == "::" + g + ":" + quad;
  }

  lemma PrintedQuad(src: seq<Byte>, b: int, l: int)
    requires |src| == 16 && Best(Words(src), b, l) && b != -1 && ShowsQuad(Words(src), b, l)
    ensures Well(Canon(src, b, l)) && |Printed(Words(src), b, l, 6)| <= 6
    ensures Show(Canon(src, b, l)) == Printed(Words(src), b, l, 6) + ":" + Quad(src[12..])
  {
    CanonValue(src, b, l);
    assert HexAll(Words(src)[..0]) == [];
    if l == 6 {
      PrintedSix(src);
    } else {
      PrintedFive(src);
    }
    hide Words, HexAll, Join, Quad, Printed, Well, Best;
  }

  /** sprintf or `*tp++ =`: puts `s` into the buffer at `tp`. */
  method Put(tmp: array<char>, tp: nat, s: string) returns (next: nat)
    requires tp + |s| <= tmp.Length
    modifies tmp
    ensures next == tp + |s| && tmp[..next] == old(tmp[..tp]) + s
  {
    var i := 0;
    while i < |s|
      invariant 0 <= i <= |s|
      invariant tmp[..tp + i] == old(tmp[..tp]) + s[..i]
    {
      tmp[tp + i] := s[i];
      i := i + 1;
    }
    next := tp + i;
  }

  /** `tmp` is as long as "ffff:ffff:ffff:ffff:ffff:ffff:255.255.255.255" and its NUL. */
  const BUFFER: nat := 46

  lemma QuadShort(b: seq<Byte>)
    requires |b| == 4
    ensures |Quad(b)| <= 15
  {
    DecDigits(b[0]);
    DecDigits(b[1]);
    DecDigits(b[2]);
    DecDigits(b[3]);
  }

  lemma NothingYet(ws: seq<nat>, b: int, l: int)
    requires b >= -1
    ensures Printed(ws, b, l, 0) == ""
  {
    assert HexAll(ws[..0]) == [];
  }

  lemma LastPart(src: seq<Byte>, b: int, l: int)
    requires |src| == 16 && Best(Words(src), b, l)
    ensures var ws := Words(src);
      ShowsQuad(ws, b, l) ==>
        && |Printed(ws, b, l, 6)| + 1 + |Quad(src[12..])| < BUFFER
        && Show(CanonText(src, b, l)) == Printed(ws, b, l, 6) + ":" + Quad(src[12..])
    ensures var ws := Words(src);
      !ShowsQuad(ws, b, l) ==> Show(CanonText(src, b, l)) == Printed(ws, b, l, 8) + if b != -1 && b + l == 8 then ":" else ""
  {
    if ShowsQuad(Words(src), b, l) {
      PrintedQuad(src, b, l);
      QuadShort(src[12..]);
    } else {
      PrintedAll(src, b, l);
    }
  }

  /** Inside the run: a colon for its first group. */
  method PrintGap(ws: seq<nat>, base: int, len: int, i: nat, tmp: array<char>, tp: nat) returns (next: nat)
    requires i < |ws| && 0 <= base <= i < base + len && tp < tmp.Length && tmp[..tp] == Printed(ws, base, len, i)
    modifies tmp
    ensures tp <= next <= tp + 1 && next <= tmp.Length && tmp[..next] == Printed(ws, base, len, i + 1)
  {
    PrintedGap(ws, base, len, i);
    hide Printed;
    next := tp;
    if i == base {
      next := Put(tmp, tp, ":");
    }
  }

  /** Outside: a colon if something is there already, and the group. */
  method PrintGroup(ws: seq<nat>, base: int, len: int, i: nat, tmp: array<char>, tp: nat) returns (next: nat)
    requires i < |ws| && ws[i] < 65536 && (base == -1 || (0 <= base && len >= 1)) && !(base != -1 && base <= i < base + len)
    requires tp + 5 <= tmp.Length && tmp[..tp] == Printed(ws, base, len, i)
    modifies tmp
    ensures tp <= next <= tp + 5 && tmp[..next] == Printed(ws, base, len, i + 1)
  {
    PrintedGroup(ws, base, len, i);
    HexFacts(ws[i]);
    hide Printed, Hex;
    next := tp;
    if i != 0 {
      next := Put(tmp, next, ":");
    }
    next := Put(tmp, next, Hex(ws[i]));
  }

  /** A colon, and the last four bytes as IPv4. */
  method PrintQuad(quad: seq<Byte>, tmp: array<char>, tp: nat) returns (next: nat)
    requires |quad| == 4 && tp + 1 + |Quad(quad)| < tmp.Length
    modifies tmp
    ensures next == tp + 1 + |Quad(quad)| && tmp[..next] == old(tmp[..tp]) + ":" + Quad(quad)
  {
    Parse4Exact(Quad(quad), quad);
    hide Quad, Parse4;
    next := Put(tmp, tp, ":");
    var text := Ntop4(quad, tmp.Length - next);
    Parse4Exact(text.value, quad);
    next := Put(tmp, next, text.value);
  }

  /** The printing loop of inet_ntop6: never past the buffer. */
  method PrintLoop(src: seq<Byte>, ws: seq<nat>, base: int, len: int, tmp: array<char>) returns (tp: nat)
    requires |src| == 16 && |ws| == 8 && (forall i :: 0 <= i < 8 ==> ws[i] < 65536) && tmp.Length == BUFFER
    requires base == -1 || (0 <= base && len >= 1)
    requires ShowsQuad(ws, base, len) ==> |Printed(ws, base, len, 6)| + 1 + |Quad(src[12..])| < BUFFER
    modifies tmp
    ensures tp + 1 < BUFFER || ShowsQuad(ws, base, len)
    ensures tp < BUFFER
    ensures tmp[..tp] == if ShowsQuad(ws, base, len) then Printed(ws, base, len, 6) + ":" + Quad(src[12..]) else Printed(ws, base, len, 8)
  {
    NothingYet(ws, base, len);
    var i: nat := 0;
    tp := 0;
    hide Printed, Quad;
    while i < 8
      invariant 0 <= i <= 8
      invariant tp <= 5 * i && tmp[..tp] == Printed(ws, base, len, i)
      invariant i > 6 ==> !ShowsQuad(ws, base, len)
    {
      if base != -1 && i >= base && i < base + len {
        tp := PrintGap(ws, base, len, i, tmp, tp);
      } else if i == 6 && base == 0 && (len == 6 || (len == 5 && ws[5] == 0xffff)) {
        tp := PrintQuad(src[12..], tmp, tp);
        return;
      } else {
        tp := PrintGroup(ws, base, len, i, tmp, tp);
      }
      i := i + 1;
    }
  }

  /** The loop and what follows it: the text of the address. */
  method PrintInto(src: seq<Byte>, ws: seq<nat>, base: int, len: int, tmp: array<char>) returns (tp: nat)
    requires |src| == 16 && ws == Words(src) && Best(ws, base, len) && tmp.Length == BUFFER
    modifies tmp
    ensures tp < BUFFER && tmp[..tp] == Show(CanonText(src, base, len))
  {
    WordsSmall(src);
    LastPart(src, base, len);
    hide Printed, Best, Show, CanonText, Quad, Words, ZeroRun;
    tp := PrintLoop(src, ws, base, len, tmp);
    if base != -1 && base + len == 8 {
      tp := Put(tmp, tp, ":");
    }
  }

  /** inet_ntop6: the text of the address, or ENOSPC when it does not fit with its NUL. */
  method Ntop6(src: seq<Byte>, size: nat) returns (r: Option<string>)
    requires |src| == 16
    ensures r.Some? ==> Prints(src, r.value) && |r.value| + 1 <= size
    ensures r.None? ==> exists text :: Prints(src, text) && |text| + 1 > size
  {
    var ws := Words(src);
    var base, len := FindRun(ws);
    var tmp := new char[BUFFER];
    var tp := PrintInto(src, ws, base, len, tmp);
    CanonValue(src, base, len);
    assert Prints(src, tmp[..tp]);
    if tp + 1 > size {
      return None;
    }
    return Some(tmp[..tp]);
  }

  /** An address has one printed form. */
  lemma PrintsOnce(src: seq<Byte>, text: string, text': string)
    requires |src| == 16 && Prints(src, text) && Prints(src, text')
    ensures text == text'
  {
    hide Show, Well, Canon;
    var b, l :| Best(Words(src), b, l) && Well(Canon(src, b, l)) && text == Show(Canon(src, b, l));
    var b', l' :| Best(Words(src), b', l') && Well(Canon(src, b', l')) && text' == Show(Canon(src, b', l'));
    BestUnique(Words(src), b, l, b', l');
    if b == -1 {
      NoRun(src, l, l');
    }
  }

  lemma NoRun(src: seq<Byte>, l: int, l': int)
    requires |src| == 16
    ensures Canon(src, -1, l) == Canon(src, -1, l')
  {
  }

  ghost function CanonText(src: seq<Byte>, b: int, l: int): Addr
    requires |src| == 16 && Best(Words(src), b, l)
    ensures Well(CanonText(src, b, l))
  {
    CanonValue(src, b, l);
    Canon(src, b, l)
  }

  // ---- Parsing ---------------------------------------------------------------------------------

  /** inet_pton4 */
  method Pton4(src: string) returns (r: Option<seq<Byte>>)
    ensures r == Parse4(src)
  {
    var tmp := new Byte[4];
    var saw, octets, tp, i := false, 0, 0, 0;
    tmp[0] := 0;
    assert tmp[..0] == [];
    assert src[0..] == src;
    while i < |src|
      invariant 0 <= i <= |src| && 0 <= tp < 4 && octets == tp + if saw then 1 else 0
      invariant !saw ==> tmp[tp] == 0
      invariant Scan4(src[i..], tmp[..tp], tmp[tp], saw) == Parse4(src)
    {
      var ch := src[i];
      assert src[i..][1..] == src[i + 1..];
      i := i + 1;
      if '0' <= ch <= '9' {
        var was: int := tmp[tp];
        var new_ := was * 10 + (ch as int - '0' as int);
        if saw && tmp[tp] == 0 {
          return None;
        }
        if new_ > 255 {
          return None;
        }
        ghost var done := tmp[..tp];
        tmp[tp] := new_;
        assert tmp[..tp] == done;
        if !saw {
          octets := octets + 1;
          if octets > 4 {
            return None;
          }
          saw := true;
        }
      } else if ch == '.' && saw {
        if octets == 4 {
          return None;
        }
        ghost var done := tmp[..tp] + [tmp[tp]];
        tp := tp + 1;
        tmp[tp] := 0;
        assert tmp[..tp] == done;
        saw := false;
      } else {
        return None;
      }
    }
    if octets < 4 {
      return None;
    }
    assert tmp[..] == tmp[..3] + [tmp[3]];
    return Some(tmp[..]);
  }

  /** memmove and memset at the end of inet_pton6: what follows `from` goes to the end, zeros in between. */
  method Spread(tmp: array<Byte>, from: nat, tp: nat)
    requires tmp.Length == 16 && from <= tp <= 16
    modifies tmp
    ensures tmp[..] == old(tmp[..from]) + Zeros(16 - tp) + old(tmp[from..tp])
  {
    MoveUp(tmp, from, tp);
    ghost var moved := tmp[16 - (tp - from)..];
    ZeroOut(tmp, from, 16 - (tp - from));
    assert tmp[..] == tmp[..from] + tmp[from..16 - (tp - from)] + tmp[16 - (tp - from)..];
  }

  /** memmove of the bytes from `from` to `tp` to the end of the array. */
  method MoveUp(tmp: array<Byte>, from: nat, tp: nat)
    requires tmp.Length == 16 && from <= tp <= 16
    modifies tmp
    ensures tmp[..from] == old(tmp[..from]) && tmp[16 - (tp - from)..] == old(tmp[from..tp])
  {
    ghost var was := tmp[..];
    var n := tp - from;
    var i := n;
    while i > 0
      invariant 0 <= i <= n
      invariant forall k :: 0 <= k < from + i ==> tmp[k] == was[k]
      invariant forall k :: 16 - n + i <= k < 16 ==> tmp[k] == was[k - (16 - n) + from]
    {
      i := i - 1;
      tmp[16 - n + i] := tmp[from + i];
    }
  }

  /** memset of the bytes from `from` to `to`. */
  method ZeroOut(tmp: array<Byte>, from: nat, to: nat)
    requires from <= to <= tmp.Length
    modifies tmp
    ensures tmp[..from] == old(tmp[..from]) && tmp[to..] == old(tmp[to..]) && tmp[from..to] == Zeros(to - from)
  {
    ghost var was := tmp[..];
    var j := from;
    while j < to
      invariant from <= j <= to
      invariant forall k :: from <= k < j ==> tmp[k] == 0
      invariant forall k :: 0 <= k < from || to <= k < tmp.Length ==> tmp[k] == was[k]
    {
      tmp[j] := 0;
      j := j + 1;
    }
  }

  /** `*tp++ = (val >> 8) & 0xff; *tp++ = val & 0xff` */
  method Store(tmp: array<Byte>, tp: nat, val: nat) returns (next: nat)
    requires tp + 2 <= tmp.Length
    modifies tmp
    ensures next == tp + 2 && tmp[..next] == old(tmp[..tp]) + Two(val)
  {
    tmp[tp] := val / 256 % 256;
    tmp[tp + 1] := val % 256;
    next := tp + 2;
  }

  method StoreQuad(tmp: array<Byte>, tp: nat, quad: seq<Byte>) returns (next: nat)
    requires |quad| == 4 && tp + 4 <= tmp.Length
    modifies tmp
    ensures next == tp + 4 && tmp[..next] == old(tmp[..tp]) + quad
  {
    tmp[tp], tmp[tp + 1], tmp[tp + 2], tmp[tp + 3] := quad[0], quad[1], quad[2], quad[3];
    next := tp + 4;
  }

  /** The variables of inet_pton6 at the end of its loop, `st` their meaning. */
  predicate Ends(st: Scan, out: seq<Byte>, colonp: int, digits: nat, val: nat) {
    st.out == out && st.colon == colonp && st.digits == digits && (digits > 0 ==> st.val == val)
  }

  lemma ScanQuadHere(st: Scan, rest: string)
    requires rest != [] && HexDigitValue(rest[0]) < 0 && rest[0] != ':'
    ensures Scan6(st, rest) ==
      if rest[0] == '.' && |st.out| + 4 <= 16 && Parse4(st.token + rest).Some?
      then Some(st.(out := st.out + Parse4(st.token + rest).value, digits := 0)) else None
  {
  }

  lemma ScanColonHere(st: Scan, rest: string)
    requires rest != [] && rest[0] == ':'
    ensures st.digits == 0 && st.colon >= 0 ==> Scan6(st, rest).None?
    ensures st.digits == 0 && st.colon < 0 ==> Scan6(st, rest) == Scan6(st.(colon := |st.out|, token := ""), rest[1..])
    ensures st.digits > 0 && (|rest| == 1 || |st.out| + 2 > 16) ==> Scan6(st, rest).None?
    ensures st.digits > 0 && |rest| > 1 && |st.out| + 2 <= 16 ==>
      Scan6(st, rest) == Scan6(st.(out := st.out + Two(st.val), digits := 0, val := 0, token := ""), rest[1..])
  {
  }

  lemma ScanDigitHere(st: Scan, rest: string)
    requires rest != [] && HexDigitValue(rest[0]) >= 0
    ensures var d := HexDigitValue(rest[0]);
      Scan6(st, rest) ==
      if st.digits == 4 || st.val * 16 + d > 0xffff then None
      else Scan6(st.(val := st.val * 16 + d, digits := st.digits + 1, token := st.token + [rest[0]]), rest[1..])
  {
  }

  /** The loop of inet_pton6. */
  method ScanText(src: string, tmp: array<Byte>) returns (ok: bool, tp: nat, colonp: int, digits: nat, val: nat, ghost st: Scan)
    requires tmp.Length == 16
    modifies tmp
    ensures !ok ==> Scan6(Start, src).None?
    ensures ok ==> Scan6(Start, src) == Some(st) && tp <= 16 && -1 <= colonp <= tp && Ends(st, tmp[..tp], colonp, digits, val)
  {
    var curtok: nat, i: nat := 0, 0;
    ok, tp, colonp, digits, val, st := true, 0, -1, 0, 0, Start;
    assert tmp[..0] == [] && src[0..0] == "" && src[0..] == src;
    hide Scan6, HexDigitValue, Two, Parse4;
    while i < |src|
      invariant i <= |src| && tp <= 16 && curtok <= i && -1 <= colonp <= tp
      invariant st == Scan(tmp[..tp], colonp, digits, val, src[curtok..i])
      invariant Scan6(st, src[i..]) == Scan6(Start, src)
    {
      var ch := src[i];
      ghost var rest := src[i..];
      assert rest[1..] == src[i + 1..] && src[curtok..i + 1] == src[curtok..i] + [ch];
      assert src[curtok..] == src[curtok..i] + rest;
      i := i + 1;
      var digit := HexDigitValue(ch);
      if digit >= 0 {
        ScanDigitHere(st, rest);
        if digits == 4 {
          ok := false;
          return;
        }
        val := val * 16 + digit;
        if val > 0xffff {
          ok := false;
          return;
        }
        digits := digits + 1;
      } else if ch == ':' {
        ScanColonHere(st, rest);
        curtok := i;
        if digits == 0 {
          if colonp >= 0 {
            ok := false;
            return;
          }
          colonp := tp;
        } else {
          if i == |src| || tp + 2 > 16 {
            ok := false;
            return;
          }
          tp := Store(tmp, tp, val);
          digits, val := 0, 0;
        }
      } else {
        ScanQuadHere(st, rest);
        if ch == '.' && tp + 4 <= 16 {
          var quad := Pton4(src[curtok..]);
          if quad.Some? {
            Parse4Exact(src[curtok..], quad.value);
            tp := StoreQuad(tmp, tp, quad.value);
            digits := 0;
            st := st.(out := tmp[..tp], digits := 0);
            return;
          }
        }
        ok := false;
        return;
      }
      assert src[i..i] == "";
      st := Scan(tmp[..tp], colonp, digits, val, src[curtok..i]);
    }
    assert Scan6(st, src[i..]) == Some(st) by { ScanNothing(st, src[i..]); }
  }

  lemma ScanNothing(st: Scan, rest: string)
    requires rest == []
    ensures Scan6(st, rest) == Some(st)
  {
  }

  lemma FinishMeans(st: Scan, out: seq<Byte>, colonp: int, digits: nat, val: nat)
    requires Ends(st, out, colonp, digits, val) && -1 <= colonp <= |out|
    ensures digits > 0 && |out| + 2 > 16 ==> Finish6(st).None?
    ensures digits == 0 || |out| + 2 <= 16 ==>
      var all := if digits > 0 then out + Two(val) else out;
      Finish6(st) == if colonp >= 0 then (if |all| >= 16 then None else Some(all[..colonp] + Zeros(16 - |all|) + all[colonp..]))
                     else if |all| != 16 then None else Some(all)
  {
  }

  /** inet_pton6: the address the text stands for, or nothing. */
  method Pton6(src: string) returns (r: Option<seq<Byte>>)
    ensures r == Parse6(src)
  {
    if src == [] {
      return None;
    }
    var from := src;
    if src[0] == ':' {
      from := src[1..];
      if from == [] || from[0] != ':' {
        return None;
      }
    }
    r := Pton6Rest(from);
  }

  method Pton6Rest(src: string) returns (r: Option<seq<Byte>>)
    ensures r == Rest6(src)
  {
    var tmp := new Byte[16];
    var ok, tp, colonp, digits, val;
    ghost var st;
    ok, tp, colonp, digits, val, st := ScanText(src, tmp);
    if !ok {
      return None;
    }
    FinishMeans(st, tmp[..tp], colonp, digits, val);
    hide Scan6, Finish6, Two;
    if digits > 0 {
      if tp + 2 > 16 {
        return None;
      }
      tp := Store(tmp, tp, val);
    }
    ghost var all := tmp[..tp];
    if colonp >= 0 {
      if tp == 16 {
        return None;
      }
      Spread(tmp, colonp, tp);
      assert all[..colonp] + Zeros(16 - |all|) + all[colonp..] == tmp[..];
      tp := 16;
    }
    if tp != 16 {
      return None;
    }
    assert tmp[..16] == tmp[..];
    return Some(tmp[..]);
  }
}
