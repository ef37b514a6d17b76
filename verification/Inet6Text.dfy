/** IPv6 text: the parser of net/inet.c as a function, and the grammar it accepts. */
module Inet6Text {
  import opened Common
  import opened InetText

  // ---- The parser ---------------------------------------------------------------------------

  /** inet_pton6 in mid-scan: bytes stored, colonp, xdigits_seen, val, and the text since curtok. */
  datatype Scan = Scan(out: seq<Byte>, colon: int, digits: nat, val: nat, token: string)

  const Start: Scan := Scan([], -1, 0, 0, "")

  /** (val >> 8) & 0xff and val & 0xff */
  function Two(val: nat): seq<Byte> {
    [val / 256 % 256, val % 256]
  }

  function Scan6(st: Scan, rest: string): Option<Scan>
    decreases |rest|
  {
    if rest == [] then Some(st)
    else
      var c := rest[0];
      var digit := HexDigitValue(c);
      if digit >= 0 then
        (if st.digits == 4 then None
         else if st.val * 16 + digit > 0xffff then None
         else Scan6(st.(val := st.val * 16 + digit, digits := st.digits + 1, token := st.token + [c]), rest[1..]))
      else if c == ':' then
        (if st.digits == 0 then
           (if st.colon >= 0 then None else Scan6(st.(colon := |st.out|, token := ""), rest[1..]))
         else if |rest| == 1 then None
         else if |st.out| + 2 > 16 then None
         else Scan6(st.(out := st.out + Two(st.val), digits := 0, val := 0, token := ""), rest[1..]))
      else if c == '.' && |st.out| + 4 <= 16 && Parse4(st.token + rest).Some? then
        Some(st.(out := st.out + Parse4(st.token + rest).value, digits := 0))
      else None
  }

  function Zeros(n: nat): seq<Byte> {
    seq(n, i => 0)
  }

  /** The pending group, then "::" replaced with zeros. */
  function Finish6(st: Scan): Option<seq<Byte>> {
    if st.digits > 0 && |st.out| + 2 > 16 then None
    else
      var out := if st.digits > 0 then st.out + Two(st.val) else st.out;
      if 0 <= st.colon <= |out| then
        (if |out| >= 16 then None else Some(out[..st.colon] + Zeros(16 - |out|) + out[st.colon..]))
      else if |out| != 16 then None else Some(out)
  }

  function Rest6(s: string): Option<seq<Byte>> {
    match Scan6(Start, s)
    case None => None
    case Some(st) => Finish6(st)
  }

  function Parse6(s: string): Option<seq<Byte>> {
    if s == [] then None
    else if s[0] == ':' then (if |s| == 1 || s[1] != ':' then None else Rest6(s[1..]))
    else Rest6(s)
  }

  // ---- The grammar ------------------------------------------------------------------------------

  /** One to four hexadecimal digits of either case. */
  predicate IsGroup(g: string) {
    1 <= |g| <= 4 && forall i :: 0 <= i < |g| ==> HexDigitValue(g[i]) >= 0
  }

  function HexFold(v: nat, g: string): nat
    decreases |g|
  {
    if g == [] then v else HexFold(v * 16 + (if HexDigitValue(g[0]) >= 0 then HexDigitValue(g[0]) else 0), g[1..])
  }

  function HexVal(g: string): nat {
    HexFold(0, g)
  }

  /** An address as written: groups, perhaps "::" and more groups, perhaps a dotted quad at the end. */
  datatype Addr = Addr(head: seq<string>, gap: bool, tail: seq<string>, quad: Option<seq<Byte>>)

  function Join(items: seq<string>): string {
    if items == [] then "" else if |items| == 1 then items[0] else items[0] + ":" + Join(items[1..])
  }

  function Items(groups: seq<string>, quad: Option<seq<Byte>>): seq<string>
    requires quad.Some? ==> |quad.value| == 4
  {
    if quad.Some? then groups + [Quad(quad.value)] else groups
  }

  function QuadBytes(quad: Option<seq<Byte>>): seq<Byte> {
    if quad.Some? then quad.value else []
  }

  function Size(a: Addr): nat {
    2 * |a.head| + 2 * |a.tail| + |QuadBytes(a.quad)|
  }

  predicate Well(a: Addr) {
    && (forall i :: 0 <= i < |a.head| ==> IsGroup(a.head[i]))
    && (forall i :: 0 <= i < |a.tail| ==> IsGroup(a.tail[i]))
    && (a.quad.Some? ==> |a.quad.value| == 4)
    && if a.gap then Size(a) <= 14 else a.tail == [] && Size(a) == 16
  }

  function Show(a: Addr): string
    requires Well(a)
  {
    if a.gap then Join(a.head) + "::" + Join(Items(a.tail, a.quad)) else Join(Items(a.head, a.quad))
  }

  function GroupBytes(groups: seq<string>): seq<Byte> {
    if groups == [] then [] else Two(HexVal(groups[0])) + GroupBytes(groups[1..])
  }

  /** "::" stands for as many zeros as are missing. */
  function Value(a: Addr): seq<Byte>
    requires Well(a)
  {
    if a.gap then GroupBytes(a.head) + Zeros(16 - Size(a)) + (GroupBytes(a.tail) + QuadBytes(a.quad))
    else GroupBytes(a.head) + QuadBytes(a.quad)
  }

  lemma {:induction false} GroupBytesSize(groups: seq<string>)
    ensures |GroupBytes(groups)| == 2 * |groups|
  {
    if groups != [] {
      GroupBytesSize(groups[1..]);
    }
  }

  lemma {:induction false} GroupBytesMore(groups: seq<string>, g: string)
    ensures GroupBytes(groups + [g]) == GroupBytes(groups) + Two(HexVal(g))
  {
    if groups == [] {
      assert GroupBytes([g]) == Two(HexVal(g)) + GroupBytes([g][1..]);
      assert groups + [g] == [g];
    } else {
      assert (groups + [g])[1..] == groups[1..] + [g];
      GroupBytesMore(groups[1..], g);
    }
  }

  /** Groups, each with its colon. */
  function Pre(groups: seq<string>): string {
    if groups == [] then "" else groups[0] + ":" + Pre(groups[1..])
  }

  lemma {:induction false} JoinPre(groups: seq<string>, last: string)
    ensures Join(groups + [last]) == Pre(groups) + last
  {
    if groups == [] {
      assert groups + [last] == [last];
    } else {
      assert (groups + [last])[1..] == groups[1..] + [last];
      JoinPre(groups[1..], last);
    }
  }

  lemma {:induction false} PreMore(groups: seq<string>, g: string)
    ensures Pre(groups + [g]) == Pre(groups) + g + ":"
  {
    if groups == [] {
      assert groups + [g] == [g];
      assert Pre([g]) == g + ":" + Pre([g][1..]);
    } else {
      assert (groups + [g])[1..] == groups[1..] + [g];
      PreMore(groups[1..], g);
    }
  }

  lemma JoinColon(groups: seq<string>)
    requires groups != []
    ensures Join(groups) + ":" == Pre(groups)
  {
    var init, last := groups[..|groups| - 1], groups[|groups| - 1];
    assert groups == init + [last];
    JoinPre(init, last);
    PreMore(init, last);
  }

  // ---- Everything in the grammar is accepted, with its value ----------------------------------------

  lemma {:induction false} HexFoldMore(v: nat, g: string, c: char)
    requires HexDigitValue(c) >= 0
    ensures HexFold(v, g + [c]) == HexFold(v, g) * 16 + HexDigitValue(c)
    decreases |g|
  {
    if g == [] {
      assert g + [c] == [c];
      assert HexFold(v, [c]) == HexFold(v * 16 + HexDigitValue(c), [c][1..]);
    } else {
      assert (g + [c])[1..] == g[1..] + [c];
      HexFoldMore(v * 16 + (if HexDigitValue(g[0]) >= 0 then HexDigitValue(g[0]) else 0), g[1..], c);
    }
  }

  function Pow16(n: nat): nat {
    if n == 0 then 1 else 16 * Pow16(n - 1)
  }

  /** The scan takes in the digits of a group. */
  lemma {:induction false} ScanDigits(st: Scan, g: string, rest: string)
    requires st.digits + |g| <= 4 && st.val < Pow16(st.digits) && forall i :: 0 <= i < |g| ==> HexDigitValue(g[i]) >= 0
    ensures Scan6(st, g + rest) == Scan6(st.(val := HexFold(st.val, g), digits := st.digits + |g|, token := st.token + g), rest)
    decreases |g|
  {
    if g == [] {
      assert g + rest == rest && st.token + g == st.token;
    } else {
      assert (g + rest)[1..] == g[1..] + rest;
      assert Pow16(4) == 65536 && Pow16(3) == 4096 && Pow16(2) == 256 && Pow16(1) == 16;
      var d := HexDigitValue(g[0]);
      var st' := st.(val := st.val * 16 + d, digits := st.digits + 1, token := st.token + [g[0]]);
      ScanDigits(st', g[1..], rest);
      assert st'.token + g[1..] == st.token + g;
    }
  }

  predicate Fresh(st: Scan) {
    st.digits == 0 && st.val == 0 && st.token == ""
  }

  lemma ScanGroup(st: Scan, g: string, rest: string)
    requires Fresh(st) && IsGroup(g)
    ensures Scan6(st, g + rest) == Scan6(st.(val := HexVal(g), digits := |g|, token := g), rest)
  {
    ScanDigits(st, g, rest);
    assert st.token + g == g;
  }

  /** A group and its colon, with more to come. */
  lemma ScanStored(st: Scan, g: string, more: string)
    requires Fresh(st) && IsGroup(g) && more != [] && |st.out| + 2 <= 16
    ensures Scan6(st, g + (":" + more)) == Scan6(st.(out := st.out + Two(HexVal(g))), more)
  {
    ScanGroup(st, g, ":" + more);
    assert (":" + more)[1..] == more;
    hide HexVal, Two;
  }

  lemma {:induction false} ScanPre(st: Scan, groups: seq<string>, rest: string)
    requires Fresh(st) && rest != [] && |st.out| + 2 * |groups| <= 16 && forall i :: 0 <= i < |groups| ==> IsGroup(groups[i])
    ensures Scan6(st, Pre(groups) + rest) == Scan6(st.(out := st.out + GroupBytes(groups)), rest)
    decreases |groups|
  {
    if groups == [] {
      assert Pre(groups) + rest == rest && st.out + GroupBytes(groups) == st.out;
    } else {
      var g := groups[0];
      var more := Pre(groups[1..]) + rest;
      assert Pre(groups) + rest == g + (":" + more) && more != [];
      var two, others := Two(HexVal(g)), GroupBytes(groups[1..]);
      assert st.out + two + others == st.out + GroupBytes(groups);
      hide Scan6, Pre, GroupBytes, HexVal;
      ScanStored(st, g, more);
      ScanPre(st.(out := st.out + two), groups[1..], rest);
    }
  }

  lemma ScanGap(st: Scan, rest: string)
    requires Fresh(st) && st.colon < 0
    ensures Scan6(st, ":" + rest) == Scan6(st.(colon := |st.out|), rest)
  {
    assert (":" + rest)[1..] == rest;
  }

  lemma {:induction false} DecDigits(n: nat)
    ensures |Dec(n)| >= 1 && (n < 10 ==> |Dec(n)| == 1) && (n < 100 ==> |Dec(n)| <= 2) && (n < 1000 ==> |Dec(n)| <= 3) && forall i :: 0 <= i < |Dec(n)| ==> HexDigitValue(Dec(n)[i]) >= 0
  {
    if n >= 10 {
      DecDigits(n / 10);
      DigitValue(n % 10);
    } else {
      DigitValue(n);
    }
  }

  lemma ScanQuad(st: Scan, b: seq<Byte>)
    requires Fresh(st) && |b| == 4 && |st.out| <= 12
    ensures Scan6(st, Quad(b)).Some?
    ensures var st' := Scan6(st, Quad(b)).value; st'.out == st.out + b && st'.colon == st.colon && st'.digits == 0
  {
    var d := Dec(b[0]);
    var rest := "." + (Dec(b[1]) + "." + (Dec(b[2]) + "." + Dec(b[3])));
    assert Quad(b) == d + rest;
    DecDigits(b[0]);
    ScanDigits(st, d, rest);
    assert st.token + d == d;
    Parse4Exact(Quad(b), b);
  }

  /** The last group, or the quad, or nothing, and the end. */
  lemma ScanEnd(st: Scan, last: string, quad: Option<seq<Byte>>)
    requires Fresh(st) && (quad.Some? ==> |quad.value| == 4)
    requires if quad.Some? then |st.out| <= 12 && last == Quad(quad.value) else |st.out| <= 14 && (last == "" || IsGroup(last))
    ensures Scan6(st, last).Some?
    ensures var out := st.out + (if quad.Some? then quad.value else if last == "" then [] else Two(HexVal(last)));
      Finish6(Scan6(st, last).value) == Finish6(st.(out := out))
  {
    if quad.Some? {
      ScanQuad(st, quad.value);
    } else if last == "" {
      assert st.out + [] == st.out;
    } else {
      ScanGroup(st, last, "");
      assert last + "" == last;
    }
  }

  /** The items of a side, but for the last. */
  function Init(groups: seq<string>, quad: Option<seq<Byte>>): seq<string> {
    if quad.Some? || groups == [] then groups else groups[..|groups| - 1]
  }

  function LastItem(groups: seq<string>, quad: Option<seq<Byte>>): string
    requires quad.Some? ==> |quad.value| == 4
  {
    if quad.Some? then Quad(quad.value) else if groups == [] then "" else groups[|groups| - 1]
  }

  lemma SplitSide(groups: seq<string>, quad: Option<seq<Byte>>)
    requires quad.Some? ==> |quad.value| == 4
    ensures Join(Items(groups, quad)) == Pre(Init(groups, quad)) + LastItem(groups, quad)
    ensures var last := LastItem(groups, quad);
      GroupBytes(Init(groups, quad)) + (if quad.Some? then quad.value else if groups == [] then [] else Two(HexVal(last))) ==
      GroupBytes(groups) + QuadBytes(quad)
  {
    if quad.Some? {
      JoinPre(groups, Quad(quad.value));
    } else if groups != [] {
      var init, last := groups[..|groups| - 1], groups[|groups| - 1];
      assert groups == init + [last];
      JoinPre(init, last);
      GroupBytesMore(init, last);
    }
  }

  lemma ScanItems(st: Scan, init: seq<string>, last: string, quad: Option<seq<Byte>>)
    requires Fresh(st) && (quad.Some? ==> |quad.value| == 4) && (forall i :: 0 <= i < |init| ==> IsGroup(init[i]))
    requires if quad.Some? then |st.out| + 2 * |init| <= 12 && last == Quad(quad.value) else |st.out| + 2 * |init| <= 14 && IsGroup(last)
    requires last != ""
    ensures Scan6(st, Pre(init) + last).Some?
    ensures var more := if quad.Some? then quad.value else Two(HexVal(last));
      Finish6(Scan6(st, Pre(init) + last).value) == Finish6(st.(out := st.out + (GroupBytes(init) + more)))
  {
    GroupBytesSize(init);
    hide Scan6, Finish6, Pre, GroupBytes, Quad, HexVal, Two, IsGroup;
    ScanPre(st, init, last);
    var bytes := GroupBytes(init);
    ScanEnd(st.(out := st.out + bytes), last, quad);
    Together(st.out, bytes, if quad.Some? then quad.value else Two(HexVal(last)));
  }

  lemma Together(a: seq<Byte>, b: seq<Byte>, c: seq<Byte>)
    ensures a + b + c == a + (b + c)
  {
  }

  lemma ScanSide(st: Scan, groups: seq<string>, quad: Option<seq<Byte>>)
    requires Fresh(st) && (quad.Some? ==> |quad.value| == 4) && (forall i :: 0 <= i < |groups| ==> IsGroup(groups[i]))
    requires |st.out| + 2 * |groups| + |QuadBytes(quad)| <= 16
    requires groups == [] && quad.None? ==> |st.out| <= 14
    ensures Scan6(st, Join(Items(groups, quad))).Some?
    ensures Finish6(Scan6(st, Join(Items(groups, quad))).value) == Finish6(st.(out := st.out + (GroupBytes(groups) + QuadBytes(quad))))
  {
    SplitSide(groups, quad);
    if quad.None? && groups == [] {
      assert st.out + (GroupBytes(groups) + QuadBytes(quad)) == st.out;
    } else {
      LastNonempty(groups, quad);
      hide Scan6, Finish6, Join, Pre, GroupBytes, Quad, HexVal, Items, Fresh;
      ScanItems(st, Init(groups, quad), LastItem(groups, quad), quad);
    }
  }

  lemma LastNonempty(groups: seq<string>, quad: Option<seq<Byte>>)
    requires (quad.Some? ==> |quad.value| == 4) && (forall i :: 0 <= i < |groups| ==> IsGroup(groups[i])) && (quad.Some? || groups != [])
    ensures LastItem(groups, quad) != "" && (quad.None? ==> IsGroup(LastItem(groups, quad)))
  {
    if quad.Some? {
      DecDigits(quad.value[0]);
    }
  }

  lemma CompleteFull(a: Addr)
    requires Well(a) && !a.gap
    ensures Rest6(Show(a)) == Some(Value(a))
  {
    GroupBytesSize(a.head);
    hide Scan6, Join, GroupBytes;
    ScanSide(Start, a.head, a.quad);
    assert [] + Value(a) == Value(a);
  }

  /** After the "::", the rest of the text is a side of its own. */
  lemma CompleteShort(a: Addr)
    requires Well(a) && a.gap
    ensures Rest6(Pre(a.head) + (":" + Join(Items(a.tail, a.quad)))) == Some(Value(a))
  {
    var side := Join(Items(a.tail, a.quad));
    GroupBytesSize(a.head);
    GroupBytesSize(a.tail);
    var out := GroupBytes(a.head);
    hide Scan6, Join, GroupBytes, Pre;
    ScanPre(Start, a.head, ":" + side);
    assert [] + out == out;
    var st := Start.(out := out);
    ScanGap(st, side);
    var st' := st.(colon := |out|);
    ScanSide(st', a.tail, a.quad);
    var rest := GroupBytes(a.tail) + QuadBytes(a.quad);
    assert (out + rest)[..|out|] == out && (out + rest)[|out|..] == rest;
  }

  lemma GroupStarts(g: string)
    requires IsGroup(g)
    ensures g[0] != ':'
  {
  }

  lemma LeadingGap(side: string, value: Option<seq<Byte>>)
    requires Rest6("" + (":" + side)) == value
    ensures Parse6("" + "::" + side) == value
  {
    var s := "" + "::" + side;
    hide Rest6;
    assert s == "::" + side;
    assert s[1..] == ":" + side && "" + (":" + side) == ":" + side;
  }

  lemma InnerGap(head: seq<string>, side: string)
    requires head != [] && IsGroup(head[0])
    ensures Join(head) + "::" + side == Pre(head) + (":" + side) && Parse6(Join(head) + "::" + side) == Rest6(Join(head) + "::" + side)
  {
    hide Rest6, Join, Pre, IsGroup;
    JoinColon(head);
    TwoColons(Join(head), side);
    PreStarts(head);
    StartsSame(Pre(head), ":" + side);
  }

  lemma TwoColons(a: string, side: string)
    ensures a + "::" + side == (a + ":") + (":" + side)
  {
  }

  lemma StartsSame(a: string, b: string)
    requires a != [] && a[0] != ':'
    ensures Parse6(a + b) == Rest6(a + b)
  {
    hide Rest6;
  }

  lemma PreStarts(head: seq<string>)
    requires head != [] && IsGroup(head[0])
    ensures Pre(head) != [] && Pre(head)[0] != ':'
  {
    GroupStarts(head[0]);
  }

  lemma NoGapStarts(head: seq<string>, quad: Option<seq<Byte>>)
    requires Init(head, quad) != [] && head != [] && Init(head, quad)[0] == head[0] && IsGroup(head[0]) && (quad.Some? ==> |quad.value| == 4)
    ensures Parse6(Join(Items(head, quad))) == Rest6(Join(Items(head, quad)))
  {
    hide Rest6, Join, Items, LastItem, IsGroup, Pre, Init, Parse6, GroupBytes;
    SplitSide(head, quad);
    PreStarts(Init(head, quad));
    StartsSame(Pre(Init(head, quad)), LastItem(head, quad));
  }

  /** Everything in the grammar is accepted, with its value. */
  lemma Complete(a: Addr)
    requires Well(a)
    ensures Parse6(Show(a)) == Some(Value(a))
  {
    hide Rest6, Value, Parse6, Items;
    if a.gap {
      var side := Join(Items(a.tail, a.quad));
      CompleteShort(a);
      if a.head == [] {
        assert Pre(a.head) == "" && Join(a.head) == "";
        hide Join, Pre;
        LeadingGap(side, Some(Value(a)));
      } else {
        hide Join, Pre;
        InnerGap(a.head, side);
      }
    } else {
      CompleteFull(a);
      assert Init(a.head, a.quad) != [] && Init(a.head, a.quad)[0] == a.head[0] by { hide Join, Pre, IsGroup; }
      hide Join, Pre;
      NoGapStarts(a.head, a.quad);
    }
  }

  // ---- Whatever is accepted is in the grammar, and means what the parser returns ------------------------

  /** The groups a scan has stored, before and after "::". */
  datatype Part = Part(head: seq<string>, gap: bool, tail: seq<string>)

  function Text(p: Part, token: string): string {
    Pre(p.head) + (if p.gap then ":" else "") + Pre(p.tail) + token
  }

  predicate GroupsOk(p: Part) {
    && (forall i :: 0 <= i < |p.head| ==> IsGroup(p.head[i])) && (forall i :: 0 <= i < |p.tail| ==> IsGroup(p.tail[i]))
    && (!p.gap ==> p.tail == [])
  }

  predicate TokenOk(st: Scan) {
    && st.digits == |st.token| <= 4 && st.val == HexVal(st.token)
    && forall i :: 0 <= i < |st.token| ==> HexDigitValue(st.token[i]) >= 0
  }

  predicate Agrees(st: Scan, p: Part) {
    && GroupsOk(p) && TokenOk(st)
    && st.out == GroupBytes(p.head) + GroupBytes(p.tail) && |st.out| <= 16
    && st.colon == if p.gap then 2 * |p.head| else -1
  }

  /** The text of an address, but for the first colon of a leading "::". */
  function Bare(a: Addr): string
    requires Well(a)
  {
    if a.gap then Pre(a.head) + ":" + Join(Items(a.tail, a.quad)) else Join(Items(a.head, a.quad))
  }

  lemma BareShow(a: Addr)
    requires Well(a)
    ensures Show(a) == if a.gap && a.head == [] then ":" + Bare(a) else Bare(a)
  {
    if a.gap {
      if a.head == [] {
        assert Pre(a.head) + ":" == ":" && Join(a.head) + "::" == "::";
        assert "::" + Join(Items(a.tail, a.quad)) == ":" + (":" + Join(Items(a.tail, a.quad)));
      } else {
        JoinColon(a.head);
        assert Join(a.head) + "::" == (Join(a.head) + ":") + ":";
      }
    }
  }

  /** A stored group. */
  function Stored(p: Part, g: string): Part {
    if p.gap then p.(tail := p.tail + [g]) else p.(head := p.head + [g])
  }

  lemma StoredFacts(p: Part, g: string)
    requires GroupsOk(p) && IsGroup(g)
    ensures GroupsOk(Stored(p, g)) && Text(Stored(p, g), "") == Text(p, g) + ":"
    ensures GroupBytes(Stored(p, g).head) + GroupBytes(Stored(p, g).tail) == GroupBytes(p.head) + GroupBytes(p.tail) + Two(HexVal(g))
  {
    if p.gap {
      PreMore(p.tail, g);
      GroupBytesMore(p.tail, g);
    } else {
      PreMore(p.head, g);
      GroupBytesMore(p.head, g);
    }
  }

  function AddrOf(p: Part, quad: Option<seq<Byte>>): Addr {
    Addr(p.head, p.gap, p.tail, quad)
  }

  function EndScan(p: Part, out: seq<Byte>): Scan {
    Scan(out, if p.gap then 2 * |p.head| else -1, 0, 0, "")
  }

  /** What the parser returns at the end is the value of the address it has read. */
  lemma ValueOf(p: Part, quad: Option<seq<Byte>>)
    requires GroupsOk(p) && (quad.Some? ==> |quad.value| == 4)
    requires Finish6(EndScan(p, GroupBytes(p.head) + GroupBytes(p.tail) + QuadBytes(quad))).Some?
    ensures Well(AddrOf(p, quad))
    ensures Value(AddrOf(p, quad)) == Finish6(EndScan(p, GroupBytes(p.head) + GroupBytes(p.tail) + QuadBytes(quad))).value
  {
    var l, r := GroupBytes(p.head), GroupBytes(p.tail) + QuadBytes(quad);
    var out := l + GroupBytes(p.tail) + QuadBytes(quad);
    GroupBytesSize(p.head);
    GroupBytesSize(p.tail);
    hide GroupBytes, IsGroup;
    Cut3(l, GroupBytes(p.tail), QuadBytes(quad));
    if !p.gap {
      assert GroupBytes([]) == [] by { GroupBytesSize([]); }
    }
  }

  lemma Cut3(l: seq<Byte>, t: seq<Byte>, q: seq<Byte>)
    ensures var out := l + t + q; out == l + (t + q) && out[..|l|] == l && out[|l|..] == t + q && (t == [] ==> out == l + q)
  {
  }

  lemma BareQuad(p: Part, b: seq<Byte>)
    requires Well(AddrOf(p, Some(b)))
    ensures Bare(AddrOf(p, Some(b))) == Text(p, Quad(b))
  {
    var quad := Quad(b);
    JoinPre(p.head, quad);
    JoinPre(p.tail, quad);
    assert !p.gap ==> Pre(p.tail) == "";
    assert Items(p.head, Some(b)) == p.head + [quad] && Items(p.tail, Some(b)) == p.tail + [quad];
    hide Join, Pre, Quad, Well, Items;
    Regroup(Pre(p.head), Pre(p.tail), quad);
  }

  lemma Regroup(a: string, b: string, c: string)
    ensures a + ":" + (b + c) == a + ":" + b + c && a + "" + "" + c == a + c
  {
  }

  lemma BareGroup(p: Part, g: string)
    requires GroupsOk(p) && Well(AddrOf(Stored(p, g), None))
    ensures Bare(AddrOf(Stored(p, g), None)) == Text(p, g)
  {
    JoinPre(p.head, g);
    JoinPre(p.tail, g);
    assert !p.gap ==> Pre(p.tail) == "";
    hide Join, Pre, Well;
    Regroup(Pre(p.head), Pre(p.tail), g);
  }

  lemma SameEnd(st: Scan, p: Part, out: seq<Byte>)
    requires st.digits == 0 && st.colon == (if p.gap then 2 * |p.head| else -1) && st.out == out
    ensures Finish6(st) == Finish6(EndScan(p, out))
  {
  }

  lemma PendingEnd(st: Scan, p: Part)
    requires st.digits > 0 && st.colon == (if p.gap then 2 * |p.head| else -1) && Finish6(st).Some? && 2 * |p.head| <= |st.out|
    ensures Finish6(st) == Finish6(Scan(st.out + Two(st.val), st.colon, 0, 0, ""))
  {
  }

  lemma SoundEnd(st: Scan, p: Part) returns (a: Addr)
    requires Agrees(st, p) && Finish6(st).Some? && (st.token == "" ==> p.gap && p.tail == [])
    ensures Well(a) && Bare(a) == Text(p, st.token) && Value(a) == Finish6(st).value
    ensures (a.gap && a.head == []) <==> (p.gap && p.head == [])
  {
    if st.token == "" {
      a := AddrOf(p, None);
      assert st.out == GroupBytes(p.head) + GroupBytes(p.tail) + QuadBytes(None);
      SameEnd(st, p, st.out);
      hide Finish6, GroupBytes, Value;
      ValueOf(p, None);
    } else {
      a := SoundLast(st, p);
    }
  }

  lemma SoundLast(st: Scan, p: Part) returns (a: Addr)
    requires Agrees(st, p) && Finish6(st).Some? && st.token != ""
    ensures Well(a) && Bare(a) == Text(p, st.token) && Value(a) == Finish6(st).value
    ensures (a.gap && a.head == []) <==> (p.gap && p.head == [])
  {
    var p' := Stored(p, st.token);
    a := AddrOf(p', None);
    StoredFacts(p, st.token);
    GroupBytesSize(p.head);
    PendingEnd(st, p);
    var out := st.out + Two(st.val);
    assert out == GroupBytes(p'.head) + GroupBytes(p'.tail) + QuadBytes(None);
    hide Finish6, GroupBytes, HexVal, Value, Bare, Text, Two, Well;
    assert Scan(out, st.colon, 0, 0, "") == EndScan(p', out) || !p.gap;
    if !p.gap {
      SameEnd(Scan(out, st.colon, 0, 0, ""), p', out);
    }
    ValueOf(p', None);
    BareGroup(p, st.token);
  }

  lemma SoundQuad(st: Scan, p: Part, rest: string) returns (a: Addr)
    requires Agrees(st, p) && Parse4(st.token + rest).Some? && |st.out| + 4 <= 16
    requires Finish6(st.(out := st.out + Parse4(st.token + rest).value, digits := 0)).Some?
    ensures Well(a) && Bare(a) == Text(p, st.token) + rest
    ensures Value(a) == Finish6(st.(out := st.out + Parse4(st.token + rest).value, digits := 0)).value
    ensures (a.gap && a.head == []) <==> (p.gap && p.head == [])
  {
    var b := Parse4(st.token + rest).value;
    Parse4Exact(st.token + rest, b);
    a := AddrOf(p, Some(b));
    hide Finish6, GroupBytes, HexVal, Value, Bare, Well, Parse4, Pre, Quad;
    SameEnd(st.(out := st.out + b, digits := 0), p, st.out + b);
    ValueOf(p, Some(b));
    BareQuad(p, b);
    assert Text(p, st.token) + rest == Text(p, st.token + rest);
  }

  lemma TokenMore(st: Scan, c: char)
    requires TokenOk(st) && st.digits < 4 && HexDigitValue(c) >= 0
    ensures TokenOk(st.(val := st.val * 16 + HexDigitValue(c), digits := st.digits + 1, token := st.token + [c]))
  {
    HexFoldMore(0, st.token, c);
  }

  lemma StoreStep(st: Scan, p: Part)
    requires Agrees(st, p) && st.token != "" && |st.out| + 2 <= 16
    ensures Agrees(st.(out := st.out + Two(st.val), digits := 0, val := 0, token := ""), Stored(p, st.token))
    ensures Text(Stored(p, st.token), "") == Text(p, st.token) + ":"
  {
    StoredFacts(p, st.token);
  }

  lemma GapStep(st: Scan, p: Part)
    requires Agrees(st, p) && st.token == "" && !p.gap
    ensures Agrees(st.(colon := |st.out|), Part(p.head, true, []))
    ensures Text(Part(p.head, true, []), "") == Text(p, "") + ":"
  {
    GroupBytesSize(p.head);
  }

  lemma {:induction false} SoundScan(st: Scan, p: Part, rest: string) returns (a: Addr)
    requires Agrees(st, p) && Scan6(st, rest).Some? && Finish6(Scan6(st, rest).value).Some?
    requires st.token == "" ==> rest != "" || (p.gap && p.tail == [])
    ensures Well(a) && Bare(a) == Text(p, st.token) + rest && Value(a) == Finish6(Scan6(st, rest).value).value
    ensures (a.gap && a.head == []) <==> (p.head == [] && (p.gap || (st.token == "" && rest != "" && rest[0] == ':')))
    decreases |rest|
  {
    hide Finish6, Bare, Value, Well, Two, HexVal, Pre, GroupBytes;
    if rest == [] {
      a := SoundEnd(st, p);
      assert Text(p, st.token) + rest == Text(p, st.token);
    } else {
      var c, more := rest[0], rest[1..];
      assert rest == [c] + more;
      if HexDigitValue(c) >= 0 {
        TokenMore(st, c);
        a := SoundScan(st.(val := st.val * 16 + HexDigitValue(c), digits := st.digits + 1, token := st.token + [c]), p, more);
        assert Text(p, st.token + [c]) + more == Text(p, st.token) + rest;
      } else if c == ':' && st.digits == 0 {
        GapStep(st, p);
        a := SoundScan(st.(colon := |st.out|, token := ""), Part(p.head, true, []), more);
      } else if c == ':' {
        StoreStep(st, p);
        a := SoundScan(st.(out := st.out + Two(st.val), digits := 0, val := 0, token := ""), Stored(p, st.token), more);
      } else {
        a := SoundQuad(st, p, rest);
      }
    }
  }

  lemma Sound6(s: string) returns (a: Addr)
    requires Parse6(s).Some?
    ensures Well(a) && Show(a) == s && Value(a) == Parse6(s).value
  {
    var lead := s[0] == ':';
    var rest := if lead then s[1..] else s;
    var none := Part([], false, []);
    assert Agrees(Start, none) && Text(none, "") + rest == rest;
    hide Scan6, Finish6, Bare, Value, Well, Show, Text, Agrees;
    a := SoundScan(Start, none, rest);
    BareShow(a);
    assert lead ==> s == ":" + rest;
  }

  /** inet_pton6 accepts exactly the texts of the grammar, and returns the address each stands for. */
  lemma Parse6Exact(s: string, b: seq<Byte>)
    ensures Parse6(s) == Some(b) <==> exists a :: Well(a) && Show(a) == s && Value(a) == b
  {
    hide Parse6, Show, Value, Well;
    if Parse6(s) == Some(b) {
      var a := Sound6(s);
    }
    if exists a :: Well(a) && Show(a) == s && Value(a) == b {
      var a :| Well(a) && Show(a) == s && Value(a) == b;
      Complete(a);
    }
  }
}
