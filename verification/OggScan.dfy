/**
 Finding the length of an Opus stream by walking the pages of its Ogg container (section 6 of
 RFC 3533). The granule position counts samples at 48 kHz (section 4 of RFC 7845).
 */
module OggScan {
  import opened Basics

  const HEADER := 27
  const CAPTURE: seq<Byte> := [0x4F, 0x67, 0x67, 0x53]

  function Max(a: int, b: int): int { if a > b then a else b }

  // ----- little-endian 64-bit integers

  const TWO63 := 0x8000_0000_0000_0000
  const TWO64 := 0x1_0000_0000_0000_0000

  function Power(n: nat): nat { if n == 0 then 1 else 256 * Power(n - 1) }

  function LittleEndian(u: nat, n: nat): (bytes: seq<Byte>)
    ensures |bytes| == n
  {
    if n == 0 then [] else [u % 256] + LittleEndian(u / 256, n - 1)
  }

  function Unsigned(bytes: seq<Byte>): (u: nat) {
    if bytes == [] then 0 else bytes[0] + 256 * Unsigned(bytes[1..])
  }

  lemma {:induction false} UnsignedOfLittleEndian(u: nat, n: nat)
    requires u < Power(n)
    ensures Unsigned(LittleEndian(u, n)) == u
  {
    if n > 0 {
      assert u / 256 < Power(n - 1);
      UnsignedOfLittleEndian(u / 256, n - 1);
      assert LittleEndian(u, n)[1..] == LittleEndian(u / 256, n - 1);
    }
  }

  /** Go's conversion from uint64 to int64. */
  function ToInt64(u: nat): int { if u < TWO63 then u else u - TWO64 }

  function ToUint64(g: int): nat
    requires -TWO63 <= g < TWO63
  {
    if g >= 0 then g else g + TWO64
  }

  lemma Power8()
    ensures Power(8) == TWO64
  {
    assert Power(2) == 0x1_0000;
    assert Power(4) == 0x1_0000_0000;
    assert Power(6) == 0x1_0000_0000_0000;
  }

  lemma GranuleRoundTrip(g: int)
    requires -TWO63 <= g < TWO63
    ensures ToInt64(Unsigned(LittleEndian(ToUint64(g), 8))) == g
  {
    Power8();
    UnsignedOfLittleEndian(ToUint64(g), 8);
  }

  // ----- pages

  function Total(segments: seq<Byte>): nat {
    if segments == [] then 0 else Total(segments[..|segments| - 1]) + segments[|segments| - 1]
  }

  /** `rest` holds the serial number, the sequence number and the checksum. */
  datatype Page = Page(version: Byte, headerType: Byte, granule: int, rest: seq<Byte>, segments: seq<Byte>, body: seq<Byte>)

  predicate WellFormed(p: Page) {
    && -TWO63 <= p.granule < TWO63 && |p.rest| == 12
    && |p.segments| <= 255 && |p.body| == Total(p.segments)
  }

  function Encode(p: Page): (bytes: seq<Byte>)
    requires WellFormed(p)
    ensures |bytes| == HEADER + |p.segments| + |p.body|
  {
    CAPTURE + [p.version, p.headerType] + LittleEndian(ToUint64(p.granule), 8) + p.rest + [|p.segments|] + p.segments + p.body
  }

  ghost predicate AllWellFormed(pages: seq<Page>) { forall i :: 0 <= i < |pages| ==> WellFormed(pages[i]) }

  function Stream(pages: seq<Page>): seq<Byte>
    requires AllWellFormed(pages)
  {
    if pages == [] then [] else Encode(pages[0]) + Stream(pages[1..])
  }

  /** The largest granule position, and zero when there is none above it. */
  function LargestGranule(pages: seq<Page>): int {
    if pages == [] then 0 else Max(pages[0].granule, LargestGranule(pages[1..]))
  }

  // ----- the scan

  predicate AtCapture(s: seq<Byte>) { CAPTURE <= s }

  function GranuleField(s: seq<Byte>): int
    requires |s| >= HEADER
  {
    ToInt64(Unsigned(s[6..14]))
  }

  function Drop(s: seq<Byte>, n: nat): seq<Byte> { if n <= |s| then s[n..] else [] }

  /** The segment table of a page is complete. */
  predicate HasTable(s: seq<Byte>)
    requires |s| >= HEADER
  {
    HEADER + s[26] <= |s|
  }

  /** How far the cursor moves when the scan goes on: to the end of a page, or by one byte to resynchronise. */
  function Advance(s: seq<Byte>): (n: nat)
    requires |s| >= HEADER && (AtCapture(s) ==> HasTable(s))
    ensures n >= 1
  {
    if AtCapture(s) then HEADER + s[26] + Total(s[HEADER..HEADER + s[26]]) else 1
  }

  /** The best granule position after scanning the bytes that are left. */
  function Scan(s: seq<Byte>, best: int): int
    decreases |s|
  {
    if |s| < HEADER then best
    else if !AtCapture(s) then Scan(s[1..], best)
    else
      var seen := Max(GranuleField(s), best);
      if HasTable(s) then Scan(Drop(s, Advance(s)), seen) else seen
  }

  /** The offsets at which the scan reads a header. */
  function Visits(s: seq<Byte>, at: nat): seq<nat>
    decreases |s|
  {
    if |s| < HEADER || (AtCapture(s) && !HasTable(s)) then [at]
    else [at] + Visits(Drop(s, Advance(s)), at + Advance(s))
  }

  /** One turn of the loop, from the cursor `pos`; it stops at the end or in an incomplete page. */
  method Turn(data: seq<Byte>, pos: nat, granule: int) returns (next: nat, best: int, more: bool)
    ensures TurnOf(Drop(data, pos), pos, granule, next, best, more)
  {
    next, best, more := pos, granule, false;
    if |data| - pos < HEADER { return; }
    var buf := data[pos..pos + HEADER];
    ghost var left := data[pos..];
    assert left == Drop(data, pos) && left[..HEADER] == buf;
    next := pos + HEADER;
    if buf[..4] != CAPTURE {
      assert left[..4] == buf[..4];
      return next - 26, granule, true;
    }
    assert AtCapture(left) && left[6..14] == buf[6..14];
    var g := ToInt64(Unsigned(buf[6..14]));
    if g > granule { best := g; }
    var segments := buf[26];
    if next + segments > |data| { return; }
    var table := data[next..next + segments];
    assert table == left[HEADER..HEADER + left[26]];
    var size := PageSize(table);
    next, more := next + segments + size, true;
  }

  predicate TurnOf(s: seq<Byte>, pos: nat, granule: int, next: nat, best: int, more: bool) {
    && more == (|s| >= HEADER && (AtCapture(s) ==> HasTable(s)))
    && best == (if |s| >= HEADER && AtCapture(s) then Max(GranuleField(s), granule) else granule)
    && (more ==> next == pos + Advance(s))
  }

  /** What a turn leaves for the rest of the scan. */
  lemma AfterTurn(data: seq<Byte>, pos: nat, granule: int, next: nat, best: int, more: bool)
    requires TurnOf(Drop(data, pos), pos, granule, next, best, more)
    ensures Scan(Drop(data, pos), granule) == if more then Scan(Drop(data, next), best) else best
    ensures Visits(Drop(data, pos), pos) == [pos] + if more then Visits(Drop(data, next), next) else []
    ensures more ==> pos < next && pos < |data|
  {
    if more {
      var s := Drop(data, pos);
      assert Drop(s, Advance(s)) == Drop(data, next);
    }
  }

  /** getOpusDuration over a reader that delivers full reads; `visited` are the offsets of its header reads. */
  method OpusDuration(data: seq<Byte>) returns (granule: int, duration: real, ghost visited: seq<nat>)
    ensures granule == Scan(data, 0) && duration == granule as real / 48000.0
    ensures visited == Visits(data, 0)
  {
    granule, visited := 0, [];
    var pos, more := 0, true;
    assert Drop(data, 0) == data;
    while more
      invariant Scan(data, 0) == if more then Scan(Drop(data, pos), granule) else granule
      invariant Visits(data, 0) == if more then visited + Visits(Drop(data, pos), pos) else visited
      decreases more, |data| - pos
    {
      var next, best;
      next, best, more := Turn(data, pos, granule);
      AfterTurn(data, pos, granule, next, best, more);
      visited, granule := visited + [pos], best;
      if more { pos := next; }
    }
    duration := granule as real / 48000.0;
  }

  method PageSize(table: seq<Byte>) returns (size: nat)
    ensures size == Total(table)
  {
    size := 0;
    for i := 0 to |table|
      invariant size == Total(table[..i])
    {
      assert table[..i + 1][..i] == table[..i];
      size := size + table[i];
    }
    assert table[..|table|] == table;
  }

  // ----- well-formed streams

  lemma PageFields(p: Page, tail: seq<Byte>)
    requires WellFormed(p)
    ensures var s := Encode(p) + tail;
      |s| >= HEADER && AtCapture(s) && GranuleField(s) == p.granule && HasTable(s)
      && Advance(s) == |Encode(p)| && Drop(s, Advance(s)) == tail
  {
    var s := Encode(p) + tail;
    assert s[..4] == CAPTURE;
    assert s[6..14] == LittleEndian(ToUint64(p.granule), 8);
    GranuleRoundTrip(p.granule);
    assert s[26] == |p.segments|;
    assert s[HEADER..HEADER + s[26]] == p.segments;
  }

  /** Reading pages from a boundary, whatever follows them and whatever was found before. */
  lemma {:induction false} ScanPages(pages: seq<Page>, tail: seq<Byte>, best: int)
    requires AllWellFormed(pages) && best >= 0
    ensures Scan(Stream(pages) + tail, best) == Scan(tail, Max(LargestGranule(pages), best))
  {
    if pages == [] {
      assert Stream(pages) + tail == tail;
    } else {
      var after := Stream(pages[1..]) + tail;
      assert Stream(pages) + tail == Encode(pages[0]) + after;
      PageFields(pages[0], after);
      ScanPages(pages[1..], tail, Max(pages[0].granule, best));
    }
  }

  /**
   On a concatenation of well-formed pages, followed by less than a header, the scan finds the
   maximum of zero and all signed granule positions.
   */
  lemma FindsLargestGranule(pages: seq<Page>, tail: seq<Byte>)
    requires AllWellFormed(pages) && |tail| < HEADER
    ensures Scan(Stream(pages) + tail, 0) == LargestGranule(pages)
    ensures LargestGranule(pages) >= 0 && forall i :: 0 <= i < |pages| ==> pages[i].granule <= LargestGranule(pages)
    ensures LargestGranule(pages) == 0 || exists i :: 0 <= i < |pages| && pages[i].granule == LargestGranule(pages)
  {
    LargestGranuleIsMaximum(pages);
    ScanPages(pages, tail, 0);
  }

  lemma {:induction false} LargestGranuleIsMaximum(pages: seq<Page>)
    ensures LargestGranule(pages) >= 0 && forall i :: 0 <= i < |pages| ==> pages[i].granule <= LargestGranule(pages)
    ensures LargestGranule(pages) == 0 || exists i :: 0 <= i < |pages| && pages[i].granule == LargestGranule(pages)
  {
    if pages != [] {
      LargestGranuleIsMaximum(pages[1..]);
      forall i | 0 <= i < |pages| ensures pages[i].granule <= LargestGranule(pages) {
        if i > 0 { assert pages[i] == pages[1..][i - 1]; }
      }
    }
  }

  /** A page cut off after its header still counts, whether its table or its body is incomplete. */
  lemma CutPageCounts(pages: seq<Page>, p: Page, k: nat)
    requires AllWellFormed(pages) && WellFormed(p) && HEADER <= k <= |Encode(p)|
    ensures Scan(Stream(pages) + Encode(p)[..k], 0) == Max(p.granule, LargestGranule(pages))
  {
    var cut := Encode(p)[..k];
    LargestGranuleIsMaximum(pages);
    ScanPages(pages, cut, 0);
    assert cut[..4] == CAPTURE by { PageFields(p, []); assert Encode(p) + [] == Encode(p) && Encode(p)[..4] == CAPTURE; }
    CutPage(p, cut, k, LargestGranule(pages));
  }

  lemma CutPage(p: Page, cut: seq<Byte>, k: nat, best: int)
    requires WellFormed(p) && HEADER <= k <= |Encode(p)| && cut == Encode(p)[..k] && cut[..4] == CAPTURE
    ensures Scan(cut, best) == Max(p.granule, best)
  {
    var s := Encode(p);
    PageFields(p, []);
    assert s + [] == s;
    assert cut[6..14] == s[6..14] && cut[26] == s[26];
    assert GranuleField(cut) == p.granule && AtCapture(cut);
    if HasTable(cut) {
      assert cut[HEADER..HEADER + cut[26]] == s[HEADER..HEADER + s[26]];
      assert Advance(cut) == |s|;
      assert Drop(cut, Advance(cut)) == [];
    }
  }

  function Boundaries(pages: seq<Page>, at: nat): seq<nat>
    requires AllWellFormed(pages)
  {
    if pages == [] then [at] else [at] + Boundaries(pages[1..], at + |Encode(pages[0])|)
  }

  lemma FirstPage(pages: seq<Page>, s: seq<Byte>)
    requires AllWellFormed(pages) && pages != [] && s == Stream(pages)
    ensures |s| >= HEADER && AtCapture(s) && HasTable(s) && Advance(s) == |Encode(pages[0])|
    ensures Drop(s, Advance(s)) == Stream(pages[1..])
  {
    PageFields(pages[0], Stream(pages[1..]));
  }

  lemma VisitsNext(s: seq<Byte>, at: nat)
    requires |s| >= HEADER && AtCapture(s) && HasTable(s)
    ensures Visits(s, at) == [at] + Visits(Drop(s, Advance(s)), at + Advance(s))
  {
  }

  /** The scan reads headers at page boundaries and nowhere else. */
  lemma {:induction false} StaysOnBoundaries(pages: seq<Page>, s: seq<Byte>, at: nat)
    requires AllWellFormed(pages) && s == Stream(pages)
    ensures Visits(s, at) == Boundaries(pages, at)
  {
    if pages != [] {
      FirstPage(pages, s);
      VisitsNext(s, at);
      StaysOnBoundaries(pages[1..], Drop(s, Advance(s)), at + Advance(s));
    }
  }

  // ----- arbitrary bytes

  /** Whatever the bytes, the result is zero or the granule field of some capture pattern in them. */
  lemma {:induction false} FoundInTheBytes(s: seq<Byte>, best: int)
    ensures Scan(s, best) >= best
    ensures Scan(s, best) == best ||
      exists i :: 0 <= i <= |s| - HEADER && AtCapture(s[i..]) && GranuleField(s[i..]) == Scan(s, best)
    decreases |s|
  {
    if |s| >= HEADER {
      if !AtCapture(s) {
        FoundLater(s, 1, best);
      } else {
        var seen := Max(GranuleField(s), best);
        assert s[0..] == s;
        if HasTable(s) && Advance(s) <= |s| { FoundLater(s, Advance(s), seen); }
      }
    }
  }

  lemma {:induction false} FoundLater(s: seq<Byte>, n: nat, best: int)
    requires 1 <= n <= |s|
    ensures Scan(s[n..], best) >= best
    ensures Scan(s[n..], best) == best ||
      exists i :: 0 <= i <= |s| - HEADER && AtCapture(s[i..]) && GranuleField(s[i..]) == Scan(s[n..], best)
    decreases |s|, 0
  {
    var t := s[n..];
    FoundInTheBytes(t, best);
    if Scan(t, best) != best {
      var i :| 0 <= i <= |t| - HEADER && AtCapture(t[i..]) && GranuleField(t[i..]) == Scan(t, best);
      assert s[n + i..] == t[i..];
    }
  }

  /** Bytes before the first page that contain no capture pattern are skipped. */
  lemma {:induction false} Resynchronises(garbage: seq<Byte>, pages: seq<Page>)
    requires AllWellFormed(pages)
    requires forall i :: 0 <= i < |garbage| ==> !AtCapture(garbage[i..] + Stream(pages))
    ensures Scan(garbage + Stream(pages), 0) == LargestGranule(pages)
  {
    var s := garbage + Stream(pages);
    if garbage == [] {
      assert s == Stream(pages) + [];
      FindsLargestGranule(pages, []);
    } else {
      forall i | 0 <= i < |garbage[1..]| ensures !AtCapture(garbage[1..][i..] + Stream(pages)) {
        assert garbage[1..][i..] == garbage[i + 1..];
      }
      Resynchronises(garbage[1..], pages);
      assert garbage[0..] == garbage && s[1..] == garbage[1..] + Stream(pages);
    }
  }
}
