/**
 Annex-B byte streams (Annex B of ITU-T H.264 and H.265).

 Two independent splitters: `ParseAnnexB` looks for start codes in a whole
 buffer, `StreamNALUs` reads byte by byte. Both are proved against the same
 markers, their results are compared on every byte string, and serialising is
 shown to be undone by the batch parser.
 */
module AnnexB {
  type byte = b: int | 0 <= b < 256
  type Nalu = seq<byte>

  // ---------------------------------------------------------------------
  // Markers: the 01 byte that ends a start code
  // ---------------------------------------------------------------------

  /** d[p] is the last byte of 00 00 01. */
  predicate Marker(d: seq<byte>, p: int) {
    2 <= p < |d| && d[p] == 1 && d[p - 1] == 0 && d[p - 2] == 0
  }

  /** The first byte of the start code: 00 00 00 01 when it can be, else 00 00 01. */
  function CodeStart(d: seq<byte>, p: int): nat
    requires Marker(d, p)
  {
    if p >= 3 && d[p - 3] == 0 then p - 3 else p - 2
  }

  /** The markers among the first n bytes, in order. */
  function Markers(d: seq<byte>, n: nat): seq<nat>
    requires n <= |d|
  {
    if n == 0 then [] else Markers(d, n - 1) + (if Marker(d, n - 1) then [n - 1] else [])
  }

  /** The buffer ends in a three-byte start code: the batch parser does not look there. */
  predicate EndsShort(d: seq<byte>) {
    Marker(d, |d| - 1) && CodeStart(d, |d| - 1) == |d| - 3
  }

  /** How much of the buffer the batch parser searches for markers. */
  function Searched(d: seq<byte>): nat {
    if EndsShort(d) then |d| - 1 else |d|
  }

  predicate MarkerFree(u: seq<byte>) {
    forall p :: 2 <= p < |u| ==> !Marker(u, p)
  }

  /** ms lists, in increasing order, exactly the markers among the first n bytes. */
  ghost predicate Lists(d: seq<byte>, n: nat, ms: seq<nat>) {
    && (forall k :: 0 <= k < |ms| ==> ms[k] < n && Marker(d, ms[k]))
    && (forall j, k :: 0 <= j < k < |ms| ==> ms[j] < ms[k])
    && (forall p :: 0 <= p < n && Marker(d, p) ==> p in ms)
  }

  lemma {:induction false} MarkersList(d: seq<byte>, n: nat)
    requires n <= |d|
    ensures Lists(d, n, Markers(d, n))
  {
    if n > 0 {
      MarkersList(d, n - 1);
    }
  }

  lemma {:induction false} NoMarkerBetween(d: seq<byte>, a: nat, b: nat)
    requires a <= b <= |d| && forall p :: a <= p < b ==> !Marker(d, p)
    ensures Markers(d, b) == Markers(d, a)
    decreases |d| - a
  {
    if a < b {
      NoMarkerBetween(d, a + 1, b);
    }
  }

  // ---------------------------------------------------------------------
  // Lists of units
  // ---------------------------------------------------------------------

  function NonEmpty(u: Nalu): seq<Nalu> {
    if u == [] then [] else [u]
  }

  lemma NonEmptyAppend(us: seq<Nalu>, u: Nalu)
    ensures us + NonEmpty(u) == if u == [] then us else us + [u]
  {
    if u == [] {
      assert us + NonEmpty(u) == us;
    }
  }

  /** The nonempty ones of the first k units. */
  function Kept(us: seq<Nalu>, k: nat): seq<Nalu>
    requires k <= |us|
  {
    if k == 0 then [] else Kept(us, k - 1) + NonEmpty(us[k - 1])
  }

  function DropEmpty(us: seq<Nalu>): seq<Nalu> {
    Kept(us, |us|)
  }

  lemma {:induction false} KeptOfPrefix(us: seq<Nalu>, vs: seq<Nalu>, k: nat)
    requires k <= |us| && k <= |vs| && forall j :: 0 <= j < k ==> us[j] == vs[j]
    ensures Kept(us, k) == Kept(vs, k)
  {
    if k > 0 {
      KeptOfPrefix(us, vs, k - 1);
    }
  }

  lemma DropEmptySnoc(us: seq<Nalu>, u: Nalu)
    ensures DropEmpty(us + [u]) == DropEmpty(us) + NonEmpty(u)
  {
    KeptOfPrefix(us + [u], us, |us|);
  }

  /** How much is left of the first n bytes without their trailing zeros. */
  function StripLength(u: Nalu, n: nat): (m: nat)
    requires n <= |u|
    ensures m <= n
  {
    if n == 0 || u[n - 1] != 0 then n else StripLength(u, n - 1)
  }

  function Strip(u: Nalu): Nalu {
    u[..StripLength(u, |u|)]
  }

  // ---------------------------------------------------------------------
  // The batch parser
  // ---------------------------------------------------------------------

  /** Markers of d in increasing order. */
  predicate Rising(d: seq<byte>, ps: seq<nat>) {
    && (forall k :: 0 <= k < |ps| ==> Marker(d, ps[k]))
    && (forall j, k :: 0 <= j < k < |ps| ==> ps[j] < ps[k])
  }

  /** positions holds the first byte of each of the start codes that end at ps. */
  ghost predicate StartsOf(d: seq<byte>, positions: seq<nat>, ps: seq<nat>) {
    |positions| == |ps| && forall k :: 0 <= k < |ps| ==> Marker(d, ps[k]) && positions[k] == CodeStart(d, ps[k])
  }

  /** Unit k runs from after its marker to the next start code, or to the end of the buffer. */
  function UnitEnd(d: seq<byte>, ps: seq<nat>, k: nat): (end: nat)
    requires k < |ps| && Rising(d, ps)
    ensures ps[k] + 1 <= end <= |d|
  {
    if k + 1 < |ps| then CodeStart(d, ps[k + 1]) else |d|
  }

  /** What lies between the start codes that end at ps, empty units included. */
  function UnitsBetween(d: seq<byte>, ps: seq<nat>): (us: seq<Nalu>)
    requires Rising(d, ps)
    ensures |us| == |ps|
  {
    seq(|ps|, k requires 0 <= k < |ps| => d[ps[k] + 1..UnitEnd(d, ps, k)])
  }

  function RawUnits(d: seq<byte>): seq<Nalu> {
    MarkersList(d, Searched(d));
    UnitsBetween(d, Markers(d, Searched(d)))
  }

  /** The first i bytes are scanned: every start code that begins there is recorded, and none is cut. */
  ghost predicate Scanned(d: seq<byte>, i: nat, positions: seq<nat>, ps: seq<nat>) {
    && i <= |d|
    && (i > 0 && Marker(d, i + 2) ==> d[i - 1] != 0)
    && (i + 3 > |d| ==> !EndsShort(d))
    && StartsOf(d, positions, ps)
    && ps == Markers(d, if i + 2 <= |d| then i + 2 else |d|)
  }

  lemma ScannedCode(d: seq<byte>, i: nat, positions: seq<nat>, ps: seq<nat>, p: nat)
    requires Scanned(d, i, positions, ps) && i <= |d| - 4
    requires p == i + 2 || (p == i + 3 && d[i] == 0)
    requires Marker(d, p)
    ensures Scanned(d, p + 1, positions + [i], ps + [p])
  {
    NoMarkerBetween(d, i + 2, p);
    assert Markers(d, p + 1) == Markers(d, p) + [p];
    NoMarkerBetween(d, p + 1, if p + 3 <= |d| then p + 3 else |d|);
    assert i == CodeStart(d, p);
    StartsSnoc(d, positions, ps, i, p);
  }

  lemma StartsSnoc(d: seq<byte>, positions: seq<nat>, ps: seq<nat>, i: nat, p: nat)
    requires StartsOf(d, positions, ps) && Marker(d, p) && i == CodeStart(d, p)
    ensures StartsOf(d, positions + [i], ps + [p])
  {
  }

  lemma ScannedByte(d: seq<byte>, i: nat, positions: seq<nat>, ps: seq<nat>)
    requires Scanned(d, i, positions, ps) && i <= |d| - 4
    requires !Marker(d, i + 2) && !(Marker(d, i + 3) && d[i] == 0)
    ensures Scanned(d, i + 1, positions, ps)
  {
  }

  lemma ScannedAll(d: seq<byte>, i: nat, positions: seq<nat>, ps: seq<nat>)
    requires Scanned(d, i, positions, ps) && |d| >= 4 && i >= |d| - 3
    ensures ps == Markers(d, Searched(d))
  {
    if i == |d| - 3 && !Marker(d, i + 2) {
      assert Markers(d, |d|) == Markers(d, |d| - 1);
    }
  }

  /** First pass: the position of every start code, skipping over the ones found. */
  method FindStartCodes(d: seq<byte>) returns (positions: seq<nat>)
    requires |d| >= 4
    ensures StartsOf(d, positions, Markers(d, Searched(d)))
  {
    positions := [];
    ghost var ps: seq<nat> := [];
    var i := 0;
    NoMarkerBetween(d, 0, 2);
    while i < |d| - 3
      invariant Scanned(d, i, positions, ps)
      decreases |d| - i
    {
      if d[i] == 0 && d[i + 1] == 0 {
        if d[i + 2] == 1 {
          ScannedCode(d, i, positions, ps, i + 2);
          positions, ps := positions + [i], ps + [i + 2];
          i := i + 3;
          continue;
        }
        if d[i + 2] == 0 && d[i + 3] == 1 {
          ScannedCode(d, i, positions, ps, i + 3);
          positions, ps := positions + [i], ps + [i + 3];
          i := i + 4;
          continue;
        }
      }
      ScannedByte(d, i, positions, ps);
      i := i + 1;
    }
    ScannedAll(d, i, positions, ps);
  }

  lemma ShortInput(d: seq<byte>)
    requires |d| < 4
    ensures RawUnits(d) == []
  {
    NoMarkerBetween(d, 0, Searched(d));
  }

  ghost predicate CutTo(d: seq<byte>, ps: seq<nat>, idx: nat, nalus: seq<Nalu>) {
    Rising(d, ps) && idx <= |ps| && nalus == Kept(UnitsBetween(d, ps), idx)
  }

  /** Start-code length, 3 or 4 bytes. */
  function CodeLength(d: seq<byte>, pos: nat): nat {
    if pos + 3 < |d| && d[pos + 2] == 0 && d[pos + 3] == 1 then 4 else 3
  }

  lemma CodeLengthIsExact(d: seq<byte>, p: nat)
    requires Marker(d, p)
    ensures CodeStart(d, p) + CodeLength(d, CodeStart(d, p)) == p + 1
  {
  }

  lemma UnitAt(d: seq<byte>, positions: seq<nat>, ps: seq<nat>, idx: nat, nalus: seq<Nalu>, start: nat, end: nat)
    requires CutTo(d, ps, idx, nalus) && StartsOf(d, positions, ps) && idx < |ps|
    requires start == positions[idx] + CodeLength(d, positions[idx])
    requires end == if idx + 1 < |ps| then positions[idx + 1] else |d|
    ensures start <= end <= |d|
    ensures CutTo(d, ps, idx + 1, nalus + NonEmpty(d[start..end]))
  {
    CodeLengthIsExact(d, ps[idx]);
    assert start == ps[idx] + 1 && end == UnitEnd(d, ps, idx);
    CutOne(d, ps, idx, nalus);
  }

  lemma CutOne(d: seq<byte>, ps: seq<nat>, idx: nat, nalus: seq<Nalu>)
    requires CutTo(d, ps, idx, nalus) && idx < |ps|
    ensures CutTo(d, ps, idx + 1, nalus + NonEmpty(d[ps[idx] + 1..UnitEnd(d, ps, idx)]))
  {
  }

  method CutUnit(d: seq<byte>, positions: seq<nat>, idx: nat, nalus: seq<Nalu>, ghost ps: seq<nat>) returns (more: seq<Nalu>)
    requires CutTo(d, ps, idx, nalus) && StartsOf(d, positions, ps) && idx < |positions|
    ensures CutTo(d, ps, idx + 1, more)
  {
    var start := positions[idx] + CodeLength(d, positions[idx]);
    var end := if idx + 1 < |positions| then positions[idx + 1] else |d|;
    UnitAt(d, positions, ps, idx, nalus, start, end);
    NonEmptyAppend(nalus, d[start..end]);
    if start < end {
      more := nalus + [d[start..end]];
    } else {
      more := nalus;
    }
  }

  /** Second pass: the bytes after each start code, up to the next one. */
  method CutUnits(d: seq<byte>, positions: seq<nat>, ghost ps: seq<nat>) returns (nalus: seq<Nalu>)
    requires CutTo(d, ps, 0, []) && StartsOf(d, positions, ps)
    ensures CutTo(d, ps, |ps|, nalus)
  {
    nalus := [];
    for idx := 0 to |positions|
      invariant CutTo(d, ps, idx, nalus)
    {
      nalus := CutUnit(d, positions, idx, nalus, ps);
    }
  }

  /** Splits a byte stream into units without start codes. */
  method ParseAnnexB(d: seq<byte>) returns (nalus: seq<Nalu>)
    ensures nalus == DropEmpty(RawUnits(d))
  {
    if |d| < 4 {
      ShortInput(d);
      return [];
    }
    var positions := FindStartCodes(d);
    MarkersList(d, Searched(d));
    if |positions| == 0 {
      return [];
    }
    nalus := CutUnits(d, positions, Markers(d, Searched(d)));
  }

  function Parsed(d: seq<byte>): seq<Nalu> {
    DropEmpty(RawUnits(d))
  }

  // ---------------------------------------------------------------------
  // The streaming splitter
  // ---------------------------------------------------------------------

  /** Where the bytes before marker k begin. */
  function Begin(ms: seq<nat>, k: nat): nat
    requires k <= |ms|
  {
    if k == 0 then 0 else ms[k - 1] + 1
  }

  function AfterLast(ms: seq<nat>): nat {
    Begin(ms, |ms|)
  }

  function Piece(d: seq<byte>, a: nat, b: nat): Nalu {
    if a <= b <= |d| then d[a..b] else []
  }

  /** The bytes before marker j, stripped of the zeros of its start code (and of any before). */
  function CutBefore(d: seq<byte>, ms: seq<nat>, j: nat): Nalu
    requires j < |ms|
  {
    Strip(Piece(d, Begin(ms, j), ms[j]))
  }

  function Cuts(d: seq<byte>, ms: seq<nat>): (us: seq<Nalu>)
    ensures |us| == |ms| && forall j :: 0 <= j < |ms| ==> us[j] == CutBefore(d, ms, j)
  {
    seq(|ms|, j requires 0 <= j < |ms| => CutBefore(d, ms, j))
  }

  /** The cuts, then whatever follows the last marker as it is. */
  function StreamUnits(d: seq<byte>, ms: seq<nat>): seq<Nalu> {
    Cuts(d, ms) + [Piece(d, AfterLast(ms), |d|)]
  }

  function Streamed(d: seq<byte>): seq<Nalu> {
    DropEmpty(StreamUnits(d, Markers(d, |d|)))
  }

  function Zeros(n: nat): (z: seq<byte>)
    ensures |z| == n && forall i :: 0 <= i < n ==> z[i] == 0
  {
    seq(n, _ => 0)
  }

  /** The unit being read starts at `from`: some bytes ending in a nonzero one, then z zeros not yet attributed. */
  ghost predicate Reading(d: seq<byte>, i: nat, from: nat, nalu: Nalu, z: nat) {
    && i <= |d| && from + |nalu| + z == i
    && (from > 0 ==> d[from - 1] == 1)
    && nalu == d[from..from + |nalu|]
    && (nalu != [] ==> nalu[|nalu| - 1] != 0)
    && (forall j :: from + |nalu| <= j < i ==> d[j] == 0)
  }

  /** What has been sent once the markers ms are behind. */
  ghost predicate Delivered(d: seq<byte>, ms: seq<nat>, out: seq<Nalu>) {
    out == DropEmpty(Cuts(d, ms))
  }

  lemma {:induction false} StripLengthIs(u: Nalu, m: nat, n: nat)
    requires m <= n <= |u| && (m > 0 ==> u[m - 1] != 0)
    requires forall i :: m <= i < n ==> u[i] == 0
    ensures StripLength(u, n) == m
  {
    if m < n {
      StripLengthIs(u, m, n - 1);
    }
  }

  /** Two pending zeros are exactly what makes a 01 byte a marker. */
  lemma ReadingMarker(d: seq<byte>, i: nat, from: nat, nalu: Nalu, z: nat)
    requires Reading(d, i, from, nalu, z) && i < |d|
    ensures Marker(d, i) <==> d[i] == 1 && z >= 2
    ensures Markers(d, i + 1) == if d[i] == 1 && z >= 2 then Markers(d, i) + [i] else Markers(d, i)
  {
  }

  lemma ReadZero(d: seq<byte>, i: nat, from: nat, nalu: Nalu, z: nat)
    requires Reading(d, i, from, nalu, z) && i < |d| && d[i] == 0
    ensures Reading(d, i + 1, from, nalu, z + 1)
  {
  }

  lemma ReadByte(d: seq<byte>, i: nat, from: nat, nalu: Nalu, z: nat)
    requires Reading(d, i, from, nalu, z) && i < |d| && d[i] != 0
    ensures Reading(d, i + 1, from, nalu + Zeros(z) + [d[i]], 0)
  {
    assert nalu + Zeros(z) + [d[i]] == d[from..i + 1];
  }

  lemma CutsSnoc(d: seq<byte>, ms: seq<nat>, i: nat)
    ensures Cuts(d, ms + [i]) == Cuts(d, ms) + [Strip(Piece(d, AfterLast(ms), i))]
  {
    var ns := ms + [i];
    forall j | 0 <= j < |ms|
      ensures Cuts(d, ns)[j] == Cuts(d, ms)[j]
    {
      SameCut(d, ms, i, j);
    }
    assert Begin(ns, |ms|) == AfterLast(ms);
    assert Cuts(d, ns)[|ms|] == Strip(Piece(d, AfterLast(ms), i));
    assert Cuts(d, ns)[..|ms|] == Cuts(d, ms);
  }

  lemma SameCut(d: seq<byte>, ms: seq<nat>, i: nat, j: nat)
    requires j < |ms|
    ensures CutBefore(d, ms + [i], j) == CutBefore(d, ms, j)
  {
    assert Begin(ms + [i], j) == Begin(ms, j) && (ms + [i])[j] == ms[j];
  }

  lemma ReadingStrip(d: seq<byte>, i: nat, from: nat, nalu: Nalu, z: nat)
    requires Reading(d, i, from, nalu, z)
    ensures Strip(Piece(d, from, i)) == nalu
  {
    StripLengthIs(d[from..i], |nalu|, i - from);
  }

  lemma ReadMarker(d: seq<byte>, i: nat, ms: seq<nat>, out: seq<Nalu>, nalu: Nalu)
    requires Delivered(d, ms, out) && Strip(Piece(d, AfterLast(ms), i)) == nalu
    ensures Delivered(d, ms + [i], out + NonEmpty(nalu))
  {
    CutsSnoc(d, ms, i);
    DropEmptySnoc(Cuts(d, ms), nalu);
  }

  lemma ReadingAll(d: seq<byte>, i: nat, from: nat, nalu: Nalu, z: nat)
    requires Reading(d, i, from, nalu, z)
    ensures nalu + Zeros(z) == d[from..i] == Piece(d, from, i)
  {
  }

  lemma ReadEnd(d: seq<byte>, ms: seq<nat>, out: seq<Nalu>, nalu: Nalu)
    requires Delivered(d, ms, out) && nalu == Piece(d, AfterLast(ms), |d|)
    ensures out + NonEmpty(nalu) == DropEmpty(StreamUnits(d, ms))
  {
    DropEmptySnoc(Cuts(d, ms), nalu);
  }

  ghost predicate StreamedTo(d: seq<byte>, i: nat, out: seq<Nalu>, nalu: Nalu, z: nat) {
    i <= |d| && Delivered(d, Markers(d, i), out) && Reading(d, i, AfterLast(Markers(d, i)), nalu, z)
  }

  lemma StreamedZero(d: seq<byte>, i: nat, out: seq<Nalu>, nalu: Nalu, z: nat)
    requires StreamedTo(d, i, out, nalu, z) && i < |d| && d[i] == 0
    ensures StreamedTo(d, i + 1, out, nalu, z + 1)
  {
    ReadingMarker(d, i, AfterLast(Markers(d, i)), nalu, z);
    ReadZero(d, i, AfterLast(Markers(d, i)), nalu, z);
  }

  lemma StreamedMarker(d: seq<byte>, i: nat, out: seq<Nalu>, nalu: Nalu, z: nat)
    requires StreamedTo(d, i, out, nalu, z) && i < |d| && d[i] == 1 && z >= 2
    ensures StreamedTo(d, i + 1, out + NonEmpty(nalu), [], 0)
  {
    ReadingMarker(d, i, AfterLast(Markers(d, i)), nalu, z);
    MarkerPassed(d, i, Markers(d, i), out, nalu, z);
  }

  lemma MarkerPassed(d: seq<byte>, i: nat, ms: seq<nat>, out: seq<Nalu>, nalu: Nalu, z: nat)
    requires Delivered(d, ms, out) && Reading(d, i, AfterLast(ms), nalu, z) && i < |d| && d[i] == 1
    ensures Delivered(d, ms + [i], out + NonEmpty(nalu)) && Reading(d, i + 1, AfterLast(ms + [i]), [], 0)
  {
    ReadingStrip(d, i, AfterLast(ms), nalu, z);
    ReadMarker(d, i, ms, out, nalu);
  }

  lemma StreamedByte(d: seq<byte>, i: nat, out: seq<Nalu>, nalu: Nalu, z: nat)
    requires StreamedTo(d, i, out, nalu, z) && i < |d| && d[i] != 0 && !(d[i] == 1 && z >= 2)
    ensures StreamedTo(d, i + 1, out, nalu + Zeros(z) + [d[i]], 0)
  {
    ReadingMarker(d, i, AfterLast(Markers(d, i)), nalu, z);
    ReadByte(d, i, AfterLast(Markers(d, i)), nalu, z);
  }

  lemma StreamedEnd(d: seq<byte>, out: seq<Nalu>, nalu: Nalu, z: nat)
    requires StreamedTo(d, |d|, out, nalu, z)
    ensures out + NonEmpty(nalu + Zeros(z)) == Streamed(d)
  {
    var ms := Markers(d, |d|);
    ReadingAll(d, |d|, AfterLast(ms), nalu, z);
    ReadEnd(d, ms, out, nalu + Zeros(z));
  }

  /** Splits a byte stream as it arrives; the result is what the channel carries. */
  method StreamNALUs(d: seq<byte>) returns (out: seq<Nalu>)
    ensures out == Streamed(d)
  {
    out := [];
    var nalu: Nalu := [];
    var zeroCount: nat := 0;
    for i := 0 to |d|
      invariant StreamedTo(d, i, out, nalu, zeroCount)
    {
      var b := d[i];
      if b == 0 {
        StreamedZero(d, i, out, nalu, zeroCount);
        zeroCount := zeroCount + 1;
      } else if b == 1 && zeroCount >= 2 {
        StreamedMarker(d, i, out, nalu, zeroCount);
        if nalu != [] {
          out := out + [nalu];
          nalu := [];
        }
        zeroCount := 0;
      } else {
        StreamedByte(d, i, out, nalu, zeroCount);
        nalu := nalu + Zeros(zeroCount) + [b];
        zeroCount := 0;
      }
    }
    StreamedEnd(d, out, nalu, zeroCount);
    nalu := nalu + Zeros(zeroCount);
    if nalu != [] {
      out := out + [nalu];
    }
  }
}
