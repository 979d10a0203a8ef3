/**
 Laws of the two splitters and of the printer: on which byte strings the
 splitters agree, and which access units survive being written and parsed back.
 Both are exact conditions.
 */
module AnnexBLaws {
  import opened AnnexB

  // ---------------------------------------------------------------------
  // Lists of units
  // ---------------------------------------------------------------------

  function StripAll(us: seq<Nalu>): (r: seq<Nalu>)
    ensures |r| == |us|
    ensures forall k :: 0 <= k < |us| ==> r[k] == Strip(us[k])
  {
    seq(|us|, k requires 0 <= k < |us| => Strip(us[k]))
  }

  /** The nonempty ones of the first k units once stripped. */
  function Stripped(us: seq<Nalu>, k: nat): seq<Nalu>
    requires k <= |us|
  {
    if k == 0 then [] else Stripped(us, k - 1) + NonEmpty(Strip(us[k - 1]))
  }

  /** Batch-parsed units as the streaming splitter would give them: it only keeps the zeros before the end of the input. */
  function Tidy(us: seq<Nalu>, stripLast: bool): seq<Nalu> {
    var n := |us|;
    if n == 0 || stripLast then Stripped(us, n) else Stripped(us, n - 1) + NonEmpty(us[n - 1])
  }

  lemma Assoc<T>(a: seq<T>, b: seq<T>, c: seq<T>)
    ensures a + (b + c) == (a + b) + c
  {
  }

  lemma {:induction false} KeptOfCons(u: Nalu, us: seq<Nalu>, k: nat)
    requires k <= |us|
    ensures Kept([u] + us, k + 1) == NonEmpty(u) + Kept(us, k)
  {
    if k == 0 {
      assert Kept([u] + us, 1) == Kept([u] + us, 0) + NonEmpty(u);
      assert [] + NonEmpty(u) == NonEmpty(u) == NonEmpty(u) + [];
    } else {
      KeptOfCons(u, us, k - 1);
      assert ([u] + us)[k] == us[k - 1];
      Assoc(NonEmpty(u), Kept(us, k - 1), NonEmpty(us[k - 1]));
    }
  }

  lemma {:induction false} StrippedOfPrefix(us: seq<Nalu>, vs: seq<Nalu>, k: nat)
    requires k <= |us| && k <= |vs| && forall j :: 0 <= j < k ==> us[j] == vs[j]
    ensures Stripped(us, k) == Stripped(vs, k)
  {
    if k > 0 {
      StrippedOfPrefix(us, vs, k - 1);
    }
  }

  lemma {:induction false} KeptOfStripped(us: seq<Nalu>, k: nat)
    requires k <= |us|
    ensures Kept(StripAll(us), k) == Stripped(us, k)
  {
    if k > 0 {
      KeptOfStripped(us, k - 1);
    }
  }

  lemma StrippedSnoc(us: seq<Nalu>, u: Nalu)
    ensures Stripped(us + [u], |us| + 1) == Stripped(us, |us|) + NonEmpty(Strip(u))
  {
    StrippedOfPrefix(us + [u], us, |us|);
  }

  function AllStripped(us: seq<Nalu>): seq<Nalu> {
    Stripped(us, |us|)
  }

  lemma StripOne(kept: seq<Nalu>, u: Nalu)
    ensures AllStripped(kept + NonEmpty(u)) == AllStripped(kept) + NonEmpty(Strip(u))
  {
    if u == [] {
      assert kept + NonEmpty(u) == kept;
      assert AllStripped(kept) + NonEmpty(Strip(u)) == AllStripped(kept);
    } else {
      StrippedSnoc(kept, u);
    }
  }

  /** Empties may be dropped before stripping. */
  lemma {:induction false} StripAfterDrop(us: seq<Nalu>, k: nat)
    requires k <= |us|
    ensures AllStripped(Kept(us, k)) == Stripped(us, k)
  {
    if k > 0 {
      calc {
        AllStripped(Kept(us, k));
        AllStripped(Kept(us, k - 1) + NonEmpty(us[k - 1]));
        { StripOne(Kept(us, k - 1), us[k - 1]); }
        AllStripped(Kept(us, k - 1)) + NonEmpty(Strip(us[k - 1]));
        { StripAfterDrop(us, k - 1); }
        Stripped(us, k);
      }
    }
  }

  lemma TidyOfRaw(init: seq<Nalu>, u: Nalu)
    ensures Tidy(DropEmpty(init + [u]), u == []) == DropEmpty(StripAll(init) + [u])
  {
    var kept := DropEmpty(init);
    StripAfterDrop(init, |init|);
    KeptOfStripped(init, |init|);
    DropEmptySnoc(init, u);
    NonEmptyAppend(kept, u);
    DropEmptySnoc(StripAll(init), u);
    NonEmptyAppend(Stripped(kept, |kept|), u);
    StrippedOfPrefix(kept + [u], kept, |kept|);
  }

  lemma {:induction false} KeptIsSubset(us: seq<Nalu>, k: nat)
    requires k <= |us|
    ensures forall u :: u in Kept(us, k) ==> u in us && u != []
  {
    if k > 0 {
      KeptIsSubset(us, k - 1);
    }
  }

  lemma {:induction false} StripZeros(d: seq<byte>, a: nat, b: nat, c: nat)
    requires a <= b <= c <= |d| && forall j :: b <= j < c ==> d[j] == 0
    ensures Strip(d[a..c]) == Strip(d[a..b])
  {
    StripLengthTail(d[a..c], b - a, c - a);
    StripLengthPrefix(d[a..c], d[a..b], b - a);
    assert d[a..c][..b - a] == d[a..b];
  }

  lemma {:induction false} StripLengthTail(u: Nalu, m: nat, n: nat)
    requires m <= n <= |u| && forall j :: m <= j < n ==> u[j] == 0
    ensures StripLength(u, n) == StripLength(u, m)
  {
    if m < n {
      StripLengthTail(u, m, n - 1);
    }
  }

  lemma {:induction false} StripLengthPrefix(u: Nalu, v: Nalu, n: nat)
    requires n <= |u| && n <= |v| && forall j :: 0 <= j < n ==> u[j] == v[j]
    ensures StripLength(u, n) == StripLength(v, n)
  {
    if n > 0 {
      StripLengthPrefix(u, v, n - 1);
    }
  }

  lemma {:induction false} StripLengthZero(u: Nalu, n: nat)
    requires n <= |u|
    ensures StripLength(u, n) == 0 <==> forall j :: 0 <= j < n ==> u[j] == 0
  {
    if n > 0 && u[n - 1] == 0 {
      StripLengthZero(u, n - 1);
    }
  }

  // ---------------------------------------------------------------------
  // The streaming splitter against the batch parser
  // ---------------------------------------------------------------------

  /** What precedes marker k + 1 is unit k and the start code. */
  lemma CutIsUnit(d: seq<byte>, ms: seq<nat>, k: nat)
    requires Rising(d, ms) && k + 1 < |ms|
    ensures CutBefore(d, ms, k + 1) == Strip(UnitsBetween(d, ms)[k])
  {
    var a, b, c := ms[k] + 1, CodeStart(d, ms[k + 1]), ms[k + 1];
    assert b == UnitEnd(d, ms, k);
    assert a <= b <= c && forall j :: b <= j < c ==> d[j] == 0;
    StripZeros(d, a, b, c);
    assert Piece(d, a, c) == d[a..c] && UnitsBetween(d, ms)[k] == d[a..b];
  }

  /** The streaming splitter's units, empties included, in terms of the batch parser's. */
  lemma StreamUnitsAre(d: seq<byte>, ms: seq<nat>)
    requires Rising(d, ms) && ms != []
    ensures var us, n := UnitsBetween(d, ms), |ms| - 1;
      StreamUnits(d, ms) == [CutBefore(d, ms, 0)] + (StripAll(us[..n]) + [us[n]])
  {
    var us, n := UnitsBetween(d, ms), |ms| - 1;
    LastUnit(d, ms);
    CutsAre(d, ms);
    assert [CutBefore(d, ms, 0)] + StripAll(us[..n]) == Cuts(d, ms);
    Assoc([CutBefore(d, ms, 0)], StripAll(us[..n]), [us[n]]);
  }

  lemma CutsAre(d: seq<byte>, ms: seq<nat>)
    requires Rising(d, ms) && ms != []
    ensures Cuts(d, ms) == [CutBefore(d, ms, 0)] + StripAll(UnitsBetween(d, ms)[..|ms| - 1])
  {
    var cuts, rest := Cuts(d, ms), StripAll(UnitsBetween(d, ms)[..|ms| - 1]);
    forall j | 0 <= j < |rest|
      ensures cuts[j + 1] == rest[j]
    {
      CutIsUnit(d, ms, j);
    }
    FirstThenRest(cuts, rest);
  }

  lemma FirstThenRest(us: seq<Nalu>, rest: seq<Nalu>)
    requires |us| == |rest| + 1 && forall j :: 0 <= j < |rest| ==> us[j + 1] == rest[j]
    ensures us == [us[0]] + rest
  {
    assert us[1..] == rest;
  }

  lemma LastUnit(d: seq<byte>, ms: seq<nat>)
    requires Rising(d, ms) && ms != []
    ensures UnitsBetween(d, ms)[|ms| - 1] == Piece(d, AfterLast(ms), |d|)
  {
    assert UnitEnd(d, ms, |ms| - 1) == |d|;
  }

  /** The last unit is empty exactly when the input ends in a start code. */
  lemma LastUnitEmpty(d: seq<byte>, ms: seq<nat>)
    requires Lists(d, |d|, ms) && Rising(d, ms) && ms != []
    ensures UnitsBetween(d, ms)[|ms| - 1] == [] <==> Marker(d, |d| - 1)
  {
    var n := |ms| - 1;
    assert UnitEnd(d, ms, n) == |d|;
    assert forall j :: 0 <= j < |ms| ==> ms[j] <= ms[n];
    assert Marker(d, |d| - 1) ==> |d| - 1 in ms;
  }

  /** When the batch parser sees every start code, the streaming splitter differs by the leading bytes alone. */
  lemma StreamedIsTidied(d: seq<byte>)
    requires !EndsShort(d) && Markers(d, |d|) != []
    ensures Streamed(d) == NonEmpty(Strip(Piece(d, 0, Markers(d, |d|)[0]))) + Tidy(Parsed(d), Marker(d, |d| - 1))
  {
    var ms := Markers(d, |d|);
    MarkersList(d, |d|);
    var us, n := UnitsBetween(d, ms), |ms| - 1;
    var lead := CutBefore(d, ms, 0);
    calc {
      Streamed(d);
      DropEmpty(StreamUnits(d, ms));
      { StreamUnitsAre(d, ms); }
      DropEmpty([lead] + (StripAll(us[..n]) + [us[n]]));
      { TidiedRaw(lead, us); }
      NonEmpty(lead) + Tidy(DropEmpty(us), us[n] == []);
      { LastUnitEmpty(d, ms); }
      NonEmpty(lead) + Tidy(DropEmpty(us), Marker(d, |d| - 1));
    }
    assert Searched(d) == |d|;
    assert RawUnits(d) == us;
  }

  lemma TidiedRaw(lead: Nalu, us: seq<Nalu>)
    requires us != []
    ensures var n := |us| - 1;
      DropEmpty([lead] + (StripAll(us[..n]) + [us[n]])) == NonEmpty(lead) + Tidy(DropEmpty(us), us[n] == [])
  {
    var init, last := us[..|us| - 1], us[|us| - 1];
    assert us == init + [last];
    var rest := StripAll(init) + [last];
    TidyOfRaw(init, last);
    KeptOfCons(lead, rest, |rest|);
  }

  /** The exact inputs on which the two splitters agree. */
  predicate SplittersAgreeOn(d: seq<byte>) {
    || d == []
    || d == [0, 0, 1]
    || (&& Markers(d, |d|) != []
        && !EndsShort(d)
        && forall j :: 0 <= j < Markers(d, |d|)[0] && j < |d| ==> d[j] == 0)
  }

  lemma NoneInside(d: seq<byte>, ms: seq<nat>, k: nat, q: nat)
    requires Lists(d, |d|, ms) && k < |ms| && Begin(ms, k) <= q < ms[k]
    ensures !Marker(d, q)
  {
    assert forall j :: 0 <= j < k ==> ms[j] <= ms[k - 1];
    assert forall j :: k <= j < |ms| ==> ms[k] <= ms[j];
    assert q !in ms;
  }

  lemma CutIsMarkerFree(d: seq<byte>, ms: seq<nat>, k: nat)
    requires Lists(d, |d|, ms) && k < |ms|
    ensures MarkerFree(Strip(Piece(d, Begin(ms, k), ms[k])))
  {
    var a := Begin(ms, k);
    var cut := Strip(Piece(d, a, ms[k]));
    forall p | 2 <= p < |cut|
      ensures !Marker(cut, p)
    {
      NoneInside(d, ms, k, a + p);
    }
  }

  lemma MissedCode(d: seq<byte>, ps: seq<nat>)
    requires EndsShort(d) && ps != [] && Rising(d, ps) && ps[|ps| - 1] < |d| - 1
    ensures var u := UnitsBetween(d, ps)[|ps| - 1];
      u != [] && Strip(u) == u && !MarkerFree(u)
  {
    var a := ps[|ps| - 1] + 1;
    var u := UnitsBetween(d, ps)[|ps| - 1];
    assert UnitEnd(d, ps, |ps| - 1) == |d|;
    assert u == d[a..|d|];
    MarkersApart(d, a - 1, |d| - 1);
    MarkerInTail(d, a);
    assert u[..|u|] == u;
  }

  lemma MarkersApart(d: seq<byte>, p: nat, q: nat)
    requires Marker(d, p) && Marker(d, q) && p < q
    ensures p + 3 <= q
  {
  }

  lemma MarkerInTail(d: seq<byte>, a: nat)
    requires Marker(d, |d| - 1) && a <= |d| - 3
    ensures Marker(d[a..|d|], |d| - a - 1)
  {
  }

  /** A start code the batch parser misses stays inside its last unit. */
  lemma MissedCodeStays(d: seq<byte>) returns (u: Nalu)
    requires EndsShort(d) && Markers(d, |d| - 1) != []
    ensures u in Tidy(Parsed(d), true) && !MarkerFree(u)
  {
    var ps := Markers(d, |d| - 1);
    RisingMarkers(d, |d| - 1);
    MissedCode(d, ps);
    var us := UnitsBetween(d, ps);
    TidyKeepsLast(us);
    assert Searched(d) == |d| - 1;
    assert RawUnits(d) == us;
    u := us[|us| - 1];
  }

  lemma RisingMarkers(d: seq<byte>, n: nat)
    requires n <= |d|
    ensures Rising(d, Markers(d, n)) && forall k :: 0 <= k < |Markers(d, n)| ==> Markers(d, n)[k] < n
  {
    MarkersList(d, n);
  }

  lemma TidyKeepsLast(us: seq<Nalu>)
    requires us != [] && us[|us| - 1] != [] && Strip(us[|us| - 1]) == us[|us| - 1]
    ensures us[|us| - 1] in Tidy(DropEmpty(us), true)
  {
    StripAfterDrop(us, |us|);
    assert us[|us| - 1] in Stripped(us, |us|);
  }

  lemma StreamedIsMarkerFree(d: seq<byte>)
    requires Marker(d, |d| - 1)
    ensures forall u :: u in Streamed(d) ==> MarkerFree(u)
  {
    var ms := Markers(d, |d|);
    MarkersList(d, |d|);
    var all := StreamUnits(d, ms);
    assert AfterLast(ms) == |d|;
    forall j | 0 <= j < |ms|
      ensures MarkerFree(all[j])
    {
      CutIsMarkerFree(d, ms, j);
    }
    KeptIsSubset(all, |all|);
  }

  lemma OnlyShort(d: seq<byte>)
    requires EndsShort(d) && Markers(d, |d| - 1) == []
    ensures Parsed(d) == []
    ensures Streamed(d) == [] <==> d == [0, 0, 1]
  {
    NothingParsed(d);
    StreamedLead(d, |d| - 1);
    ZerosBefore(d, |d| - 1);
    ShortestCode(d);
  }

  lemma NothingParsed(d: seq<byte>)
    requires Markers(d, Searched(d)) == []
    ensures Parsed(d) == []
  {
    assert RawUnits(d) == [];
  }

  lemma StreamedLead(d: seq<byte>, n: nat)
    requires n + 1 == |d| && Markers(d, n) == [] && Marker(d, n)
    ensures Streamed(d) == [] <==> Strip(Piece(d, 0, n)) == []
  {
    assert Markers(d, |d|) == [n];
    OneMarker(d, n);
    LeadOnly(Strip(Piece(d, 0, n)));
  }

  lemma ShortestCode(d: seq<byte>)
    requires EndsShort(d)
    ensures d == [0, 0, 1] <==> forall j :: 0 <= j < |d| - 1 ==> d[j] == 0
  {
    assert |d| > 3 ==> d[|d| - 4] != 0;
  }

  lemma OneMarker(d: seq<byte>, n: nat)
    requires n + 1 == |d|
    ensures StreamUnits(d, [n]) == [Strip(Piece(d, 0, n))] + [[]]
  {
    assert Begin([n], 0) == 0;
    assert Cuts(d, [n]) == [CutBefore(d, [n], 0)] == [Strip(Piece(d, 0, n))];
    assert AfterLast([n]) == |d| && Piece(d, |d|, |d|) == [];
  }

  lemma LeadOnly(u: Nalu)
    ensures DropEmpty([u] + [[]]) == [] <==> u == []
  {
    KeptOfCons(u, [[]], 1);
    assert Kept([[]], 1) == Kept([[]], 0) + [];
  }

  lemma NothingBefore(u: Nalu, us: seq<Nalu>)
    ensures NonEmpty(u) + us == us <==> u == []
  {
    if u == [] {
      assert NonEmpty(u) + us == us;
    } else {
      assert |NonEmpty(u) + us| == |us| + 1;
    }
  }

  /** For every byte string: the two splitters give the same units exactly when the condition holds. */
  lemma SplittersAgree(d: seq<byte>)
    ensures Streamed(d) == Tidy(Parsed(d), Marker(d, |d| - 1)) <==> SplittersAgreeOn(d)
  {
    assert Tidy([], true) == Tidy([], false) == [];
    assert d == [0, 0, 1] ==> EndsShort(d) && Markers(d, |d| - 1) == [] by {
      NoMarkerBetween([0, 0, 1], 0, 2);
    }
    if Markers(d, |d|) == [] {
      NoMarkerAtAll(d);
    } else if !EndsShort(d) {
      StreamedIsTidied(d);
      LeadingZeros(d);
      NothingBefore(Strip(Piece(d, 0, Markers(d, |d|)[0])), Tidy(Parsed(d), Marker(d, |d| - 1)));
    } else if Markers(d, |d| - 1) == [] {
      OnlyShort(d);
    } else {
      var u := MissedCodeStays(d);
      StreamedIsMarkerFree(d);
    }
  }

  lemma NoMarkerAtAll(d: seq<byte>)
    requires Markers(d, |d|) == []
    ensures !EndsShort(d) && Parsed(d) == [] && (Streamed(d) == [] <==> d == [])
  {
    MarkersList(d, |d|);
    assert Piece(d, 0, |d|) == d;
    assert StreamUnits(d, []) == [d];
    assert Kept([d], 1) == Kept([d], 0) + NonEmpty(d);
  }

  lemma LeadingZeros(d: seq<byte>)
    requires Markers(d, |d|) != []
    ensures Strip(Piece(d, 0, Markers(d, |d|)[0])) == []
            <==> forall j :: 0 <= j < Markers(d, |d|)[0] && j < |d| ==> d[j] == 0
  {
    MarkersList(d, |d|);
    ZerosBefore(d, Markers(d, |d|)[0]);
  }

  lemma ZerosBefore(d: seq<byte>, m: nat)
    requires m <= |d|
    ensures Strip(Piece(d, 0, m)) == [] <==> forall j :: 0 <= j < m && j < |d| ==> d[j] == 0
  {
    StripLengthZero(d[0..m], m);
    assert forall j :: 0 <= j < m ==> d[0..m][j] == d[j];
  }

  // ---------------------------------------------------------------------
  // Printing and parsing back
  // ---------------------------------------------------------------------

  const START: seq<byte> := [0, 0, 0, 1]

  /** The first k units, each after a four-byte start code. */
  function Written(au: seq<Nalu>, k: nat): seq<byte>
    requires k <= |au|
  {
    if k == 0 then [] else Written(au, k - 1) + START + au[k - 1]
  }

  function Serialise(au: seq<Nalu>): seq<byte> {
    Written(au, |au|)
  }

  /** Where the 01 byte before unit k is. */
  function Mark(au: seq<Nalu>, k: nat): nat
    requires k <= |au|
  {
    |Written(au, k)| + 3
  }

  function Marks(au: seq<Nalu>, k: nat): (ms: seq<nat>)
    requires k <= |au|
    ensures |ms| == k && forall j :: 0 <= j < k ==> ms[j] == Mark(au, j)
  {
    seq(k, j requires 0 <= j < k => Mark(au, j))
  }

  /** Every marker of u is a start code in its last three bytes. */
  predicate MarkerFreeButEnd(u: Nalu) {
    forall p :: 2 <= p < |u| && Marker(u, p) ==> p == |u| - 1 && EndsShort(u)
  }

  /** Nonempty units free of start codes; the last one may end in one that the parser does not see. */
  predicate Survives(au: seq<Nalu>) {
    forall k :: 0 <= k < |au| ==>
      au[k] != [] && if k + 1 < |au| then MarkerFree(au[k]) else MarkerFreeButEnd(au[k])
  }

  lemma {:induction false} MarkersOfPrefix(d: seq<byte>, e: seq<byte>, n: nat)
    requires n <= |d| && d <= e
    ensures Markers(e, n) == Markers(d, n)
  {
    if n > 0 {
      MarkersOfPrefix(d, e, n - 1);
      assert Marker(e, n - 1) <==> Marker(d, n - 1);
    }
  }

  /** Appending a start code adds one marker; appending a unit then adds the unit's own. */
  lemma AppendedMarkers(d: seq<byte>, u: Nalu, q: nat)
    requires |d| <= q < |d| + 4 + |u|
    ensures Marker(d + START + u, q) <==> q == |d| + 3 || (q >= |d| + 4 && Marker(u, q - |d| - 4))
  {
    var e := d + START + u;
    assert e[|d|] == 0 && e[|d| + 1] == 0 && e[|d| + 2] == 0 && e[|d| + 3] == 1;
    assert forall j :: 0 <= j < |u| ==> e[|d| + 4 + j] == u[j];
  }

  lemma AppendUnit(d: seq<byte>, u: Nalu, n: nat)
    requires |d| + 4 <= n <= |d| + 4 + |u|
    requires forall p :: 2 <= p < n - |d| - 4 ==> !Marker(u, p)
    ensures Markers(d + START + u, n) == Markers(d, |d|) + [|d| + 3]
  {
    var e := d + START + u;
    forall q | |d| <= q < n
      ensures Marker(e, q) <==> q == |d| + 3
    {
      AppendedMarkers(d, u, q);
    }
    MarkersOfPrefix(d, e, |d|);
    NoMarkerBetween(e, |d|, |d| + 3);
    assert Markers(e, |d| + 4) == Markers(e, |d| + 3) + [|d| + 3];
    NoMarkerBetween(e, |d| + 4, n);
  }

  lemma {:induction false} WrittenMarkers(au: seq<Nalu>, k: nat)
    requires k <= |au| && forall j :: 0 <= j < k ==> MarkerFree(au[j])
    ensures Markers(Written(au, k), |Written(au, k)|) == Marks(au, k)
  {
    if k > 0 {
      WrittenMarkers(au, k - 1);
      var d, u := Written(au, k - 1), au[k - 1];
      AppendUnit(d, u, |d| + 4 + |u|);
      assert Marks(au, k) == Marks(au, k - 1) + [|d| + 3];
    }
  }

  /** The last four bytes of a unit after a start code: what is before a three-byte unit is not zero. */
  lemma EndsShortAfter(d: seq<byte>, u: Nalu)
    requires u != []
    ensures EndsShort(d + START + u) <==> EndsShort(u)
  {
    var e := d + START + u;
    AppendedMarkers(d, u, |e| - 1);
    assert e[|d| + 3] == 1;
    assert |u| >= 4 ==> e[|e| - 4] == u[|u| - 4];
  }

  lemma SearchedAfter(d: seq<byte>, u: Nalu)
    requires u != []
    ensures var n := Searched(d + START + u);
      n == |d| + 4 + |u| - (if EndsShort(u) then 1 else 0)
  {
    EndsShortAfter(d, u);
  }

  /** The parser finds exactly the start codes that were written. */
  lemma SerialisedMarkers(au: seq<Nalu>)
    requires Survives(au)
    ensures Markers(Serialise(au), Searched(Serialise(au))) == Marks(au, |au|)
  {
    if au != [] {
      var k := |au| - 1;
      var d, u := Written(au, k), au[k];
      WrittenMarkers(au, k);
      SearchedAfter(d, u);
      AppendUnit(d, u, Searched(d + START + u));
      assert Marks(au, |au|) == Marks(au, k) + [|d| + 3];
    }
  }

  /** At a: a four-byte start code, then u. */
  predicate Stands(d: seq<byte>, a: nat, u: Nalu) {
    a + 4 + |u| <= |d| && d[a] == 0 && d[a + 3] == 1 && d[a + 4..a + 4 + |u|] == u
  }

  lemma StandsAfter(d: seq<byte>, v: Nalu, a: nat, u: Nalu)
    requires Stands(d, a, u)
    ensures Stands(d + START + v, a, u)
  {
    assert (d + START + v)[a + 4..a + 4 + |u|] == d[a + 4..a + 4 + |u|];
  }

  lemma StandsLast(d: seq<byte>, u: Nalu)
    ensures Stands(d + START + u, |d|, u)
  {
    assert (d + START + u)[|d| + 4..] == u;
  }

  /** Unit j of the k written ones, where it stands in the output. */
  lemma {:induction false} WrittenAt(au: seq<Nalu>, k: nat, j: nat)
    requires j < k <= |au|
    ensures |Written(au, j + 1)| == |Written(au, j)| + 4 + |au[j]|
    ensures Stands(Written(au, k), |Written(au, j)|, au[j])
  {
    if j < k - 1 {
      WrittenAt(au, k - 1, j);
      StandsAfter(Written(au, k - 1), au[k - 1], |Written(au, j)|, au[j]);
    } else {
      StandsLast(Written(au, j), au[j]);
    }
  }

  lemma SerialisedEnd(au: seq<Nalu>, k: nat)
    requires k < |au| && Rising(Serialise(au), Marks(au, |au|))
    ensures UnitEnd(Serialise(au), Marks(au, |au|), k) == |Written(au, k + 1)|
  {
    if k + 1 < |au| {
      WrittenAt(au, |au|, k + 1);
    }
  }

  lemma SerialisedUnit(au: seq<Nalu>, k: nat)
    requires k < |au| && Rising(Serialise(au), Marks(au, |au|))
    ensures UnitsBetween(Serialise(au), Marks(au, |au|))[k] == au[k]
  {
    WrittenAt(au, |au|, k);
    SerialisedEnd(au, k);
  }

  lemma {:induction false} NothingDropped(us: seq<Nalu>, k: nat)
    requires k <= |us| && forall j :: 0 <= j < k ==> us[j] != []
    ensures Kept(us, k) == us[..k]
  {
    if k > 0 {
      NothingDropped(us, k - 1);
    }
  }

  lemma SerialisedParses(au: seq<Nalu>)
    requires Survives(au)
    ensures Parsed(Serialise(au)) == au
  {
    var d := Serialise(au);
    SerialisedMarkers(au);
    MarkersList(d, Searched(d));
    forall k | 0 <= k < |au|
      ensures UnitsBetween(d, Marks(au, |au|))[k] == au[k]
    {
      SerialisedUnit(au, k);
    }
    assert RawUnits(d) == au;
    NothingDropped(au, |au|);
  }

  // What comes out of the parser survives, so nothing else can come back unchanged.

  /** What lies between neighbours in the list of markers is no marker, or beyond it. */
  lemma NotListed(d: seq<byte>, n: nat, ps: seq<nat>, k: nat, q: nat)
    requires Lists(d, n, ps) && k < |ps| && Marker(d, q)
    requires ps[k] < q && (k + 1 < |ps| ==> q < ps[k + 1])
    ensures q >= n
  {
    assert forall j :: 0 <= j <= k ==> ps[j] <= ps[k];
    assert forall j :: k < j < |ps| ==> q < ps[j];
  }

  lemma RawUnitIsClean(d: seq<byte>, k: nat)
    requires k < |RawUnits(d)|
    ensures var u := RawUnits(d)[k];
      if k + 1 < |RawUnits(d)| then MarkerFree(u) else MarkerFreeButEnd(u)
  {
    var ps := Markers(d, Searched(d));
    MarkersList(d, Searched(d));
    var a, u := ps[k] + 1, RawUnits(d)[k];
    forall p | 2 <= p < |u| && Marker(u, p)
      ensures k + 1 == |ps| && p == |u| - 1 && EndsShort(u)
    {
      assert Marker(d, a + p);
      NotListed(d, Searched(d), ps, k, a + p);
    }
  }

  lemma {:induction false} KeptSurvive(us: seq<Nalu>, k: nat)
    requires k <= |us| && forall j :: 0 <= j < |us| && j + 1 < |us| ==> MarkerFree(us[j])
    requires us != [] ==> MarkerFreeButEnd(us[|us| - 1])
    ensures forall u :: u in Kept(us, k) && k < |us| ==> MarkerFree(u)
    ensures Survives(Kept(us, k))
  {
    if k > 0 {
      KeptSurvive(us, k - 1);
    }
  }

  /** Writing and parsing back gives the same units exactly for the lists that survive. */
  lemma RoundTrip(au: seq<Nalu>)
    ensures Parsed(Serialise(au)) == au <==> Survives(au)
  {
    if Survives(au) {
      SerialisedParses(au);
    }
    var us := RawUnits(Serialise(au));
    forall j | 0 <= j < |us|
      ensures if j + 1 < |us| then MarkerFree(us[j]) else MarkerFreeButEnd(us[j])
    {
      RawUnitIsClean(Serialise(au), j);
    }
    KeptSurvive(us, |us|);
  }
}
