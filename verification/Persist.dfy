/**
 The on-disk copy of the last camera keyframe: what is written, what is read
 back, and the laws that tie the two together.
 */
module Persist {
  import opened Wrappers
  import opened AnnexB
  import opened AnnexBLaws
  import opened AccessUnit
  import opened AccessUnitLaws

  const PERSIST_EVERY := 60  // seconds between two saves

  datatype Saved = Saved(codec: Codec, sets: Sets, au: AU)

  /** The file contents as a keyframe of codec c with all its parameter sets, if they are one. */
  function ReadBack(c: Codec, data: seq<byte>): Option<Saved> {
    var au := Parsed(data);
    if HasKey(c, au) && Complete(c, SetsOf(c, au)) then Some(Saved(c, SetsOf(c, au), au)) else None
  }

  function ReadFile(wanted: Option<Codec>, files: map<Codec, seq<byte>>, c: Codec): Option<Saved> {
    if (wanted.Some? && wanted.value != c) || c !in files then None else ReadBack(c, files[c])
  }

  /** The H.264 file shadows the H.265 one; a codec set in the configuration shadows both. */
  function Restored(wanted: Option<Codec>, files: map<Codec, seq<byte>>): Option<Saved> {
    var r := ReadFile(wanted, files, H264);
    if r.Some? then r else ReadFile(wanted, files, H265)
  }

  predicate Readable(files: map<Codec, seq<byte>>, c: Codec) {
    c in files && ReadBack(c, files[c]).Some?
  }

  /** A configured codec decides alone; otherwise the H.264 file wins when both are readable. */
  lemma WhichFileWins(wanted: Option<Codec>, files: map<Codec, seq<byte>>)
    ensures var r := Restored(wanted, files);
      && (r.Some? <==> exists c :: Readable(files, c) && wanted in {None, Some(c)})
      && (r.Some? ==> Readable(files, r.value.codec) && r == ReadBack(r.value.codec, files[r.value.codec]))
      && (r.Some? && wanted.Some? ==> r.value.codec == wanted.value)
      && (wanted.None? && Readable(files, H264) ==> r.value.codec == H264)
  {
    assert ReadFile(wanted, files, H264).Some? <==> Readable(files, H264) && wanted in {None, Some(H264)};
    assert ReadFile(wanted, files, H265).Some? <==> Readable(files, H265) && wanted in {None, Some(H265)};
    if exists c :: Readable(files, c) && wanted in {None, Some(c)} {
      var c :| Readable(files, c) && wanted in {None, Some(c)};
      assert c == H264 || c == H265;
    }
  }

  method RestoreKeyframe(wanted: Option<Codec>, files: map<Codec, seq<byte>>) returns (r: Option<Saved>)
    ensures r == Restored(wanted, files)
  {
    var codecs := [H264, H265];
    for i := 0 to |codecs|
      invariant forall j :: 0 <= j < i ==> ReadFile(wanted, files, codecs[j]) == None
    {
      var codec := codecs[i];
      if wanted.Some? && wanted.value != codec {
        continue;
      }
      if codec !in files {
        continue;
      }
      var au := ParseAnnexB(files[codec]);
      var key := IsKeyframeAU(au, codec);
      if !key {
        continue;
      }
      var s := ParamSets(au, codec);
      if s.sps.None? || s.pps.None? || (codec.H265? && s.vps.None?) {
        continue;
      }
      assert i == 1 ==> ReadFile(wanted, files, codecs[0]) == None;
      return Some(Saved(codec, s, au));
    }
    assert ReadFile(wanted, files, codecs[0]) == ReadFile(wanted, files, codecs[1]) == None;
    return None;
  }

  /** The stored keyframe and the rate limit of its saves. `started` lists when saves were started. */
  class KeyframeStore {
    const enabled: bool
    var lastWrite: int
    var lastCameraAU: AU
    var liveKeyframe: bool
    ghost var started: seq<int>

    ghost predicate Valid()
      reads this
    {
      && (started != [] ==> lastWrite == started[|started| - 1])
      && forall i, j :: 0 <= i < j < |started| ==> started[j] - started[i] >= PERSIST_EVERY
    }

    constructor (enabled: bool, restored: AU)
      ensures Valid() && started == [] && lastCameraAU == restored && !liveKeyframe
    {
      this.enabled, lastWrite, lastCameraAU, liveKeyframe, started := enabled, 0, restored, false, [];
    }

    /** Keyframes replace the stored one; a save of it starts unless one was started less than 60 s ago. */
    method StoreLastCameraKeyframe(au: AU, c: Codec, now: int) returns (job: Option<seq<byte>>)
      requires Valid()
      modifies this
      ensures Valid()
      ensures lastCameraAU == (if HasKey(c, au) then au else old(lastCameraAU))
      ensures liveKeyframe == (HasKey(c, au) || old(liveKeyframe))
      ensures job.Some? <==> HasKey(c, au) && enabled && now - old(lastWrite) >= PERSIST_EVERY
      ensures job.Some? ==> job.value == Serialise(au) && started == old(started) + [now]
      ensures job.None? ==> started == old(started) && lastWrite == old(lastWrite)
    {
      job := None;
      var key := IsKeyframeAU(au, c);
      if key {
        lastCameraAU := au;
        liveKeyframe := true;
        job := SaveKeyframe(au, now);
      }
    }

    method SaveKeyframe(au: AU, now: int) returns (job: Option<seq<byte>>)
      requires Valid()
      modifies this`lastWrite, this`started
      ensures Valid()
      ensures job.Some? <==> enabled && now - old(lastWrite) >= PERSIST_EVERY
      ensures job.Some? ==> job.value == Serialise(au) && started == old(started) + [now]
      ensures job.None? ==> started == old(started) && lastWrite == old(lastWrite)
    {
      if !enabled || now - lastWrite < PERSIST_EVERY {
        return None;
      }
      lastWrite := now;
      started := started + [now];
      var buf: seq<byte> := [];
      for i := 0 to |au|
        invariant buf == Written(au, i)
      {
        buf := buf + START;
        buf := buf + au[i];
      }
      return Some(buf);
    }
  }

  // ---------------------------------------------------------------------
  // Saving and restoring undo each other
  // ---------------------------------------------------------------------

  /** Nonempty units without a start code inside (ITU-T H.264, section 7.4.1). */
  predicate Clean(au: AU) {
    forall k :: 0 <= k < |au| ==> au[k] != [] && MarkerFree(au[k])
  }

  predicate CleanSets(s: Sets) {
    forall r: Role :: s.Get(r).Some? ==> MarkerFree(s.Get(r).value)
  }

  lemma ReadBackOfSerialised(c: Codec, au: AU)
    requires Clean(au)
    ensures ReadBack(c, Serialise(au))
         == if HasKey(c, au) && Complete(c, SetsOf(c, au)) then Some(Saved(c, SetsOf(c, au), au)) else None
  {
    SerialisedParses(au);
  }

  lemma AdmittedUnits(c: Codec, s: Relay, au: AU, needKey: bool)
    requires Admitted(c, s, au, needKey).Some?
    ensures var f := Admitted(c, s, au, needKey).value;
      forall i :: 0 <= i < |f| ==> Sized(c, f[i]) && f[i] in au
  {
    SelectPasses(Whitelisted(c), au, |au|);
    assert au[..|au|] == au;
  }

  predicate CleanArrivals(xs: seq<Arrival>) {
    forall k, i :: 0 <= k < |xs| && 0 <= i < |xs[k].au| ==> MarkerFree(xs[k].au[i])
  }

  lemma {:induction false} TrackedStaysClean(c: Codec, s: Sets, au: AU)
    requires CleanSets(s) && forall i :: 0 <= i < |au| ==> MarkerFree(au[i])
    ensures CleanSets(Tracked(c, s, au))
  {
    forall r: Role
      ensures Tracked(c, s, au).Get(r) == OrElse(LastSet(c, r, au, |au|), s.Get(r))
      ensures LastSet(c, r, au, |au|).Some? ==> MarkerFree(LastSet(c, r, au, |au|).value)
    {
      LastSetIsSet(c, r, au, |au|);
    }
  }

  lemma FrameSets(c: Codec, s: Relay, x: Arrival)
    requires WellTyped(c, s.sets) && CleanSets(s.sets) && forall i :: 0 <= i < |x.au| ==> MarkerFree(x.au[i])
    ensures var s' := AfterFrame(c, s, x.au, x.needKey).sets; WellTyped(c, s') && CleanSets(s')
  {
    var f := Admitted(c, s, x.au, x.needKey);
    if f.Some? {
      AdmittedUnits(c, s, x.au, x.needKey);
      TrackedStaysTyped(c, s.sets, f.value);
      TrackedStaysClean(c, s.sets, f.value);
    }
  }

  lemma {:induction false} SessionSets(c: Codec, s: Relay, xs: seq<Arrival>, k: nat)
    requires k <= |xs| && WellTyped(c, s.sets) && CleanSets(s.sets) && CleanArrivals(xs)
    ensures WellTyped(c, After(c, s, xs, k).sets) && CleanSets(After(c, s, xs, k).sets)
  {
    if k > 0 {
      SessionSets(c, s, xs, k - 1);
      FrameSets(c, After(c, s, xs, k - 1), xs[k - 1]);
    }
  }

  /** Injected frames have no empty unit and no start code inside, when sets and picture units have none. */
  lemma EnsuredIsClean(c: Codec, f: AU, s: Sets)
    requires WellTyped(c, s) && CleanSets(s)
    requires forall i :: 0 <= i < |f| ==> Sized(c, f[i]) && MarkerFree(f[i])
    ensures Clean(Ensured(c, f, s))
  {
    if Complete(c, s) && HasKey(c, f) {
      SelectPasses(NotParam(c), f, |f|);
      assert f[..|f|] == f;
      HeadsAreClean(c, s);
    }
  }

  lemma HeadsAreClean(c: Codec, s: Sets)
    requires Complete(c, s) && WellTyped(c, s) && CleanSets(s)
    ensures Clean(Heads(c, s))
  {
    assert s.Get(Sps).Some? && s.Get(Pps).Some? && (c.H265? ==> s.Get(Vps).Some?);
  }

  /** Once a set is missing from everything forwarded and announced, the frame itself lacks it. */
  lemma IncompleteFrame(c: Codec, s: Sets, f: AU)
    requires !Complete(c, Tracked(c, s, f))
    ensures !Complete(c, SetsOf(c, f))
  {
  }

  /** A self-contained or incomplete keyframe, as it is read back. */
  lemma EnsuredReadsBack(c: Codec, before: Sets, f: AU)
    requires WellTyped(c, Tracked(c, before, f)) && CleanSets(Tracked(c, before, f)) && HasKey(c, f)
    requires forall i :: 0 <= i < |f| ==> Sized(c, f[i]) && MarkerFree(f[i])
    ensures var sets := Tracked(c, before, f);
      var out := Ensured(c, f, sets);
      ReadBack(c, Serialise(out)) == if Complete(c, sets) then Some(Saved(c, Relevant(c, sets), out)) else None
  {
    var sets := Tracked(c, before, f);
    var out := Ensured(c, f, sets);
    EnsuredIsClean(c, f, sets);
    ReadBackOfSerialised(c, out);
    EnsuredKeepsKey(c, f, sets);
    if Complete(c, sets) {
      EnsuredCarriesSets(c, f, sets);
    } else {
      IncompleteFrame(c, before, f);
    }
  }

  lemma OnlyFile(c: Codec, wanted: Option<Codec>, data: seq<byte>)
    requires wanted in {None, Some(c)}
    ensures Restored(wanted, map[c := data]) == ReadBack(c, data)
  {
  }

  lemma OutFrameReadsBack(c: Codec, s: Relay, x: Arrival)
    requires OutFrame(c, s, x.au, x.needKey).Some? && HasKey(c, OutFrame(c, s, x.au, x.needKey).value)
    requires forall i :: 0 <= i < |x.au| ==> MarkerFree(x.au[i])
    requires var sets := AfterFrame(c, s, x.au, x.needKey).sets; WellTyped(c, sets) && CleanSets(sets)
    ensures var out, sets := OutFrame(c, s, x.au, x.needKey).value, AfterFrame(c, s, x.au, x.needKey).sets;
      ReadBack(c, Serialise(out)) == if Complete(c, sets) then Some(Saved(c, Relevant(c, sets), out)) else None
  {
    var f := Admitted(c, s, x.au, x.needKey).value;
    AdmittedUnits(c, s, x.au, x.needKey);
    EnsuredKeepsKey(c, f, Tracked(c, s.sets, f));
    EnsuredReadsBack(c, s.sets, f);
  }

  /**
   End to end: every keyframe a session emits is restored from disk unchanged,
   with exactly the sets tracked at that point, if those are complete, and is
   refused otherwise.
   */
  lemma EmittedKeyframeRestores(c: Codec, announced: Sets, xs: seq<Arrival>, k: nat, wanted: Option<Codec>)
    requires k < |xs| && WellTyped(c, announced) && CleanSets(announced) && CleanArrivals(xs)
    requires Emitted(c, Relay(false, announced), xs, k).Some?
    requires HasKey(c, Emitted(c, Relay(false, announced), xs, k).value)
    requires wanted in {None, Some(c)}
    ensures var out := Emitted(c, Relay(false, announced), xs, k).value;
      var sets := After(c, Relay(false, announced), xs, k + 1).sets;
      Restored(wanted, map[c := Serialise(out)])
        == if Complete(c, sets) then Some(Saved(c, Relevant(c, sets), out)) else None
  {
    var s := Relay(false, announced);
    SessionSets(c, s, xs, k + 1);
    OutFrameReadsBack(c, After(c, s, xs, k), xs[k]);
    OnlyFile(c, wanted, Serialise(Emitted(c, s, xs, k).value));
  }
}
