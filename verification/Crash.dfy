/**
 The asynchronous save, one file operation at a time, with failures and crashes
 anywhere. Rename is atomic, and temporary names are never reused.
 */
module Crash {
  import opened Wrappers
  import opened AnnexB
  import opened AnnexBLaws
  import opened AccessUnit
  import opened Persist

  datatype Path = File(c: Codec) | Temp(id: nat)

  /** Where a save is. Cleaning removes the temporary file, after a rename or after an error. */
  datatype Pc = Creating | Writing | Closing | Renaming | Cleaning(renamed: bool) | RemovingOther

  datatype Job = Job(c: Codec, au: AU)
  datatype Writer = Writer(job: Job, pc: Pc)

  /** How one file operation goes; Partly is a prefix reaching the disk before the write is over. */
  datatype Outcome = Done | Partly(n: nat) | Failed

  datatype Disk = Disk(files: map<Path, seq<byte>>, writers: map<nat, Writer>, next: nat, saved: set<Job>)

  datatype Event = Save(job: Job) | Step(id: nat, o: Outcome) | Die

  const BLANK := Disk(map[], map[], 0, {})

  function Other(c: Codec): Codec {
    if c.H264? then H265 else H264
  }

  function Move(d: Disk, id: nat, pc: Pc): Disk
    requires id in d.writers
  {
    d.(writers := d.writers[id := d.writers[id].(pc := pc)])
  }

  function Finish(d: Disk, id: nat): Disk {
    d.(writers := d.writers - {id})
  }

  function Put(d: Disk, p: Path, data: seq<byte>): Disk {
    d.(files := d.files[p := data])
  }

  function Remove(d: Disk, p: Path): Disk {
    d.(files := d.files - {p})
  }

  function Prefix(s: seq<byte>, n: nat): seq<byte> {
    if n <= |s| then s[..n] else s
  }

  /** One operation of save id. */
  function StepOf(d: Disk, id: nat, o: Outcome): Disk
    requires id in d.writers
  {
    var w := d.writers[id];
    var data := Serialise(w.job.au);
    match w.pc
    case Creating => if o.Failed? then Finish(d, id) else Move(Put(d, Temp(id), []), id, Writing)
    case Writing =>
      (match o
       case Done => Move(Put(d, Temp(id), data), id, Closing)
       case Partly(n) => Put(d, Temp(id), Prefix(data, n))
       case Failed => Move(d, id, Cleaning(false)))
    case Closing => Move(d, id, if o.Failed? then Cleaning(false) else Renaming)
    case Renaming =>
      if o.Failed? || Temp(id) !in d.files then Move(d, id, Cleaning(false))
      else Move(Remove(Put(d, File(w.job.c), d.files[Temp(id)]), Temp(id)), id, Cleaning(true))
    case Cleaning(renamed) =>
      var d1 := Remove(d, Temp(id));
      if renamed then Move(d1, id, RemovingOther) else Finish(d1, id)
    case RemovingOther => Finish(if o.Failed? then d else Remove(d, File(Other(w.job.c))), id)
  }

  /** A crash loses the saves under way; the files stay. */
  function Next(d: Disk, e: Event): Disk {
    match e
    case Save(job) => d.(writers := d.writers[d.next := Writer(job, Creating)], next := d.next + 1, saved := d.saved + {job})
    case Step(id, o) => if id in d.writers then StepOf(d, id, o) else d
    case Die => d.(writers := map[])
  }

  function Run(d: Disk, es: seq<Event>): Disk
    decreases es
  {
    if es == [] then d else Run(Next(d, es[0]), es[1..])
  }

  // ---------------------------------------------------------------------
  // At any step, whatever fails, with any number of saves under way
  // ---------------------------------------------------------------------

  predicate WholeFile(d: Disk, c: Codec) {
    File(c) in d.files ==> exists job :: job in d.saved && job.c == c && d.files[File(c)] == Serialise(job.au)
  }

  predicate WriterOk(d: Disk, id: nat)
    requires id in d.writers
  {
    var w := d.writers[id];
    && id < d.next && w.job in d.saved
    && (w.pc.Closing? || w.pc.Renaming? ==> Temp(id) in d.files && d.files[Temp(id)] == Serialise(w.job.au))
  }

  ghost predicate Intact(d: Disk) {
    && WholeFile(d, H264) && WholeFile(d, H265)
    && forall id :: id in d.writers ==> WriterOk(d, id)
  }

  lemma StepKeepsWriters(d: Disk, id: nat, o: Outcome)
    requires Intact(d) && id in d.writers
    ensures forall i :: i in StepOf(d, id, o).writers ==> WriterOk(StepOf(d, id, o), i)
  {
    assert WriterOk(d, id);
  }

  lemma StepKeepsFile(d: Disk, id: nat, o: Outcome, c: Codec)
    requires id in d.writers && WriterOk(d, id) && WholeFile(d, c)
    ensures WholeFile(StepOf(d, id, o), c)
  {
    assert d.writers[id].job in StepOf(d, id, o).saved;
  }

  lemma StepKeepsIntact(d: Disk, id: nat, o: Outcome)
    requires Intact(d) && id in d.writers
    ensures Intact(StepOf(d, id, o))
  {
    StepKeepsWriters(d, id, o);
    StepKeepsFile(d, id, o, H264);
    StepKeepsFile(d, id, o, H265);
  }

  lemma {:induction false} AlwaysIntact(d: Disk, es: seq<Event>)
    requires Intact(d)
    ensures Intact(Run(d, es))
    decreases es
  {
    if es != [] {
      match es[0] {
        case Save(job) =>
        case Step(id, o) => if id in d.writers { StepKeepsIntact(d, id, o); }
        case Die =>
      }
      AlwaysIntact(Next(d, es[0]), es[1..]);
    }
  }

  /** Temporary files belong to saves under way. */
  ghost predicate TempsAreOwned(d: Disk) {
    forall id :: Temp(id) in d.files ==> id in d.writers
  }

  lemma StepKeepsTemps(d: Disk, id: nat, o: Outcome)
    requires TempsAreOwned(d) && TempBeforeRename(d) && id in d.writers
    ensures TempsAreOwned(StepOf(d, id, o)) && TempBeforeRename(StepOf(d, id, o))
  {
  }

  /** A save about to remove the other codec's file has no temporary file left. */
  predicate TempBeforeRename(d: Disk) {
    forall id :: id in d.writers && (d.writers[id].pc.RemovingOther? || d.writers[id].pc.Creating?) ==> Temp(id) !in d.files
  }

  predicate Numbered(d: Disk) {
    forall id :: id in d.writers ==> id < d.next
  }

  /** Without a crash, a directory with no save under way has no temporary file, whatever failed. */
  lemma {:induction false} NoTempIsLeft(d: Disk, es: seq<Event>)
    requires TempsAreOwned(d) && TempBeforeRename(d) && Numbered(d) && forall i :: 0 <= i < |es| ==> !es[i].Die?
    ensures var t := Run(d, es); t.writers == map[] ==> forall id :: Temp(id) !in t.files
    decreases es
  {
    if es != [] {
      if es[0].Step? && es[0].id in d.writers {
        StepKeepsTemps(d, es[0].id, es[0].o);
      }
      NoTempIsLeft(Next(d, es[0]), es[1..]);
    }
  }

  function FilesOf(d: Disk): map<Codec, seq<byte>> {
    map c: Codec | c in {H264, H265} && File(c) in d.files :: d.files[File(c)]
  }

  /**
   From an empty directory, after any operations, failures and crashes: a restart
   restores nothing, or exactly one of the keyframes whose save was started.
   */
  lemma RestoreYieldsASavedKeyframe(es: seq<Event>, wanted: Option<Codec>)
    requires forall job :: job in Run(BLANK, es).saved ==> Clean(job.au)
    ensures var d, r := Run(BLANK, es), Restored(wanted, FilesOf(Run(BLANK, es)));
      r.Some? ==> exists job :: job in d.saved && r.value == Saved(job.c, SetsOf(job.c, job.au), job.au)
  {
    AlwaysIntact(BLANK, es);
    var d := Run(BLANK, es);
    var files := FilesOf(d);
    forall c: Codec | ReadFile(wanted, files, c).Some?
      ensures exists job :: job in d.saved && ReadFile(wanted, files, c).value == Saved(job.c, SetsOf(job.c, job.au), job.au)
    {
      assert WholeFile(d, c);
      var job :| job in d.saved && job.c == c && d.files[File(c)] == Serialise(job.au);
      ReadBackOfSerialised(c, job.au);
    }
  }

  // ---------------------------------------------------------------------
  // One save at a time
  // ---------------------------------------------------------------------

  predicate Renamed(pc: Pc) {
    pc == Cleaning(true) || pc == RemovingOther
  }

  /** The only save under way, without an error so far, and what it has reached. */
  predicate Alone(d: Disk, id: nat, job: Job) {
    && d.writers.Keys == {id} && d.writers[id].job == job
    && (var w := d.writers[id];
        && w.pc != Cleaning(false)
        && (w.pc.Closing? || w.pc.Renaming? ==> Temp(id) in d.files && d.files[Temp(id)] == Serialise(job.au))
        && (Renamed(w.pc) ==> File(job.c) in d.files && d.files[File(job.c)] == Serialise(job.au)))
  }

  function Outcomes(id: nat, os: seq<Outcome>): (r: seq<Event>)
    ensures |r| == |os|
  {
    if os == [] then [] else [Step(id, os[0])] + Outcomes(id, os[1..])
  }

  /** No operation of the save failed. */
  predicate AllWell(os: seq<Outcome>) {
    forall i :: 0 <= i < |os| ==> !os[i].Failed?
  }

  lemma NoWriter(d: Disk, es: seq<Event>, id: nat)
    requires d.writers == map[] && forall i :: 0 <= i < |es| ==> es[i].Step?
    ensures Run(d, es) == d
    decreases es
  {
    if es != [] {
      NoWriter(d, es[1..], id);
    }
  }

  lemma {:induction false} OutcomesAreSteps(id: nat, os: seq<Outcome>)
    ensures forall i :: 0 <= i < |os| ==> Outcomes(id, os)[i] == Step(id, os[i])
  {
    if os != [] {
      OutcomesAreSteps(id, os[1..]);
    }
  }

  lemma AloneStep(d: Disk, id: nat, job: Job, o: Outcome)
    requires Alone(d, id, job) && !o.Failed?
    ensures var d' := StepOf(d, id, o);
      if d'.writers == map[] then FilesOf(d') == map[job.c := Serialise(job.au)] else Alone(d', id, job)
  {
    var w, d' := d.writers[id], StepOf(d, id, o);
    assert d.writers == map[id := w];
    if w.pc == RemovingOther {
      assert d'.writers == map[];
      assert d'.files == d.files - {File(Other(job.c))};
      assert File(job.c) != File(Other(job.c));
      assert forall c: Codec :: c in FilesOf(d') <==> c == job.c;
    } else {
      assert id in d'.writers;
    }
  }

  /** A save that runs to its end leaves exactly its keyframe in the directory, whatever was there. */
  lemma {:induction false} CompletedSave(d: Disk, id: nat, job: Job, os: seq<Outcome>)
    requires Alone(d, id, job) && AllWell(os) && Run(d, Outcomes(id, os)).writers == map[]
    ensures FilesOf(Run(d, Outcomes(id, os))) == map[job.c := Serialise(job.au)]
    decreases os
  {
    if os != [] {
      AloneStep(d, id, job, os[0]);
      var d' := StepOf(d, id, os[0]);
      assert Outcomes(id, os)[1..] == Outcomes(id, os[1..]);
      assert AllWell(os[1..]);
      if d'.writers == map[] {
        OutcomesAreSteps(id, os[1..]);
        NoWriter(d', Outcomes(id, os[1..]), id);
      } else {
        CompletedSave(d', id, job, os[1..]);
      }
    }
  }

  /** After a completed save, with none other under way, a restart restores exactly the new keyframe. */
  lemma CompletedSaveIsRestored(d: Disk, job: Job, os: seq<Outcome>, wanted: Option<Codec>)
    requires d.writers == map[] && Clean(job.au)
    requires HasKey(job.c, job.au) && Complete(job.c, SetsOf(job.c, job.au)) && wanted in {None, Some(job.c)}
    requires AllWell(os) && Run(Next(d, Save(job)), Outcomes(d.next, os)).writers == map[]
    ensures Restored(wanted, FilesOf(Run(Next(d, Save(job)), Outcomes(d.next, os))))
         == Some(Saved(job.c, SetsOf(job.c, job.au), job.au))
  {
    var d1 := Next(d, Save(job));
    assert d1.writers == map[d.next := Writer(job, Creating)];
    CompletedSave(d1, d.next, job, os);
    ReadBackOfSerialised(job.c, job.au);
    OnlyFile(job.c, wanted, Serialise(job.au));
  }

  // ---------------------------------------------------------------------
  // A save cut short
  // ---------------------------------------------------------------------

  predicate SameFile(d0: Disk, d: Disk, c: Codec) {
    && (File(c) in d.files <==> File(c) in d0.files)
    && (File(c) in d.files ==> d.files[File(c)] == d0.files[File(c)])
  }

  predicate IsNew(d: Disk, job: Job) {
    File(job.c) in d.files && d.files[File(job.c)] == Serialise(job.au)
  }

  predicate Unchanged(d0: Disk, d: Disk) {
    SameFile(d0, d, H264) && SameFile(d0, d, H265)
  }

  /** Nothing changed, or the new file is there whole and the other codec's is as before or gone. */
  predicate OldOrNew(d0: Disk, d: Disk, job: Job) {
    || Unchanged(d0, d)
    || (IsNew(d, job) && (SameFile(d0, d, Other(job.c)) || File(Other(job.c)) !in d.files))
  }

  /** Save id of job, started when the disk was d0, is the only one under way, or is over. */
  predicate Under(d0: Disk, d: Disk, id: nat, job: Job) {
    && d.writers.Keys <= {id} && OldOrNew(d0, d, job)
    && (id in d.writers ==>
          var w := d.writers[id];
          && w.job == job
          && (w.pc.Closing? || w.pc.Renaming? ==> Temp(id) in d.files && d.files[Temp(id)] == Serialise(job.au))
          && if Renamed(w.pc) then IsNew(d, job) && SameFile(d0, d, Other(job.c)) else Unchanged(d0, d))
  }

  lemma UnderStep(d0: Disk, d: Disk, id: nat, job: Job, o: Outcome)
    requires Under(d0, d, id, job) && id in d.writers
    ensures Under(d0, StepOf(d, id, o), id, job)
  {
  }

  lemma {:induction false} UnderRun(d0: Disk, d: Disk, id: nat, job: Job, es: seq<Event>)
    requires Under(d0, d, id, job) && forall i :: 0 <= i < |es| ==> !es[i].Save?
    ensures OldOrNew(d0, Run(d, es), job)
    decreases es
  {
    if es != [] {
      if es[0].Step? && es[0].id in d.writers {
        UnderStep(d0, d, id, job, es[0].o);
      }
      UnderRun(d0, Next(d, es[0]), id, job, es[1..]);
    }
  }

  lemma SameReads(d0: Disk, d: Disk, c: Codec, wanted: Option<Codec>)
    requires SameFile(d0, d, c)
    ensures ReadFile(wanted, FilesOf(d), c) == ReadFile(wanted, FilesOf(d0), c)
  {
  }

  /** What a restart takes from the new file: nothing when another codec is configured. */
  function Fresh(job: Job, wanted: Option<Codec>): Option<Saved> {
    if wanted in {None, Some(job.c)} then Some(Saved(job.c, SetsOf(job.c, job.au), job.au)) else None
  }

  lemma NewReads(d: Disk, job: Job, wanted: Option<Codec>)
    requires IsNew(d, job) && Clean(job.au)
    requires HasKey(job.c, job.au) && Complete(job.c, SetsOf(job.c, job.au))
    ensures ReadFile(wanted, FilesOf(d), job.c) == Fresh(job, wanted)
  {
    ReadBackOfSerialised(job.c, job.au);
  }

  lemma GoneReads(d: Disk, c: Codec, wanted: Option<Codec>)
    requires File(c) !in d.files
    ensures ReadFile(wanted, FilesOf(d), c) == None
  {
  }

  /** What is restored from such a directory is the old keyframe or what the new file gives. */
  lemma OldOrNewRestores(d0: Disk, d: Disk, job: Job, wanted: Option<Codec>)
    requires OldOrNew(d0, d, job) && Clean(job.au)
    requires HasKey(job.c, job.au) && Complete(job.c, SetsOf(job.c, job.au))
    ensures Restored(wanted, FilesOf(d)) in {Restored(wanted, FilesOf(d0)), Fresh(job, wanted)}
  {
    if Unchanged(d0, d) {
      SameReads(d0, d, H264, wanted);
      SameReads(d0, d, H265, wanted);
    } else {
      NewReads(d, job, wanted);
      if SameFile(d0, d, Other(job.c)) {
        SameReads(d0, d, Other(job.c), wanted);
      } else {
        GoneReads(d, Other(job.c), wanted);
      }
    }
  }

  lemma OldOrNewFiles(d0: Disk, d: Disk, job: Job)
    requires OldOrNew(d0, d, job)
    ensures FilesOf(d) in {FilesOf(d0), FilesOf(d0)[job.c := Serialise(job.au)], map[job.c := Serialise(job.au)]}
  {
    var files, before := FilesOf(d), FilesOf(d0);
    assert job.c == H264 || job.c == H265;
    if Unchanged(d0, d) {
      assert files == before;
    } else if SameFile(d0, d, Other(job.c)) {
      assert files == before[job.c := Serialise(job.au)];
    } else {
      assert files == map[job.c := Serialise(job.au)];
    }
  }

  /** Any save that fails or is cut short anywhere by a crash leaves the files as they were, or the new one beside or instead of the other codec's. */
  lemma InterruptedFiles(d: Disk, job: Job, es: seq<Event>)
    requires d.writers == map[] && forall i :: 0 <= i < |es| ==> !es[i].Save?
    ensures FilesOf(Run(Next(d, Save(job)), es)) in
              {FilesOf(d), FilesOf(d)[job.c := Serialise(job.au)], map[job.c := Serialise(job.au)]}
  {
    UnderRun(d, Next(d, Save(job)), d.next, job, es);
    OldOrNewFiles(d, Run(Next(d, Save(job)), es), job);
  }

  /** For a self-contained keyframe a restart then restores what it would have before, or what the new file gives. */
  lemma InterruptedSave(d: Disk, job: Job, es: seq<Event>, wanted: Option<Codec>)
    requires d.writers == map[] && Clean(job.au)
    requires HasKey(job.c, job.au) && Complete(job.c, SetsOf(job.c, job.au))
    requires forall i :: 0 <= i < |es| ==> !es[i].Save?
    ensures Restored(wanted, FilesOf(Run(Next(d, Save(job)), es))) in {Restored(wanted, FilesOf(d)), Fresh(job, wanted)}
  {
    UnderRun(d, Next(d, Save(job)), d.next, job, es);
    OldOrNewRestores(d, Run(Next(d, Save(job)), es), job, wanted);
  }

  /** An operation of the save fails before its file is in place. */
  predicate FailsEarly(d: Disk, id: nat, e: Event) {
    && e.Step? && e.id == id && id in d.writers && e.o.Failed?
    && (d.writers[id].pc.Creating? || d.writers[id].pc.Writing? || d.writers[id].pc.Closing? || d.writers[id].pc.Renaming?)
  }

  predicate SomeFailsEarly(d: Disk, id: nat, es: seq<Event>)
    decreases es
  {
    es != [] && (FailsEarly(d, id, es[0]) || SomeFailsEarly(Next(d, es[0]), id, es[1..]))
  }

  /** The save is over or cleaning up after an error. */
  predicate GivenUp(d0: Disk, d: Disk, id: nat) {
    && Unchanged(d0, d) && d.writers.Keys <= {id}
    && (id in d.writers ==> d.writers[id].pc == Cleaning(false))
  }

  lemma {:induction false} StaysGivenUp(d0: Disk, d: Disk, id: nat, es: seq<Event>)
    requires GivenUp(d0, d, id) && forall i :: 0 <= i < |es| ==> !es[i].Save?
    ensures GivenUp(d0, Run(d, es), id)
    decreases es
  {
    if es != [] {
      StaysGivenUp(d0, Next(d, es[0]), id, es[1..]);
    }
  }

  lemma {:induction false} FailedRun(d0: Disk, d: Disk, id: nat, job: Job, es: seq<Event>)
    requires Under(d0, d, id, job) && SomeFailsEarly(d, id, es) && forall i :: 0 <= i < |es| ==> !es[i].Save?
    ensures Unchanged(d0, Run(d, es))
    decreases es
  {
    var e := es[0];
    if FailsEarly(d, id, e) {
      StaysGivenUp(d0, Next(d, e), id, es[1..]);
    } else {
      if e.Step? && e.id in d.writers {
        UnderStep(d0, d, id, job, e.o);
      }
      FailedRun(d0, Next(d, e), id, job, es[1..]);
    }
  }

  /** A save one of whose operations fails before its file is in place changes neither codec file, whatever follows. */
  lemma FailedSaveChangesNothing(d: Disk, job: Job, es: seq<Event>)
    requires d.writers == map[] && forall i :: 0 <= i < |es| ==> !es[i].Save?
    requires SomeFailsEarly(Next(d, Save(job)), d.next, es)
    ensures FilesOf(Run(Next(d, Save(job)), es)) == FilesOf(d)
  {
    FailedRun(d, Next(d, Save(job)), d.next, job, es);
    var t := Run(Next(d, Save(job)), es);
    assert SameFile(d, t, H264) && SameFile(d, t, H265);
    assert FilesOf(t) == FilesOf(d);
  }

  /** Not more: with another codec configured, a save removes the only file that could be restored. */
  lemma AnotherCodecLosesTheOld(d: Disk, job: Job, os: seq<Outcome>)
    requires d.writers == map[] && AllWell(os) && Run(Next(d, Save(job)), Outcomes(d.next, os)).writers == map[]
    ensures Restored(Some(Other(job.c)), FilesOf(Run(Next(d, Save(job)), Outcomes(d.next, os)))) == None
  {
    assert Next(d, Save(job)).writers == map[d.next := Writer(job, Creating)];
    CompletedSave(Next(d, Save(job)), d.next, job, os);
  }

  // ---------------------------------------------------------------------
  // Two saves of different codecs at once
  // ---------------------------------------------------------------------

  /** Save i puts its file in place. */
  predicate PutsFile(d: Disk, i: nat, e: Event) {
    e.Step? && e.id == i && i in d.writers && d.writers[i].pc.Renaming? && !e.o.Failed? && Temp(i) in d.files
  }

  /** Save j removes the other codec's file. */
  predicate RemovesOther(d: Disk, j: nat, e: Event) {
    e.Step? && e.id == j && j in d.writers && d.writers[j].pc.RemovingOther? && !e.o.Failed?
  }

  /** Of the renames of save i and the removals by save j, the last one was a rename; `there` if there was none. */
  predicate PutLast(d: Disk, es: seq<Event>, i: nat, j: nat, there: bool)
    decreases es
  {
    if es == [] then there
    else PutLast(Next(d, es[0]), es[1..], i, j,
                 if PutsFile(d, i, es[0]) then true else if RemovesOther(d, j, es[0]) then false else there)
  }

  /** Saves i and j, of different codecs, are the only ones under way, or over. */
  predicate OnlyTwo(d: Disk, i: nat, j: nat, c: Codec) {
    && i != j && d.writers.Keys <= {i, j}
    && (i in d.writers ==> d.writers[i].job.c == c)
    && (j in d.writers ==> d.writers[j].job.c == Other(c))
  }

  lemma StepKeepsTwo(d: Disk, i: nat, j: nat, c: Codec, e: Event)
    requires OnlyTwo(d, i, j, c) && !e.Save?
    ensures OnlyTwo(Next(d, e), i, j, c)
  {
  }

  /** What one operation of a save does to the codec files. */
  lemma StepFiles(d: Disk, id: nat, o: Outcome, c: Codec)
    requires id in d.writers
    ensures var e, w := Step(id, o), d.writers[id];
      File(c) in StepOf(d, id, o).files <==>
        if PutsFile(d, id, e) && w.job.c == c then true
        else if RemovesOther(d, id, e) && w.job.c != c then false
        else File(c) in d.files
  {
    assert c == d.writers[id].job.c || c == Other(d.writers[id].job.c);
  }

  lemma StepOfTwo(d: Disk, i: nat, j: nat, c: Codec, e: Event)
    requires OnlyTwo(d, i, j, c) && !e.Save?
    ensures File(c) in Next(d, e).files <==>
      if PutsFile(d, i, e) then true else if RemovesOther(d, j, e) then false else File(c) in d.files
  {
    if e.Step? && e.id in d.writers {
      assert e.id == i || e.id == j;
      StepFiles(d, e.id, e.o, c);
    }
  }

  /** In every interleaving, with failures and crashes: a file is left exactly when its rename comes after the other save's removal. */
  lemma {:induction false} WhenAFileIsLeft(d: Disk, i: nat, j: nat, c: Codec, es: seq<Event>)
    requires OnlyTwo(d, i, j, c) && forall k :: 0 <= k < |es| ==> !es[k].Save?
    ensures File(c) in Run(d, es).files <==> PutLast(d, es, i, j, File(c) in d.files)
    decreases es
  {
    if es != [] {
      var e := es[0];
      StepKeepsTwo(d, i, j, c, e);
      StepOfTwo(d, i, j, c, e);
      WhenAFileIsLeft(Next(d, e), i, j, c, es[1..]);
    }
  }

  /** So nothing is left of two saves exactly when each one's removal comes after the other's rename. */
  lemma WhenNothingIsLeft(d: Disk, i: nat, j: nat, c: Codec, es: seq<Event>)
    requires OnlyTwo(d, i, j, c) && forall k :: 0 <= k < |es| ==> !es[k].Save?
    ensures FilesOf(Run(d, es)) == map[] <==>
      !PutLast(d, es, i, j, File(c) in d.files) && !PutLast(d, es, j, i, File(Other(c)) in d.files)
  {
    WhenAFileIsLeft(d, i, j, c, es);
    WhenAFileIsLeft(d, j, i, Other(c), es);
    NoFiles(Run(d, es), c);
  }

  lemma NoFiles(d: Disk, c: Codec)
    ensures FilesOf(d) == map[] <==> File(c) !in d.files && File(Other(c)) !in d.files
  {
    var files := FilesOf(d);
    assert H264 in files <==> File(H264) in d.files;
    assert H265 in files <==> File(H265) in d.files;
    if H264 !in files && H265 !in files {
      assert files.Keys == {};
    }
  }

  lemma RunAppend(d: Disk, a: seq<Event>, b: seq<Event>)
    ensures Run(d, a + b) == Run(Run(d, a), b)
    decreases a
  {
    if a == [] {
      assert a + b == b;
    } else {
      assert (a + b)[0] == a[0] && (a + b)[1..] == a[1..] + b;
      RunAppend(Next(d, a[0]), a[1..], b);
    }
  }

  lemma OneMore(d: Disk, e: Event, rest: seq<Event>)
    ensures Run(d, [e] + rest) == Run(Next(d, e), rest)
  {
    assert ([e] + rest)[1..] == rest;
  }

  /** The file is written; then it is renamed and its own temporary name is gone. */
  function WriteSteps(id: nat): seq<Event> {
    [Step(id, Done)] + ([Step(id, Done)] + ([Step(id, Done)] + []))
  }

  function PlaceSteps(id: nat): seq<Event> {
    [Step(id, Done)] + ([Step(id, Done)] + [])
  }

  function UpToRemoval(id: nat): seq<Event> {
    WriteSteps(id) + PlaceSteps(id)
  }

  /** Save id of job is at pc, and everything else about saves and codec files is as in d0. */
  predicate Reached(d0: Disk, d: Disk, id: nat, job: Job, pc: Pc) {
    && d.writers == d0.writers[id := Writer(job, pc)]
    && d.next == d0.next && d.saved == d0.saved
    && (pc.Closing? || pc.Renaming? ==> Temp(id) in d.files)
    && (if Renamed(pc) then File(job.c) in d.files else SameFile(d0, d, job.c))
    && SameFile(d0, d, Other(job.c))
  }

  lemma NextReached(d0: Disk, d: Disk, id: nat, job: Job, pc: Pc)
    requires Reached(d0, d, id, job, pc) && pc != Cleaning(false) && pc != RemovingOther
    ensures Reached(d0, Next(d, Step(id, Done)), id, job,
                    match pc
                    case Creating => Writing
                    case Writing => Closing
                    case Closing => Renaming
                    case Renaming => Cleaning(true)
                    case _ => RemovingOther)
  {
  }

  lemma ReachesRemoval(d: Disk, id: nat, job: Job)
    requires id in d.writers && d.writers[id] == Writer(job, Creating)
    ensures Reached(d, Run(d, UpToRemoval(id)), id, job, RemovingOther)
  {
    var e := Step(id, Done);
    var d1 := Next(d, e);
    var d2 := Next(d1, e);
    var d3 := Next(d2, e);
    var d4 := Next(d3, e);
    NextReached(d, d, id, job, Creating);
    NextReached(d, d1, id, job, Writing);
    NextReached(d, d2, id, job, Closing);
    NextReached(d, d3, id, job, Renaming);
    NextReached(d, d4, id, job, Cleaning(true));
    RunAppend(d, WriteSteps(id), PlaceSteps(id));
    ThreeMore(d, e);
    OneMore(d3, e, [e] + []);
    OneMore(d4, e, []);
    assert Run(Next(d4, e), []) == Next(d4, e);
  }

  lemma ThreeMore(d: Disk, e: Event)
    ensures Run(d, [e] + ([e] + ([e] + []))) == Next(Next(Next(d, e), e), e)
  {
    OneMore(d, e, [e] + ([e] + []));
    OneMore(Next(d, e), e, [e] + []);
    OneMore(Next(Next(d, e), e), e, []);
  }

  function BothRemove(id: nat): seq<Event> {
    [Step(id, Done)] + ([Step(id + 1, Done)] + [])
  }

  function CrossedSteps(id: nat): seq<Event> {
    UpToRemoval(id) + UpToRemoval(id + 1) + BothRemove(id)
  }

  function CrossedSaves(id: nat, a: Job, b: Job): seq<Event> {
    [Save(a)] + ([Save(b)] + CrossedSteps(id))
  }

  /** Both files are in place and neither removal has been done. */
  lemma BothPlaced(d: Disk, i: nat, j: nat, a: Job, b: Job)
    requires i != j && d.writers == map[i := Writer(a, Creating), j := Writer(b, Creating)]
    ensures Run(d, UpToRemoval(i) + UpToRemoval(j)).writers == map[i := Writer(a, RemovingOther), j := Writer(b, RemovingOther)]
  {
    var d1 := Run(d, UpToRemoval(i));
    ReachesRemoval(d, i, a);
    ReachesRemoval(d1, j, b);
    RunAppend(d, UpToRemoval(i), UpToRemoval(j));
  }

  predicate NothingLeft(d: Disk) {
    d.writers == map[] && FilesOf(d) == map[]
  }

  lemma RunBothRemove(d: Disk, i: nat)
    ensures Run(d, BothRemove(i)) == Next(Next(d, Step(i, Done)), Step(i + 1, Done))
  {
    OneMore(d, Step(i, Done), [Step(i + 1, Done)] + []);
    OneMore(Next(d, Step(i, Done)), Step(i + 1, Done), []);
  }

  lemma TwoSavesCross(d: Disk, i: nat, a: Job, b: Job)
    requires b.c == Other(a.c) && d.writers == map[i := Writer(a, Creating), i + 1 := Writer(b, Creating)]
    ensures NothingLeft(Run(d, CrossedSteps(i)))
  {
    var places := UpToRemoval(i) + UpToRemoval(i + 1);
    BothPlaced(d, i, i + 1, a, b);
    BothGone(Run(d, places), i, i + 1, a, b);
    RunBothRemove(Run(d, places), i);
    RunAppend(d, places, BothRemove(i));
  }

  /** It does happen: two saves of different codecs, both complete and without an error, and nothing to restore. */
  lemma CrossedSavesLoseBoth(d: Disk, a: Job, b: Job)
    requires d.writers == map[] && b.c == Other(a.c)
    ensures NothingLeft(Run(d, CrossedSaves(d.next, a, b)))
  {
    TwoWriters(d, a, b);
    TwoSavesCross(Next(Next(d, Save(a)), Save(b)), d.next, a, b);
    TwoMore(d, Save(a), Save(b), CrossedSteps(d.next));
  }

  lemma TwoWriters(d: Disk, a: Job, b: Job)
    requires d.writers == map[]
    ensures Next(Next(d, Save(a)), Save(b)).writers == map[d.next := Writer(a, Creating), d.next + 1 := Writer(b, Creating)]
  {
  }

  lemma TwoMore(d: Disk, e1: Event, e2: Event, rest: seq<Event>)
    ensures Run(d, [e1] + ([e2] + rest)) == Run(Next(Next(d, e1), e2), rest)
  {
    OneMore(d, e1, [e2] + rest);
    OneMore(Next(d, e1), e2, rest);
  }

  lemma BothGone(d: Disk, i: nat, j: nat, a: Job, b: Job)
    requires i != j && b.c == Other(a.c)
    requires d.writers == map[i := Writer(a, RemovingOther), j := Writer(b, RemovingOther)]
    ensures var t := Next(Next(d, Step(i, Done)), Step(j, Done));
      NothingLeft(t)
  {
    var t := Next(Next(d, Step(i, Done)), Step(j, Done));
    assert t.writers == d.writers - {i} - {j} == map[];
    NoFiles(t, a.c);
  }
}
