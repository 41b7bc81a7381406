/** Concurrent uploads of audio for one song: the file is saved under a fresh key, the song row
    is switched to it in a transaction that returns the previous key, and the previous file is
    deleted last. */
module AudioUpload {
  import opened Wrappers

  type ProcessId = nat
  type FileKey = nat

  datatype Process =
    | Named(key: FileKey)                                     // validated, key chosen
    | Saved(key: FileKey)
    | Undoing(key: FileKey)                                   // Save or the database failed
    | Swapped(key: FileKey, previous: Option<FileKey>)
    | Finished(ok: bool)

  /** History: keys of uploads, keys the song row has ever had, and files left behind by a
      crash or by a deletion that failed. */
  datatype State = State(
    files: set<FileKey>, audio: Option<FileKey>, procs: map<ProcessId, Process>,
    used: set<FileKey>, everCurrent: set<FileKey>, leaked: set<FileKey>)

  datatype Step =
    | Begin(pid: ProcessId, key: FileKey)
    | Save(pid: ProcessId, ok: bool, partial: bool)
    | ReplaceAudioKey(pid: ProcessId, ok: bool)
    | DeleteNew(pid: ProcessId, ok: bool)
    | DeletePrevious(pid: ProcessId, ok: bool)
    | Crash(pid: ProcessId)

  /** A song whose key, if it has one, names a stored file. */
  function Start(files: set<FileKey>, audio: Option<FileKey>): State
    requires audio.Some? ==> audio.value in files
  {
    State(files, audio, map[], {}, AsSet(audio), {})
  }

  function AsSet(key: Option<FileKey>): set<FileKey> {
    if key.Some? then {key.value} else {}
  }

  predicate Enabled(s: State, step: Step) {
    match step
    case Begin(pid, key) => pid !in s.procs && key !in s.used && key !in s.everCurrent && key !in s.files
    case Save(pid, _, _) => pid in s.procs && s.procs[pid].Named?
    case ReplaceAudioKey(pid, _) => pid in s.procs && s.procs[pid].Saved?
    case DeleteNew(pid, _) => pid in s.procs && s.procs[pid].Undoing?
    case DeletePrevious(pid, _) => pid in s.procs && s.procs[pid].Swapped?
    case Crash(pid) => pid in s.procs && !s.procs[pid].Finished?
  }

  function Moved(s: State, pid: ProcessId, p: Process): State {
    s.(procs := s.procs[pid := p])
  }

  /** The stored files a process still has to account for. */
  function Owes(p: Process): set<FileKey> {
    match p
    case Named(key) => {key}
    case Saved(key) => {key}
    case Undoing(key) => {key}
    case Swapped(key, previous) => AsSet(previous) - {key}
    case Finished(_) => {}
  }

  function Apply(s: State, step: Step): State
    requires Enabled(s, step)
  {
    match step
    case Begin(pid, key) => Moved(s, pid, Named(key)).(used := s.used + {key})
    case Save(pid, ok, partial) =>
      var key := s.procs[pid].key;
      if ok then Moved(s, pid, Saved(key)).(files := s.files + {key})
      else Moved(s, pid, Undoing(key)).(files := if partial then s.files + {key} else s.files)
    case ReplaceAudioKey(pid, ok) =>
      var key := s.procs[pid].key;
      if ok then Moved(s, pid, Swapped(key, s.audio)).(audio := Some(key), everCurrent := s.everCurrent + {key})
      else Moved(s, pid, Undoing(key))
    case DeleteNew(pid, ok) =>
      var key := s.procs[pid].key;
      var s' := Moved(s, pid, Finished(false));
      if ok then s'.(files := s.files - {key}) else s'.(leaked := s.leaked + {key})
    case DeletePrevious(pid, ok) =>
      var s' := Moved(s, pid, Finished(true));
      if ok then s'.(files := s.files - Owes(s.procs[pid])) else s'.(leaked := s.leaked + Owes(s.procs[pid]))
    case Crash(pid) => s.(procs := s.procs - {pid}, leaked := s.leaked + Owes(s.procs[pid]))
  }

  predicate ProcessInv(s: State, p: Process) {
    match p
    case Named(key) => key in s.used && key !in s.everCurrent
    case Saved(key) => key in s.used && key !in s.everCurrent && key in s.files
    case Undoing(key) => key in s.used && key !in s.everCurrent
    case Swapped(key, previous) =>
      && (previous.Some? ==> previous.value in s.everCurrent && previous != s.audio && previous != Some(key))
      && s.audio.Some? && s.audio.value in s.used
    case Finished(ok) => ok ==> s.audio.Some? && s.audio.value in s.used
  }

  predicate Owed(s: State, pid: ProcessId, key: FileKey) {
    pid in s.procs && key in Owes(s.procs[pid])
  }

  predicate AccountedFor(s: State, key: FileKey) {
    s.audio == Some(key) || key in s.leaked || exists pid :: pid in s.procs && Owed(s, pid, key)
  }

  predicate ProcessesInv(s: State) {
    && (s.audio.Some? ==> s.audio.value in s.files && s.audio.value in s.everCurrent)
    && (forall pid :: pid in s.procs ==> ProcessInv(s, s.procs[pid]))
  }

  predicate OwedOnce(s: State) {
    forall a, b :: a in s.procs && b in s.procs && a != b ==> Owes(s.procs[a]) !! Owes(s.procs[b])
  }

  /** A file of an upload, or one that the song named at some time. */
  predicate Ours(s: State, key: FileKey) {
    key in s.files && (key in s.used || key in s.everCurrent)
  }

  /** Nobody owes the current file, no two processes owe the same file, and every file of ours is
      current, owed or leaked. */
  ghost predicate Inv(s: State) {
    && ProcessesInv(s) && OwedOnce(s)
    && (forall key :: Ours(s, key) ==> AccountedFor(s, key))
  }

  lemma StepAccounts(s: State, step: Step, key: FileKey)
    requires Inv(s) && Enabled(s, step)
    requires Ours(Apply(s, step), key)
    ensures AccountedFor(Apply(s, step), key)
  {
    var s' := Apply(s, step);
    if Owed(s', step.pid, key) || s'.audio == Some(key) {
    } else if Ours(s, key) {
      assert AccountedFor(s, key);
      if other :| other in s.procs && Owed(s, other, key) && other != step.pid {
        assert Owed(s', other, key);
      } else if step.pid in s.procs && Owed(s, step.pid, key) {
        assert key in s'.leaked;
      }
    }
  }

  lemma StepKeepsProcesses(s: State, step: Step)
    requires ProcessesInv(s) && OwedOnce(s) && Enabled(s, step)
    ensures ProcessesInv(Apply(s, step))
  {
    var s' := Apply(s, step);
    assert step.pid in s.procs ==> ProcessInv(s, s.procs[step.pid]);
    forall pid | pid in s'.procs ensures ProcessInv(s', s'.procs[pid]) {
      if pid != step.pid {
        assert ProcessInv(s, s.procs[pid]);
        assert step.pid in s.procs ==> Owes(s.procs[pid]) !! Owes(s.procs[step.pid]);
      }
    }
  }

  lemma StepKeepsOwed(s: State, step: Step)
    requires ProcessesInv(s) && OwedOnce(s) && Enabled(s, step)
    ensures OwedOnce(Apply(s, step))
  {
    var s' := Apply(s, step);
    forall pid | pid in s'.procs && step.pid in s'.procs && pid != step.pid
      ensures Owes(s'.procs[pid]) !! Owes(s'.procs[step.pid])
    {
      assert ProcessInv(s, s.procs[pid]);
      assert step.pid in s.procs ==> Owes(s.procs[pid]) !! Owes(s.procs[step.pid]);
    }
  }

  lemma StepKeepsInv(s: State, step: Step)
    requires Inv(s) && Enabled(s, step)
    ensures Inv(Apply(s, step)) && (step.Crash? ==> step.pid !in Apply(s, step).procs)
  {
    StepKeepsProcesses(s, step);
    StepKeepsOwed(s, step);
    forall key | Ours(Apply(s, step), key) ensures AccountedFor(Apply(s, step), key) {
      StepAccounts(s, step, key);
    }
  }

  predicate Legal(s: State, steps: seq<Step>)
    decreases |steps|
  {
    steps == [] || (Enabled(s, steps[0]) && Legal(Apply(s, steps[0]), steps[1..]))
  }

  function Run(s: State, steps: seq<Step>): State
    requires Legal(s, steps)
    decreases |steps|
  {
    if steps == [] then s else Run(Apply(s, steps[0]), steps[1..])
  }

  lemma {:induction false} RunKeepsInv(s: State, steps: seq<Step>)
    requires Inv(s) && Legal(s, steps)
    ensures Inv(Run(s, steps))
    decreases |steps|
  {
    if steps != [] {
      StepKeepsInv(s, steps[0]);
      RunKeepsInv(Apply(s, steps[0]), steps[1..]);
    }
  }

  /** However many uploads run, crash or fail, and wherever they stop, the song's audio key
      names a stored file. */
  lemma {:induction false} KeyAlwaysNamesAFile(files: set<FileKey>, audio: Option<FileKey>, steps: seq<Step>)
    requires (audio.Some? ==> audio.value in files) && Legal(Start(files, audio), steps)
    ensures
      var s := Run(Start(files, audio), steps);
      s.audio.Some? ==> s.audio.value in s.files
  {
    RunKeepsInv(Start(files, audio), steps);
  }

  /** A key the song once named is never chosen for an upload. */
  lemma {:induction false} NamedOnce(s: State, steps: seq<Step>, key: FileKey)
    requires Legal(s, steps) && key in s.everCurrent && key !in s.used
    ensures key in Run(s, steps).everCurrent && key !in Run(s, steps).used
    decreases |steps|
  {
    if steps != [] {
      NamedOnce(Apply(s, steps[0]), steps[1..], key);
    }
  }

  /** When every upload has finished, at least one of them without failure, and nothing was left
      behind, exactly one file remains of all that were uploaded and all that the song ever named:
      the one it names now.  The file it named before the uploads is gone. */
  lemma {:induction false} OneFileRemains(files: set<FileKey>, audio: Option<FileKey>, steps: seq<Step>)
    requires (audio.Some? ==> audio.value in files) && Legal(Start(files, audio), steps)
    requires
      var s := Run(Start(files, audio), steps);
      && s.leaked == {} && (forall pid :: pid in s.procs ==> s.procs[pid].Finished?)
      && exists pid :: pid in s.procs && s.procs[pid] == Finished(true)
    ensures
      var s := Run(Start(files, audio), steps);
      && s.audio.Some? && s.audio.value in s.used
      && s.files * (s.used + s.everCurrent) == {s.audio.value}
      && (audio.Some? ==> audio.value !in s.files)
  {
    var s := Run(Start(files, audio), steps);
    RunKeepsInv(Start(files, audio), steps);
    var pid :| pid in s.procs && s.procs[pid] == Finished(true);
    assert ProcessInv(s, s.procs[pid]);
    forall key | Ours(s, key) ensures key == s.audio.value {
      assert AccountedFor(s, key);
    }
    forall key | key in s.files * (s.used + s.everCurrent) ensures key == s.audio.value {
      assert Ours(s, key);
    }
    if audio.Some? {
      NamedOnce(Start(files, audio), steps, audio.value);
      assert !Ours(s, audio.value);
    }
  }

  // ---- the code of one upload ------------------------------------------------------------------

  /** What the outside world makes of one upload. */
  datatype Luck = Luck(saved: bool, partial: bool, replaced: bool, deleted: bool)

  /** The song's row and the file storage. */
  class MediaStore {
    var files: set<FileKey>
    var audio: Option<FileKey>

    ghost predicate Valid()
      reads this
    {
      audio.Some? ==> audio.value in files
    }

    constructor ()
      ensures Valid() && files == {} && audio == None
    {
      files, audio := {}, None;
    }

    method Save(key: FileKey, ok: bool, partial: bool)
      modifies this`files
      ensures files == if ok || partial then old(files) + {key} else old(files)
    {
      if ok || partial {
        files := files + {key};
      }
    }

    method Delete(key: FileKey, ok: bool)
      modifies this`files
      ensures files == if ok then old(files) - {key} else old(files)
    {
      if ok {
        files := files - {key};
      }
    }

    /** The row is locked between the read and the update. */
    method ReplaceAudioKey(key: FileKey, ok: bool) returns (previous: Option<FileKey>)
      modifies this`audio
      ensures if ok then previous == old(audio) && audio == Some(key) else audio == old(audio)
    {
      previous := audio;
      if ok {
        audio := Some(key);
      }
    }

    /** With nobody in between the upload is a run of the steps above, and what it means: the
        new file replaces the old one, or everything stays as it was but for files that could
        not be deleted. */
    method UploadAudio(pid: ProcessId, key: FileKey, luck: Luck) returns (ok: bool)
      requires Valid() && key !in files && audio != Some(key)
      modifies this
      ensures Valid()
      ensures ok <==> luck.saved && luck.replaced
      ensures ok ==> audio == Some(key)
      ensures ok ==> files == old(files) + {key} - if luck.deleted then AsSet(old(audio)) else {}
      ensures !ok ==> audio == old(audio) && old(files) <= files <= old(files) + {key}
      ensures !ok && luck.deleted ==> files == old(files)
      ensures
        var steps := StepsOf(pid, key, luck);
        var start := Start(old(files), old(audio));
        && Legal(start, steps)
        && Run(start, steps).files == files && Run(start, steps).audio == audio
        && Run(start, steps).procs == map[pid := Finished(ok)]
    {
      AloneIsARun(files, audio, pid, key, luck);
      Save(key, luck.saved, luck.partial);
      if !luck.saved {
        Delete(key, luck.deleted);
        return false;
      }
      var previous := ReplaceAudioKey(key, luck.replaced);
      if !luck.replaced {
        Delete(key, luck.deleted);
        return false;
      }
      if previous.Some? && previous != Some(key) {
        Delete(previous.value, luck.deleted);
      }
      ok := true;
    }
  }

  function StepsOf(pid: ProcessId, key: FileKey, luck: Luck): seq<Step> {
    [Begin(pid, key)] + ([Step.Save(pid, luck.saved, luck.partial)] + LastSteps(pid, luck))
  }

  function LastSteps(pid: ProcessId, luck: Luck): seq<Step> {
    if !luck.saved then [DeleteNew(pid, luck.deleted)] + []
    else
      [Step.ReplaceAudioKey(pid, luck.replaced)]
      + if luck.replaced then [DeletePrevious(pid, luck.deleted)] + [] else [DeleteNew(pid, luck.deleted)] + []
  }

  lemma RunOne(s: State, step: Step, rest: seq<Step>)
    requires Enabled(s, step) && Legal(Apply(s, step), rest)
    ensures Legal(s, [step] + rest) && Run(s, [step] + rest) == Run(Apply(s, step), rest)
  {
    assert ([step] + rest)[1..] == rest;
  }

  lemma AloneIsARun(files: set<FileKey>, audio: Option<FileKey>, pid: ProcessId, key: FileKey, luck: Luck)
    requires (audio.Some? ==> audio.value in files) && key !in files && audio != Some(key)
    ensures
      var start, steps, ok := Start(files, audio), StepsOf(pid, key, luck), luck.saved && luck.replaced;
      && Legal(start, steps)
      && Run(start, steps).audio == (if ok then Some(key) else audio)
      && Run(start, steps).files ==
           (if ok then files + {key} - (if luck.deleted then AsSet(audio) else {})
            else if luck.deleted || (!luck.saved && !luck.partial) then files else files + {key})
      && Run(start, steps).procs == map[pid := Finished(ok)]
      && (luck.deleted ==> Run(start, steps).leaked == {}) && Run(start, steps).used == {key}
  {
    var start := Start(files, audio);
    var named := Apply(start, Begin(pid, key));
    var save := Step.Save(pid, luck.saved, luck.partial);
    LastStepsAlone(Apply(named, save), pid, key, luck);
    RunOne(named, save, LastSteps(pid, luck));
    RunOne(start, Begin(pid, key), [save] + LastSteps(pid, luck));
  }

  lemma LastStepsAlone(s: State, pid: ProcessId, key: FileKey, luck: Luck)
    requires s.procs == map[pid := if luck.saved then Saved(key) else Undoing(key)] && s.audio != Some(key)
    ensures
      var steps, ok := LastSteps(pid, luck), luck.saved && luck.replaced;
      && Legal(s, steps)
      && Run(s, steps).audio == (if ok then Some(key) else s.audio)
      && Run(s, steps).files ==
           (if !luck.deleted then s.files else if ok then s.files - AsSet(s.audio) else s.files - {key})
      && Run(s, steps).procs == map[pid := Finished(ok)]
      && (luck.deleted ==> Run(s, steps).leaked == s.leaked) && Run(s, steps).used == s.used
  {
    if !luck.saved {
      RunOne(s, DeleteNew(pid, luck.deleted), []);
    } else {
      var replace := Step.ReplaceAudioKey(pid, luck.replaced);
      var last := if luck.replaced then DeletePrevious(pid, luck.deleted) else DeleteNew(pid, luck.deleted);
      RunOne(Apply(s, replace), last, []);
      RunOne(s, replace, [last] + []);
    }
  }
}
