/**
  The persistent ownership record of a world's Java process. It outlives a
  killed controller, so that a later one never resets the runtime directory
  under a Java process that is still running.
*/
module ProcessGuard {
  import opened Records

  type Pid = nat

  /** The record file: absent, unreadable or of another version, without a Java id, or with one. */
  datatype File = Absent | Garbage | Pending | Owned(java: Pid)

  /** What the operating system says of a process id; only `Dead` is proof. */
  datatype Probe = Dead | Alive | Undecided

  class RecordFile {
    var content: File

    constructor (f: File)
      ensures content == f
    {
      content := f;
    }

    /** Staged beside the file and renamed over it: either nothing changes or everything. */
    method AtomicWrite(f: File, writes: bool) returns (ok: bool)
      modifies this
      ensures ok == writes && content == if ok then f else old(content)
    {
      if writes {
        content := f;
      }
      return writes;
    }

    method RemoveFile(removes: bool) returns (ok: bool)
      modifies this
      ensures ok == removes && content == if ok then Absent else old(content)
    {
      if removes {
        content := Absent;
      }
      return removes;
    }
  }

  /** Whether a launch may go on past the record an earlier one left. */
  predicate Clears(f: File, probe: Probe) {
    f.Absent? || (f.Owned? && probe.Dead?)
  }

  function AfterBegin(f: File, probe: Probe, removes: bool, writes: bool): (result: (bool, File)) {
    if !Clears(f, probe) || (f.Owned? && !removes) then (false, f)
    else if writes then (true, Pending)
    else (false, Absent)
  }

  /** A guard that never saw a Java process may go; one that did, only once that process is proved dead. */
  function AfterDrop(f: File, java: Option<Pid>, probe: Probe, removes: bool): File {
    if (java.None? || probe.Dead?) && removes then Absent else f
  }

  class RuntimeProcessGuard {
    const path: RecordFile
    var java: Option<Pid>

    constructor (file: RecordFile)
      ensures path == file && java.None?
    {
      path, java := file, None;
    }

    static method InspectPreviousRecord(file: RecordFile, probe: Probe, removes: bool) returns (ok: bool)
      modifies file
      ensures ok == (Clears(old(file.content), probe) && (old(file.content).Owned? ==> removes))
      ensures file.content == if ok then Absent else old(file.content)
      ensures ok <==> old(file.content) == Absent || (old(file.content).Owned? && probe == Dead && removes)
    {
      match file.content {
        case Absent => return true;
        case Garbage => return false;
        case Pending => return false;
        case Owned(_) =>
          if !probe.Dead? {
            return false;
          }
          ok := file.RemoveFile(removes);
      }
    }

    static method Begin(file: RecordFile, probe: Probe, removes: bool, writes: bool)
      returns (guard: RuntimeProcessGuard?)
      modifies file
      ensures (guard != null, file.content) == AfterBegin(old(file.content), probe, removes, writes)
      ensures guard != null <==>
                writes && (old(file.content) == Absent || (old(file.content).Owned? && probe == Dead && removes))
      ensures guard != null ==> file.content == Pending
      ensures guard != null ==> fresh(guard) && guard.path == file && guard.java.None?
    {
      var clear := InspectPreviousRecord(file, probe, removes);
      if !clear {
        return null;
      }
      var written := file.AtomicWrite(Pending, writes);
      if !written {
        return null;
      }
      guard := new RuntimeProcessGuard(file);
    }

    /** The id is remembered even if it cannot be written. */
    method RecordJava(pid: Pid, writes: bool) returns (ok: bool)
      modifies this, path
      ensures ok == writes && java == Some(pid)
      ensures path.content == if ok then Owned(pid) else old(path.content)
    {
      java := Some(pid);
      ok := path.AtomicWrite(Owned(pid), writes);
    }

    method Drop(probe: Probe, removes: bool)
      modifies path
      ensures path.content == AfterDrop(old(path.content), java, probe, removes)
      ensures path.content == if removes && (java == None || probe == Dead) then Absent else old(path.content)
    {
      if java.None? || probe.Dead? {
        var _ := path.RemoveFile(removes);
      }
    }
  }

  // ----- launches, kills and exits in any order -----

  /** How far the controller that holds the exclusive runtime lock has come. */
  datatype Stage = Begun | Reset | Launched(pid: Pid) | Recorded(pid: Pid) | Unrecorded(pid: Pid)

  /** `alive` are the Java processes of all launches so far. */
  datatype Host = Host(file: File, alive: set<Pid>, holder: Option<Stage>)

  datatype Step =
    | Begin(probe: Probe, removes: bool, writes: bool)
    | ClearedThenKilled
    | ResetRuntime
    | Launch(pid: Pid)
    | RecordJava(writes: bool)
    | Terminate
    | Drop(probe: Probe, removes: bool)
    | Kill
    | JavaExit(pid: Pid)

  predicate Honest(probe: Probe, pid: Pid, alive: set<Pid>) {
    probe.Dead? ==> pid !in alive
  }

  /** What the controller's guard has in memory. */
  function Remembered(stage: Stage): Option<Pid> {
    if stage.Recorded? || stage.Unrecorded? then Some(stage.pid) else None
  }

  predicate Next(h: Host, h': Host, step: Step) {
    match step
    case Begin(probe, removes, writes) =>
      && h.holder.None? && (h.file.Owned? ==> Honest(probe, h.file.java, h.alive))
      && var (ok, file) := AfterBegin(h.file, probe, removes, writes);
         h' == h.(file := file, holder := if ok then Some(Begun) else None)
    // Killed after the stale record was removed and before the new one was written.
    case ClearedThenKilled => h.holder.None? && h.file.Owned? && h.file.java !in h.alive && h' == h.(file := Absent)
    case ResetRuntime => h.holder == Some(Begun) && h' == h.(holder := Some(Reset))
    case Launch(pid) =>
      && h.holder == Some(Reset) && pid !in h.alive
      && h' == h.(alive := h.alive + {pid}, holder := Some(Launched(pid)))
    case RecordJava(writes) =>
      && h.holder.Some? && h.holder.value.Launched?
      && var pid := h.holder.value.pid;
         h' == if writes then h.(file := Owned(pid), holder := Some(Recorded(pid)))
               else h.(holder := Some(Unrecorded(pid)))
    case Terminate =>
      && h.holder.Some? && (h.holder.value.Recorded? || h.holder.value.Unrecorded?)
      && h' == h.(alive := h.alive - {h.holder.value.pid})
    // A controller returns only before the launch or after it tried to record the id.
    case Drop(probe, removes) =>
      && h.holder.Some? && !h.holder.value.Launched?
      && var java := Remembered(h.holder.value);
      && (java.Some? ==> Honest(probe, java.value, h.alive))
      && h' == h.(file := AfterDrop(h.file, java, probe, removes), holder := None)
    case Kill => h.holder.Some? && h' == h.(holder := None)
    case JavaExit(pid) => h' == h.(alive := h.alive - {pid})
  }

  /** Whoever is alive is known: to the controller if there is one, and to a record that no launch gets past. */
  predicate Guarded(h: Host) {
    && (forall p :: p in h.alive ==> h.file.Garbage? || h.file.Pending? || h.file == Owned(p))
    && (forall p, q :: p in h.alive && q in h.alive ==> p == q)
    && (h.holder.Some? ==>
          match h.holder.value
          case Begun => h.alive == {} && h.file.Pending?
          case Reset => h.alive == {} && h.file.Pending?
          case Launched(pid) => h.alive <= {pid} && h.file.Pending?
          case Recorded(pid) => h.alive <= {pid} && h.file == Owned(pid)
          case Unrecorded(pid) => h.alive <= {pid} && h.file.Pending?)
  }

  lemma NextGuards(h: Host, h': Host, step: Step)
    requires Guarded(h) && Next(h, h', step)
    ensures Guarded(h')
  {
  }

  ghost predicate Run(hosts: seq<Host>, steps: seq<Step>) {
    && |hosts| == |steps| + 1
    && hosts[0].alive == {} && hosts[0].holder.None?
    && forall i :: 0 <= i < |steps| ==> Next(hosts[i], hosts[i + 1], steps[i])
  }

  lemma {:induction false} RunGuards(hosts: seq<Host>, steps: seq<Step>, i: nat)
    requires Run(hosts, steps) && i < |hosts|
    ensures Guarded(hosts[i])
  {
    if i > 0 {
      RunGuards(hosts, steps, i - 1);
      NextGuards(hosts[i - 1], hosts[i], steps[i - 1]);
    }
  }

  /** From the moment a launch begins until it starts its own process, no Java of any launch is alive. */
  lemma NeverResetsUnderJava(hosts: seq<Host>, steps: seq<Step>, i: nat)
    requires Run(hosts, steps) && i < |steps|
    requires steps[i].ResetRuntime? || hosts[i].holder == Some(Reset)
    ensures hosts[i].alive == {}
  {
    RunGuards(hosts, steps, i);
    assert Next(hosts[i], hosts[i + 1], steps[i]);
  }

  /** And at no time do two Java processes of one world run side by side. */
  lemma OneJavaAtATime(hosts: seq<Host>, steps: seq<Step>, i: nat, p: Pid, q: Pid)
    requires Run(hosts, steps) && i < |hosts|
    requires p in hosts[i].alive && q in hosts[i].alive
    ensures p == q
  {
    RunGuards(hosts, steps, i);
  }
}
