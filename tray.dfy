/** The tray controller of tray.py: the persisted state dictionary, the analyser-backend choice,
    the per-program status line, the process matching and the bookkeeping of spawned programs.
    Process enumeration and spawning, the clock, `datetime.fromisoformat` and the menu are
    oracles or left out; the state file is the last state written. */
module Tray {
  import opened Wrappers
  import opened Text
  import opened JsonValue
  import opened Times
  import opened Config

  const GlobalKey: string := "_global"
  const BackendKey: string := "analyzer_backend"
  const BackendVar: string := "ANALYZER_BACKEND"
  const AnalyzerScript: string := "analyzer.py"

  /** The backends the menu offers. */
  const Backends: set<string> := {"gemini", "local"}

  /** A program the tray starts: its script, its menu caption and whether it stays running. */
  datatype ProgramSpec = ProgramSpec(script: string, caption: string, mode: string)

  const Programs: seq<ProgramSpec> := [
    ProgramSpec("observer.py", "Observer", "daemon"),
    ProgramSpec(AnalyzerScript, "Analyzer", "oneshot"),
    ProgramSpec("summarizer.py", "Summarizer", "oneshot"),
    ProgramSpec("notifier.py", "Notifier", "oneshot")]

  /** `_load_state`: no file, or a file that is not JSON, is the empty state. */
  function LoadState(exists_: bool, decoded: Option<Json>): (r: seq<(string, Json)>)
    ensures !exists_ || decoded.None? ==> r == []
    ensures exists_ && decoded.Some? && decoded.value.JObj? ==> r == decoded.value.fields
  {
    if !exists_ then []
    else match decoded
      case Some(JObj(fields)) => fields
      case _ => []
  }

  /** The `_global` entry as `_load_analyzer_backend` and `_set_analyzer_backend` read it: the
      entry when it is an object, and `{}` when it is missing or anything else. */
  function EntryOf(state: seq<(string, Json)>, key: string): (r: seq<(string, Json)>)
    ensures Get(state, key).Some? && Get(state, key).value.JObj? ==> r == Get(state, key).value.fields
    ensures Get(state, key).None? ==> r == []
    ensures Get(state, key).Some? && !Get(state, key).value.JObj? ==> r == []
  {
    match Get(state, key)
    case Some(JObj(fields)) => fields
    case _ => []
  }

  /** `self.state.get(script, {})` as `_state_time` uses it, calling `.get` on it: a missing
      entry is `{}`, an object is read, and any other value has no `get` (AttributeError). */
  function EntryAt(state: seq<(string, Json)>, key: string): (r: Result<seq<(string, Json)>>)
    ensures r.Ok? <==> Get(state, key).None? || Get(state, key).value.JObj?
    ensures r.Ok? ==> r.value == EntryOf(state, key)
    ensures r.Err? ==> r.error.kind == AttributeError
  {
    match Get(state, key)
    case None => Ok([])
    case Some(JObj(fields)) => Ok(fields)
    case Some(_) => Err(Failure(AttributeError, "the state entry has no attribute 'get'"))
  }

  /** `dict(self.state.get(script, {}))` in `_update_state`: a missing entry is `{}` and an object
      is copied; an empty string or list gives `{}`; a non-empty string fails because its items
      are one character long; null, a number or a boolean is not iterable. A non-empty list is
      reported as an error. */
  function DictOf(state: seq<(string, Json)>, key: string): (r: Result<seq<(string, Json)>>)
    ensures Get(state, key).None? ==> r == Ok([])
    ensures Get(state, key).Some? && Get(state, key).value.JObj? ==> r == Ok(Get(state, key).value.fields)
    ensures Get(state, key).Some? && Get(state, key).value.JStr?
            ==> (r.Ok? <==> Get(state, key).value.s == "") && (r.Err? ==> r.error.kind == ValueError)
    ensures Get(state, key).Some? && (Get(state, key).value.JNull? || Get(state, key).value.JNum? || Get(state, key).value.JBool?)
            ==> r.Err? && r.error.kind == TypeError
    ensures r.Ok? ==> r.value == EntryOf(state, key)
  {
    match Get(state, key)
    case None => Ok([])
    case Some(v) =>
      match v
      case JObj(fields) => Ok(fields)
      case JStr(text) =>
        if text == "" then Ok([])
        else Err(Failure(ValueError, "dictionary update sequence element #0 has length 1; 2 is required"))
      case JArr(items) =>
        if |items| == 0 then Ok([])
        else Err(Failure(TypeError, "cannot convert dictionary update sequence element #0 to a sequence"))
      case _ => Err(Failure(TypeError, "the state entry is not iterable"))
  }

  /** `_load_analyzer_backend`: a non-blank string persisted under `_global` wins, else the
      environment's choice or "gemini"; either way stripped and lower-cased. */
  function LoadAnalyzerBackend(state: seq<(string, Json)>, env: Env): (r: string)
    ensures var raw := Get(EntryOf(state, GlobalKey), BackendKey);
      (raw.Some? && raw.value.JStr? && Strip(raw.value.s) != "" ==> r == Normalized(raw.value.s))
      && (!(raw.Some? && raw.value.JStr? && Strip(raw.value.s) != "") ==> r == Normalized(GetEnv(env, BackendVar, "gemini")))
  {
    match Get(EntryOf(state, GlobalKey), BackendKey)
    case Some(JStr(raw)) =>
      if Strip(raw) != "" then Normalized(raw) else Normalized(GetEnv(env, BackendVar, "gemini"))
    case _ => Normalized(GetEnv(env, BackendVar, "gemini"))
  }

  /** The state with `backend` stored under `_global`: that entry's other keys and every other
      entry are kept. */
  function WithBackend(state: seq<(string, Json)>, backend: string): (r: seq<(string, Json)>)
    ensures EntryOf(r, GlobalKey) == Put(EntryOf(state, GlobalKey), BackendKey, JStr(backend))
    ensures Get(EntryOf(r, GlobalKey), BackendKey) == Some(JStr(backend))
    ensures forall k :: k != GlobalKey ==> Get(r, k) == Get(state, k)
  {
    Put(state, GlobalKey, JObj(Put(EntryOf(state, GlobalKey), BackendKey, JStr(backend))))
  }

  /** The backend a menu choice selects: the stripped, lower-cased text when it names one of
      the menu's backends, and nothing otherwise. */
  function ChosenBackend(backend: string): (r: Option<string>)
    ensures r.Some? <==> Normalized(backend) in Backends
    ensures r.Some? ==> r.value == Normalized(backend) && r.value in Backends
  {
    var b := Normalized(backend);
    if b in Backends then Some(b) else None
  }

  /** No key occurs twice among the updates, as in a Python keyword-argument dictionary. */
  predicate UniqueKeys(updates: seq<(string, Json)>) {
    forall i, j :: 0 <= i < j < |updates| ==> updates[i].0 != updates[j].0
  }

  /** `entry.update(updates)`: each key given takes its new value; the others keep theirs. */
  function Merge(entry: seq<(string, Json)>, updates: seq<(string, Json)>): (r: seq<(string, Json)>)
    requires UniqueKeys(updates)
    ensures forall k :: Get(updates, k).Some? ==> Get(r, k) == Get(updates, k)
    ensures forall k :: Get(updates, k).None? ==> Get(r, k) == Get(entry, k)
    decreases |updates|
  {
    if |updates| == 0 then entry
    else
      var first := updates[0];
      var rest := updates[1..];
      assert first.0 !in Keys(rest) by {
        forall i | 0 <= i < |rest| ensures Keys(rest)[i] != first.0 {
          assert rest[i] == updates[i + 1];
        }
      }
      Merge(Put(entry, first.0, first.1), rest)
  }

  /** `_format_time`: "-" for no time, else "YYYY/MM/DD HH:MM". */
  function FormatTime(v: Option<DateTime>): (r: string)
    ensures v.None? ==> r == "-"
    ensures v.Some? ==> |r| == 16 && r[4] == '/' && r[7] == '/' && r[10] == ' '
                        && r[11..] == HourMinute(v.value.hour, v.value.minute)
  {
    match v
    case None => "-"
    case Some(t) =>
      var date := Pad(t.year, 4) + "/" + Pad(t.month, 2) + "/" + Pad(t.day, 2) + " ";
      assert |date| == 11;
      date + HourMinute(t.hour, t.minute)
  }

  const RunningPrefix: string := "状態: 実行中 (開始 "
  const StoppedPrefix: string := "状態: 停止中 (最終 "

  /** `_status_text`: a running program shows its start; a stopped one its last end, else its
      last start, else "-". */
  function StatusText(running: bool, startedAt: Option<DateTime>, lastEnd: Option<DateTime>,
                      lastStart: Option<DateTime>): (r: string)
    ensures running ==> r == RunningPrefix + FormatTime(startedAt) + ")"
    ensures !running && lastEnd.Some? ==> r == StoppedPrefix + FormatTime(lastEnd) + ")"
    ensures !running && lastEnd.None? ==> r == StoppedPrefix + FormatTime(lastStart) + ")"
  {
    if running then RunningPrefix + FormatTime(startedAt) + ")"
    else
      var lastText := FormatTime(if lastEnd.Some? then lastEnd else lastStart);
      if lastText == "-" then "状態: 停止中 (最終 -)"
      else StoppedPrefix + lastText + ")"
  }

  /** A stopped program that never ran reads "-". */
  lemma NeverRunShowsDash()
    ensures StatusText(false, None, None, None) == "状態: 停止中 (最終 -)"
  {
  }

  /** The stored time under `key` of an entry: a missing or empty value, or one `fromisoformat`
      rejects, is no time; a value that is not a string makes `fromisoformat` raise TypeError,
      which is not caught. */
  function EntryTime(entry: seq<(string, Json)>, key: string, fromiso: string -> Option<DateTime>): (r: Result<Option<DateTime>>)
    ensures Get(entry, key).None? || !Truthy(Get(entry, key).value) ==> r == Ok(None)
    ensures Get(entry, key).Some? && Get(entry, key).value.JStr? && Get(entry, key).value.s != ""
            ==> r == Ok(fromiso(Get(entry, key).value.s))
    ensures r.Err? <==> Get(entry, key).Some? && Truthy(Get(entry, key).value) && !Get(entry, key).value.JStr?
    ensures r.Err? ==> r.error.kind == TypeError
  {
    match Get(entry, key)
    case None => Ok(None)
    case Some(raw) =>
      if !Truthy(raw) then Ok(None)
      else if raw.JStr? then Ok(fromiso(raw.s))
      else Err(Failure(TypeError, "fromisoformat: argument must be str"))
  }

  /** `_state_time`: the script's entry must be an object (or missing), then its time is read. */
  function StateTime(state: seq<(string, Json)>, script: string, key: string, fromiso: string -> Option<DateTime>)
    : (r: Result<Option<DateTime>>)
    ensures EntryAt(state, script).Err? ==> r == Err(EntryAt(state, script).error)
    ensures EntryAt(state, script).Ok? ==> r == EntryTime(EntryOf(state, script), key, fromiso)
    ensures r.Err? <==> EntryAt(state, script).Err? || EntryTime(EntryOf(state, script), key, fromiso).Err?
  {
    var entry :- EntryAt(state, script);
    EntryTime(entry, key, fromiso)
  }

  /** One running process as `process_iter` reports it: its identity and its command line, None
      when it could not be read. */
  datatype ProcInfo = ProcInfo(pid: int, cmdline: Option<seq<string>>)

  /** The match test of `_find_processes`: some command-line part contains the script name,
      ignoring letter case. */
  predicate Matches(p: ProcInfo, script: string) {
    p.cmdline.Some? && exists k :: 0 <= k < |p.cmdline.value| && Contains(Lower(p.cmdline.value[k]), Lower(script))
  }

  /** The processes that match, in enumeration order. */
  function MatchingOf(procs: seq<ProcInfo>, script: string): (r: seq<ProcInfo>)
    ensures |r| <= |procs|
    ensures forall p :: p in r <==> p in procs && Matches(p, script)
  {
    if |procs| == 0 then []
    else
      var init := MatchingOf(procs[..|procs| - 1], script);
      var last := procs[|procs| - 1];
      assert procs == procs[..|procs| - 1] + [last];
      init + (if Matches(last, script) then [last] else [])
  }

  /** `_find_processes`: the loop over the process table keeping those that match. */
  method FindProcesses(procs: seq<ProcInfo>, script: string) returns (matches: seq<ProcInfo>)
    ensures matches == MatchingOf(procs, script)
    ensures forall p :: p in matches <==> p in procs && Matches(p, script)
  {
    matches := [];
    for i := 0 to |procs|
      invariant matches == MatchingOf(procs[..i], script)
    {
      assert procs[..i + 1][..i] == procs[..i];
      if Matches(procs[i], script) {
        matches := matches + [procs[i]];
      }
    }
    assert procs[..|procs|] == procs;
  }

  /** Matching ignores the case of the script name. */
  lemma MatchIgnoresCase(p: ProcInfo, script: string)
    ensures Matches(p, Upper(script)) == Matches(p, script)
  {
    LowerUpper(script);
  }

  class TrayController {
    var state: seq<(string, Json)>
    /** What the state file holds: the state as last written. */
    var saved: seq<(string, Json)>
    var analyzerBackend: string
    /** `processes`: the process each script was last spawned as. */
    var processes: map<string, int>

    /** The controller after `__init__`: the loaded state, the backend it selects and no
        spawned process. */
    constructor (loaded: seq<(string, Json)>, env: Env)
      ensures state == loaded && saved == loaded && processes == map[]
      ensures analyzerBackend == LoadAnalyzerBackend(loaded, env)
    {
      state := loaded;
      saved := loaded;
      analyzerBackend := LoadAnalyzerBackend(loaded, env);
      processes := map[];
    }

    /** `_update_state`: the script's entry takes the updates over its other keys, every other
        entry is unchanged, and the whole state is written out. When `dict()` rejects the stored
        entry, the error escapes and nothing is changed or written. */
    method UpdateState(script: string, updates: seq<(string, Json)>) returns (r: Result<()>)
      requires UniqueKeys(updates)
      modifies this
      ensures r.Ok? <==> DictOf(old(state), script).Ok?
      ensures r.Err? ==> r.error == DictOf(old(state), script).error && state == old(state) && saved == old(saved)
      ensures r.Ok? ==> state == Put(old(state), script, JObj(Merge(EntryOf(old(state), script), updates)))
                        && saved == state
      ensures analyzerBackend == old(analyzerBackend) && processes == old(processes)
    {
      var copied := DictOf(state, script);
      if copied.Err? {
        return Err(copied.error);
      }
      var entry := Merge(copied.value, updates);
      state := Put(state, script, JObj(entry));
      saved := state;
      r := Ok(());
    }

    /** `_set_analyzer_backend`: a value other than "gemini" or "local" (after stripping and
        lower-casing) is ignored; otherwise it becomes the backend and is persisted under
        `_global`, all else unchanged. */
    method SetAnalyzerBackend(backend: string)
      modifies this
      ensures ChosenBackend(backend).None? ==>
                state == old(state) && saved == old(saved) && analyzerBackend == old(analyzerBackend)
      ensures ChosenBackend(backend).Some? ==>
                analyzerBackend == ChosenBackend(backend).value
                && state == WithBackend(old(state), ChosenBackend(backend).value)
                && saved == state
      ensures processes == old(processes)
    {
      var choice := ChosenBackend(backend);
      if choice.None? {
        return;
      }
      analyzerBackend := choice.value;
      state := WithBackend(state, choice.value);
      saved := state;
    }

    /** `_spawn`: the child's environment is the parent's, with ANALYZER_BACKEND set to the
        current choice only for analyzer.py; the new process is remembered for the script. */
    method Spawn(script: string, env: Env, proc: int) returns (childEnv: Env)
      modifies this
      ensures processes == old(processes)[script := proc]
      ensures script == AnalyzerScript ==> childEnv(BackendVar) == Some(analyzerBackend)
      ensures forall k :: k != BackendVar ==> childEnv(k) == env(k)
      ensures script != AnalyzerScript ==> childEnv == env
      ensures state == old(state) && saved == old(saved) && analyzerBackend == old(analyzerBackend)
    {
      var backend := analyzerBackend;
      if script == AnalyzerScript {
        childEnv := k => if k == BackendVar then Some(backend) else env(k);
      } else {
        childEnv := env;
      }
      processes := processes[script := proc];
    }

    /** `_start_daemon` and `_run_once`: nothing happens while the program runs; otherwise it is
        spawned, and then its entry records the start and clears the last end, and the state is
        written. A stored entry `dict()` rejects raises after the spawn. */
    method Start(program: ProgramSpec, running: bool, env: Env, proc: int, now: string)
      returns (childEnv: Option<Env>, r: Result<()>)
      modifies this
      ensures running ==> childEnv.None? && r.Ok? && state == old(state) && saved == old(saved) && processes == old(processes)
      ensures !running ==> childEnv.Some? && processes == old(processes)[program.script := proc]
      ensures !running ==> (r.Ok? <==> DictOf(old(state), program.script).Ok?)
      ensures !running && r.Err? ==> state == old(state) && saved == old(saved)
      ensures !running && r.Ok? ==> state == Put(old(state), program.script,
                                                 JObj(Merge(EntryOf(old(state), program.script),
                                                            [("last_start", JStr(now)), ("last_end", JNull)])))
                                    && saved == state
      ensures !running && program.script == AnalyzerScript ==> childEnv.value(BackendVar) == Some(analyzerBackend)
      ensures !running && program.script != AnalyzerScript ==> childEnv.value == env
      ensures !running ==> forall k :: k != BackendVar ==> childEnv.value(k) == env(k)
      ensures analyzerBackend == old(analyzerBackend)
    {
      if running {
        return None, Ok(());
      }
      var e := Spawn(program.script, env, proc);
      childEnv := Some(e);
      r := UpdateState(program.script, [("last_start", JStr(now)), ("last_end", JNull)]);
    }

    /** `_wait_process`, once the process has exited: the entry records the end and the exit
        code, the state is written, and the script's process is forgotten only if it is still the
        one waited for. When `dict()` rejects the stored entry the thread ends there, and the
        process stays recorded. */
    method WaitProcess(script: string, proc: int, exitCode: int, finished: string) returns (r: Result<()>)
      modifies this
      ensures r.Ok? <==> DictOf(old(state), script).Ok?
      ensures r.Err? ==> state == old(state) && saved == old(saved) && processes == old(processes)
      ensures r.Ok? ==> state == Put(old(state), script,
                                     JObj(Merge(EntryOf(old(state), script),
                                                [("last_end", JStr(finished)), ("last_exit", JNum(exitCode as real))])))
                        && saved == state
      ensures r.Ok? && script in old(processes) && old(processes)[script] == proc ==> processes == old(processes) - {script}
      ensures r.Ok? && !(script in old(processes) && old(processes)[script] == proc) ==> processes == old(processes)
      ensures analyzerBackend == old(analyzerBackend)
    {
      r := UpdateState(script, [("last_end", JStr(finished)), ("last_exit", JNum(exitCode as real))]);
      if r.Err? {
        return;
      }
      ForgetProcess(script, proc);
    }

    /** The locked pop at the end of `_wait_process`: the script's process is dropped only if it is still
        the one that was waited for. */
    method ForgetProcess(script: string, proc: int)
      modifies this
      ensures script in old(processes) && old(processes)[script] == proc ==> processes == old(processes) - {script}
      ensures !(script in old(processes) && old(processes)[script] == proc) ==> processes == old(processes)
      ensures state == old(state) && saved == old(saved) && analyzerBackend == old(analyzerBackend)
    {
      if script in processes && processes[script] == proc {
        processes := processes - {script};
      }
    }

    /** `_stop_program`: with no matching process nothing happens; otherwise the matches are
        terminated (or killed), which is outside this model, and the stop time is recorded as
        the script's last end. The `processes` map is not consulted. */
    method StopProgram(script: string, procs: seq<ProcInfo>, now: string) returns (r: Result<()>)
      modifies this
      ensures MatchingOf(procs, script) == [] ==>
                r == Ok(()) && state == old(state) && saved == old(saved)
      ensures MatchingOf(procs, script) != [] ==>
                (r.Ok? <==> DictOf(old(state), script).Ok?)
                && (r.Err? ==> state == old(state) && saved == old(saved))
                && (r.Ok? ==> state == Put(old(state), script, JObj(Merge(EntryOf(old(state), script), [("last_end", JStr(now))])))
                              && saved == state)
      ensures processes == old(processes) && analyzerBackend == old(analyzerBackend)
    {
      var matches := FindProcesses(procs, script);
      if matches == [] {
        return Ok(());
      }
      r := UpdateState(script, [("last_end", JStr(now))]);
    }

    /** `_status_text` for a program: its running state comes from the process table; a stopped
        program's times come from its state entry, the last end read first. */
    method StatusOf(program: ProgramSpec, running: bool, startedAt: Option<DateTime>,
                    fromiso: string -> Option<DateTime>) returns (r: Result<string>)
      ensures running ==> r == Ok(StatusText(true, startedAt, None, None))
      ensures !running && StateTime(state, program.script, "last_end", fromiso).Ok?
              && StateTime(state, program.script, "last_start", fromiso).Ok?
              ==> r == Ok(StatusText(false, None, StateTime(state, program.script, "last_end", fromiso).value,
                                     StateTime(state, program.script, "last_start", fromiso).value))
      ensures !running && StateTime(state, program.script, "last_end", fromiso).Err?
              ==> r == Err(StateTime(state, program.script, "last_end", fromiso).error)
      ensures !running && StateTime(state, program.script, "last_end", fromiso).Ok?
              && StateTime(state, program.script, "last_start", fromiso).Err?
              ==> r == Err(StateTime(state, program.script, "last_start", fromiso).error)
      ensures r.Err? ==> !running
    {
      if running {
        return Ok(StatusText(true, startedAt, None, None));
      }
      var lastEnd := StateTime(state, program.script, "last_end", fromiso);
      if lastEnd.Err? {
        return Err(lastEnd.error);
      }
      var lastStart := StateTime(state, program.script, "last_start", fromiso);
      if lastStart.Err? {
        return Err(lastStart.error);
      }
      r := Ok(StatusText(false, None, lastEnd.value, lastStart.value));
    }
  }

  /** A backend that was set is the one read back from the saved state on the next start,
      whatever the environment says. */
  lemma SetBackendPersists(state: seq<(string, Json)>, b: string, env: Env)
    requires b in Backends
    ensures LoadAnalyzerBackend(WithBackend(state, b), env) == b
  {
    BackendsNormal(b);
    var n := Normalized(b);
    PersistedBackendRead(state, b, env);
    assert n == b;
  }

  /** A non-blank string stored under `_global` is what the next start reads, normalised. */
  lemma PersistedBackendRead(state: seq<(string, Json)>, b: string, env: Env)
    requires Strip(b) != ""
    ensures LoadAnalyzerBackend(WithBackend(state, b), env)
            == Normalized(b)
  {
    var after := WithBackend(state, b);
    assert Get(EntryOf(after, GlobalKey), BackendKey) == Some(JStr(b));
  }

  /** The menu's backends are already in normal form. */
  lemma BackendsNormal(b: string)
    requires b in Backends
    ensures Strip(b) != "" && Normalized(b) == b
  {
    PlainWordNormal(b);
  }

  /** After a start is recorded, the status reads the start time back and no last end. */
  lemma {:induction false} StartedTimeReadBack(state: seq<(string, Json)>, script: string, now: string, fromiso: string -> Option<DateTime>)
    requires now != ""
    ensures var after := Put(state, script, JObj(Merge(EntryOf(state, script), [("last_start", JStr(now)), ("last_end", JNull)])));
      StateTime(after, script, "last_start", fromiso) == Ok(fromiso(now))
      && StateTime(after, script, "last_end", fromiso) == Ok(None)
  {
    var updates := [("last_start", JStr(now)), ("last_end", JNull)];
    var entry := Merge(EntryOf(state, script), updates);
    var after := Put(state, script, JObj(entry));
    UpdateStateKeeps(state, script, updates, script, "last_start");
    assert EntryAt(after, script) == Ok(entry);
    assert Get(entry, "last_start") == Some(JStr(now));
    assert EntryTime(entry, "last_start", fromiso) == Ok(fromiso(now));
    UpdateStateKeeps(state, script, updates, script, "last_end");
    assert Get(updates, "last_end") == Some(JNull);
    assert Get(entry, "last_end") == Some(JNull);
    assert EntryTime(entry, "last_end", fromiso) == Ok(None);
  }

  /** After a stop is recorded, the status reads the stop time back as the last end, and the
      last start is whatever it was. */
  lemma {:induction false} StoppedTimeReadBack(state: seq<(string, Json)>, script: string, now: string, fromiso: string -> Option<DateTime>)
    requires now != "" && EntryAt(state, script).Ok?
    ensures var after := Put(state, script, JObj(Merge(EntryOf(state, script), [("last_end", JStr(now))])));
      StateTime(after, script, "last_end", fromiso) == Ok(fromiso(now))
      && StateTime(after, script, "last_start", fromiso) == StateTime(state, script, "last_start", fromiso)
  {
    var updates := [("last_end", JStr(now))];
    var entry := Merge(EntryOf(state, script), updates);
    var after := Put(state, script, JObj(entry));
    UpdateStateKeeps(state, script, updates, script, "last_end");
    assert EntryAt(after, script) == Ok(entry);
    assert Get(entry, "last_end") == Some(JStr(now));
    UpdateStateKeeps(state, script, updates, script, "last_start");
    assert Get(updates, "last_start") == None;
    assert Get(entry, "last_start") == Get(EntryOf(state, script), "last_start");
  }

  /** An update changes only the keys it names, in the script's entry alone. */
  lemma UpdateStateKeeps(state: seq<(string, Json)>, script: string, updates: seq<(string, Json)>, other: string, key: string)
    requires UniqueKeys(updates)
    ensures var after := Put(state, script, JObj(Merge(EntryOf(state, script), updates)));
      && EntryAt(after, script) == Ok(Merge(EntryOf(state, script), updates))
      && (other != script ==> Get(after, other) == Get(state, other))
      && Get(EntryOf(after, script), key) == (if Get(updates, key).Some? then Get(updates, key) else Get(EntryOf(state, script), key))
  {
  }
}
