/**
 * `TaskRunner.run`: the environment a task's process gets, the script it runs, and
 * how the process's outcome becomes a task's success flag.
 */
module TaskRunning {
  import opened Wrappers
  import opened Text
  import opened Decimal
  import opened Paths
  import opened ProcessRunning

  /** A value of a task's spec, by the Python type it arrives with. */
  datatype SpecValue = Str(s: string) | Int(i: int) | Bool(b: bool) | List(items: seq<string>)

  /** A task as the job store hands it over; its spec is the dict's items in insertion order. */
  datatype Task = Task(jobId: string, taskName: string, spec: seq<(string, SpecValue)>, retryCount: int)

  /**
   * The text a spec value becomes: a list is joined with commas, an integer (a `bool`
   * is one, in Python) goes through `str`, a string is kept.
   */
  function Coerce(v: SpecValue): string {
    match v
    case List(items) => Join(items, ',')
    case Int(i) => IntToString(i)
    case Bool(b) => if b then "True" else "False"
    case Str(s) => s
  }

  /** A non-empty list of comma-free items can be recovered from its environment value. */
  lemma CoerceListRoundTrip(items: seq<string>)
    requires |items| >= 1 && forall k :: 0 <= k < |items| ==> ',' !in items[k]
    ensures Split(Coerce(List(items)), ',') == items
  {
    SplitJoin(items, ',');
  }

  /** Distinct integers give distinct environment values. */
  lemma CoerceIntInjective(a: int, b: int)
    requires Coerce(Int(a)) == Coerce(Int(b))
    ensures a == b
  {
    IntToStringInjective(a, b);
  }

  /** The fixed part of every task's environment. */
  const BaseEnv: map<string, string> := map[
    "PYTHONPATH" := "/home/dev/github/data-processor/src",
    "CONDA_PATH" := "/home/dev/anaconda3/bin/conda",
    "OUT_PATH" := "/tmp"]

  function KeysOf(spec: seq<(string, SpecValue)>): set<string> {
    set k | 0 <= k < |spec| :: spec[k].0
  }

  /** The keys of a dict are distinct. */
  predicate DistinctKeys(spec: seq<(string, SpecValue)>) {
    forall i, j :: 0 <= i < j < |spec| ==> spec[i].0 != spec[j].0
  }

  /** The environment after the first `|spec|` items have been stored into the base. */
  function EnvOf(spec: seq<(string, SpecValue)>): map<string, string>
    decreases |spec|
  {
    if spec == [] then BaseEnv
    else
      var last := spec[|spec| - 1];
      EnvOf(spec[..|spec| - 1])[last.0 := Coerce(last.1)]
  }

  lemma KeysOfSnoc(spec: seq<(string, SpecValue)>)
    requires spec != []
    ensures KeysOf(spec) == KeysOf(spec[..|spec| - 1]) + {spec[|spec| - 1].0}
  {
    var init := spec[..|spec| - 1];
    forall key | key in KeysOf(spec) ensures key in KeysOf(init) + {spec[|spec| - 1].0} {
      var k :| 0 <= k < |spec| && spec[k].0 == key;
      if k < |init| {
        assert init[k].0 == key;
      }
    }
    forall key | key in KeysOf(init) ensures key in KeysOf(spec) {
      var k :| 0 <= k < |init| && init[k].0 == key;
      assert spec[k].0 == key;
    }
  }

  /** The environment holds exactly the base keys and the spec keys. */
  lemma {:induction false} EnvOfKeys(spec: seq<(string, SpecValue)>)
    ensures EnvOf(spec).Keys == BaseEnv.Keys + KeysOf(spec)
    decreases |spec|
  {
    if spec != [] {
      EnvOfKeys(spec[..|spec| - 1]);
      KeysOfSnoc(spec);
    }
  }

  /** A base key the spec does not mention keeps its value. */
  lemma {:induction false} EnvOfKeepsBase(spec: seq<(string, SpecValue)>, key: string)
    requires key in BaseEnv && key !in KeysOf(spec)
    ensures key in EnvOf(spec) && EnvOf(spec)[key] == BaseEnv[key]
    decreases |spec|
  {
    if spec != [] {
      KeysOfSnoc(spec);
      EnvOfKeepsBase(spec[..|spec| - 1], key);
    }
  }

  /** Each spec key maps to its own coerced value, overriding the base. */
  lemma {:induction false} EnvOfValue(spec: seq<(string, SpecValue)>, k: nat)
    requires DistinctKeys(spec) && k < |spec|
    ensures spec[k].0 in EnvOf(spec) && EnvOf(spec)[spec[k].0] == Coerce(spec[k].1)
    decreases |spec|
  {
    var init := spec[..|spec| - 1];
    if k < |init| {
      assert init[k] == spec[k];
      assert spec[k].0 != spec[|spec| - 1].0;
      EnvOfValue(init, k);
    }
  }

  /** The loop of `run` over the spec's items. */
  method BuildEnv(spec: seq<(string, SpecValue)>) returns (env: map<string, string>)
    ensures env == EnvOf(spec)
    ensures env.Keys == BaseEnv.Keys + KeysOf(spec)
    ensures forall key :: key in BaseEnv && key !in KeysOf(spec) ==> env[key] == BaseEnv[key]
    ensures DistinctKeys(spec) ==> forall k :: 0 <= k < |spec| ==> env[spec[k].0] == Coerce(spec[k].1)
  {
    env := BaseEnv;
    for i := 0 to |spec|
      invariant env == EnvOf(spec[..i])
    {
      assert spec[..i + 1][..i] == spec[..i];
      env := env[spec[i].0 := Coerce(spec[i].1)];
    }
    assert spec[..|spec|] == spec;
    EnvOfKeys(spec);
    forall key | key in BaseEnv && key !in KeysOf(spec) ensures env[key] == BaseEnv[key] {
      EnvOfKeepsBase(spec, key);
    }
    if DistinctKeys(spec) {
      forall k | 0 <= k < |spec| ensures env[spec[k].0] == Coerce(spec[k].1) {
        EnvOfValue(spec, k);
      }
    }
  }

  /** The script every task runs, next to this module. */
  function Script(moduleDir: string): string {
    PathJoin(moduleDir, "task_runner.sh")
  }

  /**
   * `run(task)`: launches the script with `task`'s environment under `task`'s name,
   * with the runner's defaults (echo on, no log file, no working directory, no timeout),
   * and reports success exactly when the process exits with code 0; since no timeout is
   * set the run is never marked as timed out.
   */
  method Run(task: Task, moduleDir: string, p: ProcessOracle) returns (ok: bool, launch: Launch)
    requires DistinctKeys(task.spec) && Exits(p)
    ensures ok <==> ExitCode(p) == 0
    ensures launch == Launch(Script(moduleDir), EnvOf(task.spec), None)
  {
    var env := BuildEnv(task.spec);
    var runner := new ProcessRunner(Script(moduleDir), env, task.taskName);
    var retcode, timedOut := runner.Run(p);
    ok := retcode == 0 && !timedOut;
    launch := runner.launched.value;
  }
}
