/**
 * The application store of src/store/index.js: its initial state, its mutations
 * (`ANIMATION_INCREASE_FRAMECOUNT`, `CONSOLE_LOG`, `CONSOLE_ERROR`, `UPDATE_STATE`) and the actions
 * that commit them.
 *
 * The console is an output log. `UPDATE_STATE` writes `state[parent][key]`; the parents that hold
 * nested objects are the configuration tables (`global`, `camera`, `colors`). Any other `parent`
 * (a missing one, or one of the scalars `verbose`, `enableStats`, `frameCount`) makes the write
 * throw a `TypeError` in module code, and the state is left as it was.
 */
module Store {
  import opened Common

  /** A value of the state tree. */
  datatype Value =
    | Flag(b: bool)
    | Number(n: real)
    | Text(s: string)
    | List(items: seq<Value>)
    | Object(fields: map<string, Value>)

  /** What the console receives. */
  datatype Line = Log(text: string) | Error(text: string)

  /** A committed mutation with its payload. */
  datatype Mutation =
    | IncreaseFrameCount
    | ConsoleLog(log: string)
    | ConsoleError(log: string)
    | UpdateState(parent: string, key: string, value: Value)

  /** The store's state: the three top-level scalars and the configuration tables. */
  datatype State = State(verbose: bool, enableStats: bool, frameCount: int, tables: map<string, map<string, Value>>)

  /** The result of one commit: the new state, what went to the console, and whether the mutation
      ran to completion (false when it threw). */
  datatype Outcome = Outcome(state: State, out: seq<Line>, ok: bool)

  function Point(x: real, y: real, z: real): Value
  {
    Object(map["x" := Number(x), "y" := Number(y), "z" := Number(z)])
  }

  /** The initial state of `createStore`. */
  function Initial(): (s: State)
    ensures s.verbose && s.enableStats && s.frameCount == 0
    ensures s.tables.Keys == {"global", "camera", "colors"}
  {
    State(
      true, true, 0,
      map[
        "global" := map[
          "usePostProcessing" := Flag(true),
          "antialiasing" := Flag(false),
          "retinaResolution" := Flag(true),
          "pixelRatio" := Number(1.0),
          "shadows" := Flag(true),
          "capFramerate" := Flag(false),
          "cappedFramerate" := Number(60.0)],
        "camera" := map[
          "position" := Object(map["x" := Number(25.0), "y" := Number(10.0), "z" := Number(25.0), "fov" := Number(60.0)]),
          "rotation" := Point(0.0, 0.0, 0.0),
          "target" := Point(-1.9988377007757225, 8.263792936014585, -1.2845939629740473),
          "keepControlsAboveGround" := Flag(true)],
        "colors" := map[
          "background" := Text("#a0a0a0"),
          "primary" := List([Text("#333333"), Text("#CCCCCC"), Text("#F1C660"), Text("#D02023"), Text("#E54726"),
                             Text("#23E383"), Text("#108AB2"), Text("#4A57A2"), Text("#94299E")]),
          "gradientPass" := Object(map["start" := Text("#CCCCCC"), "middle" := Text("#3a2f8b"), "stop" := Text("#19142d")])]])
  }

  /** `state[parent][key]`, when `parent` is a table holding `key`. */
  function Lookup(s: State, parent: string, key: string): Option<Value>
  {
    if parent in s.tables && key in s.tables[parent] then Some(s.tables[parent][key]) else None
  }

  /** What committing m does to state s. */
  function Apply(s: State, m: Mutation): Outcome
  {
    match m
    case IncreaseFrameCount => Outcome(s.(frameCount := s.frameCount + 1), [], true)
    case ConsoleLog(log) => Outcome(s, if s.verbose then [Log(log)] else [], true)
    case ConsoleError(log) => Outcome(s, [Error(log)], true)
    case UpdateState(parent, key, value) =>
      if parent in s.tables then
        Outcome(s.(tables := s.tables[parent := s.tables[parent][key := value]]), [], true)
      else
        Outcome(s, [], false)
  }

  /** A sequence of commits from state s: the final state and everything sent to the console. */
  function Run(s: State, ms: seq<Mutation>): (State, seq<Line>)
    decreases |ms|
  {
    if ms == [] then (s, [])
    else
      var (before, out) := Run(s, ms[..|ms| - 1]);
      var last := Apply(before, ms[|ms| - 1]);
      (last.state, out + last.out)
  }

  /** The number of `ANIMATION_INCREASE_FRAMECOUNT` commits in ms. */
  function Frames(ms: seq<Mutation>): nat
    decreases |ms|
  {
    if ms == [] then 0
    else Frames(ms[..|ms| - 1]) + (if ms[|ms| - 1] == IncreaseFrameCount then 1 else 0)
  }

  // ---------------------------------------------------------------------------------------------
  // Properties of single commits

  /** `ANIMATION_INCREASE_FRAMECOUNT` adds exactly 1 to `frameCount` and changes nothing else. */
  lemma IncreaseFrameCountOnlyCounts(s: State)
    ensures var o := Apply(s, IncreaseFrameCount);
            && o.ok && o.out == []
            && o.state.frameCount == s.frameCount + 1
            && o.state.verbose == s.verbose && o.state.enableStats == s.enableStats
            && o.state.tables == s.tables
  {
  }

  /** `CONSOLE_LOG` never changes the state, and prints its payload exactly when `verbose` is on. */
  lemma ConsoleLogOnlyPrints(s: State, log: string)
    ensures var o := Apply(s, ConsoleLog(log));
            && o.ok && o.state == s
            && (s.verbose ==> o.out == [Log(log)])
            && (!s.verbose ==> o.out == [])
  {
  }

  /** `UPDATE_STATE` succeeds exactly when `parent` names a table; then `state[parent][key]` reads
      `value` and every other entry reads as before. A failed one changes nothing. */
  lemma UpdateStateSetsOneEntry(s: State, parent: string, key: string, value: Value)
    ensures var o := Apply(s, UpdateState(parent, key, value));
            && (o.ok <==> parent in s.tables)
            && o.out == []
            && (o.ok ==> Lookup(o.state, parent, key) == Some(value))
            && (o.ok ==> o.state.tables.Keys == s.tables.Keys)
            && (forall p, k :: (p, k) != (parent, key) ==> Lookup(o.state, p, k) == Lookup(s, p, k))
            && (!o.ok ==> o.state == s)
            && o.state.verbose == s.verbose && o.state.enableStats == s.enableStats
            && o.state.frameCount == s.frameCount
  {
  }

  /** Writing the same entry twice is writing it once. */
  lemma UpdateStateIdempotent(s: State, parent: string, key: string, value: Value)
    ensures var m := UpdateState(parent, key, value);
            Apply(Apply(s, m).state, m).state == Apply(s, m).state
  {
    var m := UpdateState(parent, key, value);
    if parent in s.tables {
      var once := Apply(s, m).state;
      assert once.tables[parent][key := value] == once.tables[parent];
    }
  }

  /** Writes to two different entries can be made in either order. */
  lemma UpdateStateCommutes(s: State, p1: string, k1: string, v1: Value, p2: string, k2: string, v2: Value)
    requires (p1, k1) != (p2, k2)
    ensures Apply(Apply(s, UpdateState(p1, k1, v1)).state, UpdateState(p2, k2, v2)).state ==
            Apply(Apply(s, UpdateState(p2, k2, v2)).state, UpdateState(p1, k1, v1)).state
  {
    var t := s.tables;
    if p1 in t && p2 in t {
      if p1 == p2 {
        UpdatesCommute(t[p1], k1, v1, k2, v2);
      } else {
        UpdatesCommute(t, p1, t[p1][k1 := v1], p2, t[p2][k2 := v2]);
      }
    }
  }

  /** Two updates of a map at different keys can be made in either order. */
  lemma UpdatesCommute<K, V>(m: map<K, V>, k1: K, v1: V, k2: K, v2: V)
    requires k1 != k2
    ensures m[k1 := v1][k2 := v2] == m[k2 := v2][k1 := v1]
  {
  }

  // ---------------------------------------------------------------------------------------------
  // Properties of runs of commits

  /** After any run of commits, `frameCount` has grown by the number of
      `ANIMATION_INCREASE_FRAMECOUNT` commits in it. */
  lemma {:induction false} FrameCountCountsFrames(s: State, ms: seq<Mutation>)
    ensures Run(s, ms).0.frameCount == s.frameCount + Frames(ms)
    decreases |ms|
  {
    if ms != [] {
      FrameCountCountsFrames(s, ms[..|ms| - 1]);
    }
  }

  /** No commit can change `verbose` or `enableStats`: `UPDATE_STATE` cannot reach top-level
      scalars. */
  lemma {:induction false} FlagsAreFixed(s: State, ms: seq<Mutation>)
    ensures Run(s, ms).0.verbose == s.verbose && Run(s, ms).0.enableStats == s.enableStats
    ensures Run(s, ms).0.tables.Keys == s.tables.Keys
    decreases |ms|
  {
    if ms != [] {
      FlagsAreFixed(s, ms[..|ms| - 1]);
    }
  }

  /** With `verbose` off, no run of commits ever logs: only errors reach the console. */
  lemma {:induction false} QuietStoreNeverLogs(s: State, ms: seq<Mutation>)
    requires !s.verbose
    ensures forall i :: 0 <= i < |Run(s, ms).1| ==> Run(s, ms).1[i].Error?
    decreases |ms|
  {
    if ms != [] {
      var init := ms[..|ms| - 1];
      QuietStoreNeverLogs(s, init);
      FlagsAreFixed(s, init);
    }
  }

  // ---------------------------------------------------------------------------------------------
  // The store object

  /** The Vuex store: the state fields, the console and the log of commits made. */
  class AppStore {
    var verbose: bool
    var enableStats: bool
    var frameCount: int
    var tables: map<string, map<string, Value>>
    var console: seq<Line>
    var commits: seq<Mutation>

    function Snapshot(): State
      reads this
    {
      State(verbose, enableStats, frameCount, tables)
    }

    constructor ()
      ensures Snapshot() == Initial() && console == [] && commits == []
    {
      var s := Initial();
      verbose, enableStats, frameCount, tables := s.verbose, s.enableStats, s.frameCount, s.tables;
      console, commits := [], [];
    }

    /** `ANIMATION_INCREASE_FRAMECOUNT`. */
    method IncreaseFrameCountMutation()
      modifies this`frameCount
      ensures frameCount == old(frameCount) + 1
    {
      frameCount := frameCount + 1;
    }

    /** `CONSOLE_LOG`. */
    method ConsoleLogMutation(log: string)
      modifies this`console
      ensures console == old(console) + (if verbose then [Log(log)] else [])
    {
      if verbose {
        console := console + [Log(log)];
      }
    }

    /** `CONSOLE_ERROR`. */
    method ConsoleErrorMutation(log: string)
      modifies this`console
      ensures console == old(console) + [Error(log)]
    {
      console := console + [Error(log)];
    }

    /** `UPDATE_STATE`: `ok` is false when `state[parent]` is not an object and the write throws. */
    method UpdateStateMutation(parent: string, key: string, value: Value) returns (ok: bool)
      modifies this`tables
      ensures ok == (parent in old(tables))
      ensures ok ==> tables == old(tables)[parent := old(tables)[parent][key := value]]
      ensures !ok ==> tables == old(tables)
    {
      if parent in tables {
        tables := tables[parent := tables[parent][key := value]];
        ok := true;
      } else {
        ok := false;
      }
    }

    /** `commit`: record the commit and run the mutation's handler. */
    method Commit(m: Mutation) returns (ok: bool)
      modifies this
      ensures var o := Apply(old(Snapshot()), m);
              && Snapshot() == o.state && console == old(console) + o.out && ok == o.ok
              && commits == old(commits) + [m]
    {
      commits := commits + [m];
      match m
      case IncreaseFrameCount =>
        IncreaseFrameCountMutation();
        ok := true;
      case ConsoleLog(log) =>
        ConsoleLogMutation(log);
        ok := true;
      case ConsoleError(log) =>
        ConsoleErrorMutation(log);
        ok := true;
      case UpdateState(parent, key, value) =>
        ok := UpdateStateMutation(parent, key, value);
    }

    /** The action `animation_increaseFrameCount`. */
    method AnimationIncreaseFrameCount()
      modifies this
      ensures commits == old(commits) + [IncreaseFrameCount]
      ensures Snapshot() == old(Snapshot()).(frameCount := old(frameCount) + 1) && console == old(console)
    {
      var _ := Commit(IncreaseFrameCount);
    }

    /** The action `console`. */
    method ConsoleAction(log: string)
      modifies this
      ensures commits == old(commits) + [ConsoleLog(log)]
      ensures Snapshot() == old(Snapshot())
      ensures console == old(console) + (if verbose then [Log(log)] else [])
    {
      var _ := Commit(ConsoleLog(log));
    }

    /** The action `error`. */
    method ErrorAction(log: string)
      modifies this
      ensures commits == old(commits) + [ConsoleError(log)]
      ensures Snapshot() == old(Snapshot()) && console == old(console) + [Error(log)]
    {
      var _ := Commit(ConsoleError(log));
    }

    /** The action `updateState`; `ok` is false when the mutation threw. */
    method UpdateStateAction(parent: string, key: string, value: Value) returns (ok: bool)
      modifies this
      ensures commits == old(commits) + [UpdateState(parent, key, value)]
      ensures var o := Apply(old(Snapshot()), UpdateState(parent, key, value));
              Snapshot() == o.state && console == old(console) && ok == o.ok
    {
      ok := Commit(UpdateState(parent, key, value));
    }

    /** Dispatching a sequence of commits one after the other follows `Run`. */
    method CommitAll(ms: seq<Mutation>)
      modifies this
      ensures Snapshot() == Run(old(Snapshot()), ms).0
      ensures console == old(console) + Run(old(Snapshot()), ms).1
      ensures commits == old(commits) + ms
    {
      for i := 0 to |ms|
        invariant Snapshot() == Run(old(Snapshot()), ms[..i]).0
        invariant console == old(console) + Run(old(Snapshot()), ms[..i]).1
        invariant commits == old(commits) + ms[..i]
      {
        assert ms[..i + 1][..i] == ms[..i];
        var _ := Commit(ms[i]);
      }
      assert ms[..|ms|] == ms;
    }
  }
}
